/** The sales REST helpers and the validators run over a page of sales. */
module Sales {
  import opened Wrappers
  import opened JsValues
  import opened Text
  import opened Client

  const TokenError := "Missing @authToken. Call an API login helper before invoking sales APIs."
  const SalesPath := "/api/sales"

  /** `salesRequest`: the shared request logic with the sales token error. */
  function SalesRequest(session: Session, spec: RequestSpec): (r: Result<HttpRequest, ClientError>)
    ensures Given(session.baseUrl) && Given(spec.path) && !Given(session.authToken) ==>
              r == Failure(MissingToken(TokenError))
    ensures r.Success? <==> Given(session.baseUrl) && Given(spec.path) && Given(session.authToken)
  {
    Request(session, spec, TokenError)
  }

  /** The path a sale of one plant is posted to: `/api/sales/plant/${plantId}`. */
  function SellPath(plantId: JsValue): string
  {
    SalesPath + "/plant/" + Stringify(plantId)
  }

  function SellPlant(session: Session, plantId: JsValue, payload: JsValue,
                     responseAlias: string := "sellPlantResponse"): (r: Result<HttpRequest, ClientError>)
    ensures !IdGiven(plantId) ==> r == Failure(MissingArgument("plantId is required to sell a plant."))
    ensures IdGiven(plantId) && !Truthy(payload) ==>
              r == Failure(MissingArgument("payload is required to sell a plant."))
    ensures r.Success? <==> IdGiven(plantId) && Truthy(payload) && Ready(session)
    ensures IdGiven(plantId) && Truthy(payload) && r.Failure? ==> r.error == SessionError(session, TokenError)
    ensures r.Success? ==> Sends(r.value, session, POST, SellPath(plantId), payload, None, responseAlias)
  {
    if !IdGiven(plantId) then Failure(MissingArgument("plantId is required to sell a plant."))
    else if !Truthy(payload) then Failure(MissingArgument("payload is required to sell a plant."))
    else
      FixedPathRequest(session, POST, SellPath(plantId), payload, None, responseAlias, TokenError);
      SalesRequest(session, Call(POST, SellPath(plantId), payload, None, responseAlias))
  }

  /** Sales of different numeric plant ids go to different paths. */
  lemma SellPathsDistinct(a: int, b: int)
    requires a != b
    ensures SellPath(Num(a)) != SellPath(Num(b))
  {
    NumericIdsStayDistinct(a, b);
    var prefix := SalesPath + "/plant/";
    assert SellPath(Num(a))[|prefix|..] == Stringify(Num(a));
    assert SellPath(Num(b))[|prefix|..] == Stringify(Num(b));
  }

  function GetAllSales(session: Session, responseAlias: string := "salesResponse"): (r: Result<HttpRequest, ClientError>)
    ensures r.Success? <==> Ready(session)
    ensures r.Failure? ==> r.error == SessionError(session, TokenError)
    ensures r.Success? ==> Sends(r.value, session, GET, SalesPath, Undefined, None, responseAlias)
  {
    FixedPathRequest(session, GET, SalesPath, Undefined, None, responseAlias, TokenError);
    SalesRequest(session, Call(GET, SalesPath, Undefined, None, responseAlias))
  }

  /** The path of one sale: `/api/sales/${saleId}`. */
  function SalePath(saleId: JsValue): string
  {
    SalesPath + "/" + Stringify(saleId)
  }

  function GetSaleById(session: Session, saleId: JsValue, responseAlias: string := "saleResponse"): (r: Result<HttpRequest, ClientError>)
    ensures !IdGiven(saleId) ==> r == Failure(MissingArgument("saleId is required to fetch a sale."))
    ensures r.Success? <==> IdGiven(saleId) && Ready(session)
    ensures IdGiven(saleId) && r.Failure? ==> r.error == SessionError(session, TokenError)
    ensures r.Success? ==> Sends(r.value, session, GET, SalePath(saleId), Undefined, None, responseAlias)
  {
    if !IdGiven(saleId) then Failure(MissingArgument("saleId is required to fetch a sale."))
    else
      FixedPathRequest(session, GET, SalePath(saleId), Undefined, None, responseAlias, TokenError);
      SalesRequest(session, Call(GET, SalePath(saleId), Undefined, None, responseAlias))
  }

  function DeleteSale(session: Session, saleId: JsValue, responseAlias: string := "deleteSaleResponse"): (r: Result<HttpRequest, ClientError>)
    ensures !IdGiven(saleId) ==> r == Failure(MissingArgument("saleId is required to delete a sale."))
    ensures r.Success? <==> IdGiven(saleId) && Ready(session)
    ensures IdGiven(saleId) && r.Failure? ==> r.error == SessionError(session, TokenError)
    ensures r.Success? ==> Sends(r.value, session, DELETE, SalePath(saleId), Undefined, None, responseAlias)
  {
    if !IdGiven(saleId) then Failure(MissingArgument("saleId is required to delete a sale."))
    else
      FixedPathRequest(session, DELETE, SalePath(saleId), Undefined, None, responseAlias, TokenError);
      SalesRequest(session, Call(DELETE, SalePath(saleId), Undefined, None, responseAlias))
  }

  /** The query object is passed through as it is. */
  function GetSalesPage(session: Session, query: map<string, JsValue> := map[],
                        responseAlias: string := "salesPageResponse"): (r: Result<HttpRequest, ClientError>)
    ensures r.Success? <==> Ready(session)
    ensures r.Failure? ==> r.error == SessionError(session, TokenError)
    ensures r.Success? ==> Sends(r.value, session, GET, SalesPath + "/page", Undefined, Some(query), responseAlias)
  {
    FixedPathRequest(session, GET, SalesPath + "/page", Undefined, Some(query), responseAlias, TokenError);
    SalesRequest(session, Call(GET, SalesPath + "/page", Undefined, Some(query), responseAlias))
  }

  // ---------------------------------------------------------------------------
  // Response validators
  // ---------------------------------------------------------------------------

  /** One sale of a page; `soldAt` is the sale time as a timestamp. */
  datatype Sale = Sale(soldAt: int, plantName: Option<string>)

  /**
   * `response.body.content`: `undefined` or `null` (reading `.length` from it
   * throws), a value without a numeric `length` such as an object or a number,
   * or an array of sales.
   */
  datatype Content = Missing | NoLength | Items(sales: seq<Sale>)

  datatype Body = Body(content: Content, message: Option<string>)

  datatype Response = Response(status: int, body: Body)

  /** Why a validator's assertion fails. */
  datatype CheckFailure =
    | NotAnArray
    | EmptyList
    | DateOrderBroken(index: nat)
    | NameOrderBroken(index: nat)
    | StatusMismatch(expected: int, actual: int)
    | MessageMissing
    | MessageLacks(needle: string)
    | ContentUnreadable

  /** `validateSalesResponse`: the content is an array with at least one sale. */
  function ValidateSalesResponse(response: Response): (r: Result<Response, CheckFailure>)
    ensures r.Success? <==> response.body.content.Items? && |response.body.content.sales| > 0
    ensures r.Success? ==> r.value == response
    ensures !response.body.content.Items? ==> r == Failure(NotAnArray)
    ensures response.body.content == Items([]) ==> r == Failure(EmptyList)
  {
    match response.body.content
    case Items(sales) => if |sales| > 0 then Success(response) else Failure(EmptyList)
    case _ => Failure(NotAnArray)
  }

  /** Every adjacent pair is newest first. */
  predicate DatesAdjacentDescending(s: seq<Sale>)
  {
    forall i :: 0 <= i < |s| - 1 ==> s[i].soldAt >= s[i + 1].soldAt
  }

  /** The whole sequence is newest first. */
  ghost predicate DatesDescending(s: seq<Sale>)
  {
    forall i, j :: 0 <= i <= j < |s| ==> s[i].soldAt >= s[j].soldAt
  }

  lemma {:induction false} DateChain(s: seq<Sale>, i: int, j: int)
    requires DatesAdjacentDescending(s)
    requires 0 <= i <= j < |s|
    ensures s[i].soldAt >= s[j].soldAt
    decreases j - i
  {
    if i < j {
      DateChain(s, i + 1, j);
    }
  }

  /** Checking adjacent pairs is enough: it is the same as the whole sequence being newest first. */
  lemma AdjacentDatesSuffice(s: seq<Sale>)
    ensures DatesAdjacentDescending(s) <==> DatesDescending(s)
  {
    if DatesAdjacentDescending(s) {
      forall i, j | 0 <= i <= j < |s|
        ensures s[i].soldAt >= s[j].soldAt
      {
        DateChain(s, i, j);
      }
    }
  }

  /**
   * `validateSalesSortedByDate`: walks the adjacent pairs and fails at the
   * first one whose later sale is newer.
   */
  method ValidateSalesSortedByDate(response: Response) returns (r: Result<Response, CheckFailure>)
    ensures response.body.content.Missing? ==> r == Failure(ContentUnreadable)
    ensures response.body.content.NoLength? ==> r == Success(response)
    ensures response.body.content.Items? ==>
              (r.Success? <==> DatesAdjacentDescending(response.body.content.sales))
    ensures r.Success? ==> r.value == response
    ensures response.body.content.Items? && |response.body.content.sales| <= 1 ==> r.Success?
    ensures r.Failure? && response.body.content.Items? ==>
              var s := response.body.content.sales;
              && r.error.DateOrderBroken?
              && r.error.index + 1 < |s|
              && s[r.error.index].soldAt < s[r.error.index + 1].soldAt
              && forall k :: 0 <= k < r.error.index ==> s[k].soldAt >= s[k + 1].soldAt
  {
    match response.body.content {
      case Missing =>
        return Failure(ContentUnreadable);
      case NoLength =>
        return Success(response);
      case Items(sales) =>
        var i := 0;
        while i < |sales| - 1
          invariant 0 <= i <= |sales|
          invariant |sales| > 0 ==> i < |sales|
          invariant forall k :: 0 <= k < i ==> sales[k].soldAt >= sales[k + 1].soldAt
        {
          if sales[i].soldAt < sales[i + 1].soldAt {
            return Failure(DateOrderBroken(i));
          }
          i := i + 1;
        }
        return Success(response);
    }
  }

  /** A sale with a truthy plant name. */
  predicate Named(sale: Sale)
  {
    sale.plantName.Some? && sale.plantName.value != ""
  }

  /** `plantName ? plantName.toLowerCase() : ""`. */
  function NameKey(sale: Sale): string
  {
    if Named(sale) then ToLower(sale.plantName.value) else ""
  }

  /** A sale's comparison key is empty exactly when it has no plant name. */
  lemma EmptyKeyIffUnnamed(sale: Sale)
    ensures NameKey(sale) == "" <==> !Named(sale)
  {
    if Named(sale) {
      assert |NameKey(sale)| == |sale.plantName.value|;
    }
  }

  /** `a` comes no later than `b` in alphabetical order of lower-cased name. */
  predicate NameLe(a: Sale, b: Sale)
  {
    LexLe(NameKey(a), NameKey(b))
  }

  /** Every adjacent pair is in alphabetical order of lower-cased name. */
  predicate NamesAdjacentAscending(s: seq<Sale>)
  {
    forall i :: 0 <= i < |s| - 1 ==> NameLe(s[i], s[i + 1])
  }

  /** The whole sequence is in alphabetical order of lower-cased name. */
  ghost predicate NamesAscending(s: seq<Sale>)
  {
    forall i, j :: 0 <= i <= j < |s| ==> NameLe(s[i], s[j])
  }

  lemma {:induction false} NameChain(s: seq<Sale>, i: int, j: int)
    requires NamesAdjacentAscending(s)
    requires 0 <= i <= j < |s|
    ensures NameLe(s[i], s[j])
    decreases j - i
  {
    if i == j {
      LexLeReflexive(NameKey(s[i]));
    } else {
      NameChain(s, i + 1, j);
      LexLeTransitive(NameKey(s[i]), NameKey(s[i + 1]), NameKey(s[j]));
    }
  }

  /** Checking adjacent pairs is enough: it is the same as the whole sequence being in name order. */
  lemma AdjacentNamesSuffice(s: seq<Sale>)
    ensures NamesAdjacentAscending(s) <==> NamesAscending(s)
  {
    if NamesAdjacentAscending(s) {
      forall i, j | 0 <= i <= j < |s|
        ensures NameLe(s[i], s[j])
      {
        NameChain(s, i, j);
      }
    }
  }

  /** In name order, sales without a plant name can only come before named ones. */
  lemma UnnamedSalesComeFirst(s: seq<Sale>, i: int, j: int)
    requires NamesAdjacentAscending(s)
    requires 0 <= i <= j < |s| && !Named(s[j])
    ensures !Named(s[i])
  {
    NameChain(s, i, j);
    EmptyKeyIffUnnamed(s[i]);
    EmptyKeyIffUnnamed(s[j]);
    LexLeEmpty(NameKey(s[i]));
  }

  /**
   * The loop of `validateSalesSortedByPlantName`: the index of the first
   * adjacent pair whose lower-cased names are out of order, if any.
   */
  method FirstNameBreak(sales: seq<Sale>) returns (bad: Option<nat>)
    ensures bad.None? <==> NamesAdjacentAscending(sales)
    ensures bad.Some? ==>
              && bad.value + 1 < |sales|
              && !NameLe(sales[bad.value], sales[bad.value + 1])
              && forall k :: 0 <= k < bad.value ==> NameLe(sales[k], sales[k + 1])
  {
    var i := 0;
    while i < |sales| - 1
      invariant 0 <= i <= |sales|
      invariant |sales| > 0 ==> i < |sales|
      invariant forall k :: 0 <= k < i ==> NameLe(sales[k], sales[k + 1])
    {
      var current := NameKey(sales[i]);
      var next := NameKey(sales[i + 1]);
      assert NameLe(sales[i], sales[i + 1]) == LexLe(current, next);
      if !LexLe(current, next) {
        return Some(i);
      }
      i := i + 1;
    }
    return None;
  }

  /**
   * `validateSalesSortedByPlantName`: fails at the first adjacent pair whose
   * lower-cased names are out of order.
   */
  method ValidateSalesSortedByPlantName(response: Response) returns (r: Result<Response, CheckFailure>)
    ensures response.body.content.Missing? ==> r == Failure(ContentUnreadable)
    ensures response.body.content.NoLength? ==> r == Success(response)
    ensures response.body.content.Items? ==>
              (r.Success? <==> NamesAdjacentAscending(response.body.content.sales))
    ensures r.Success? ==> r.value == response
    ensures response.body.content.Items? && |response.body.content.sales| <= 1 ==> r.Success?
    ensures r.Failure? && response.body.content.Items? ==>
              var s := response.body.content.sales;
              && r.error.NameOrderBroken?
              && r.error.index + 1 < |s|
              && !NameLe(s[r.error.index], s[r.error.index + 1])
              && forall k :: 0 <= k < r.error.index ==> NameLe(s[k], s[k + 1])
  {
    match response.body.content {
      case Missing =>
        return Failure(ContentUnreadable);
      case NoLength =>
        return Success(response);
      case Items(sales) =>
        var bad := FirstNameBreak(sales);
        if bad.Some? {
          return Failure(NameOrderBroken(bad.value));
        }
        return Success(response);
    }
  }

  const UnknownField := "unknownField"

  /**
   * `validateSalesErrorResponse`: status 500 and a message that mentions
   * `unknownField`, checked in that order.
   */
  function ValidateSalesErrorResponse(response: Response): (r: Result<Response, CheckFailure>)
    ensures r.Success? <==>
              && response.status == 500
              && response.body.message.Some?
              && exists i: nat :: OccursAt(response.body.message.value, UnknownField, i)
    ensures r.Success? ==> r.value == response
    ensures response.status != 500 ==> r == Failure(StatusMismatch(500, response.status))
    ensures response.status == 500 && response.body.message.None? ==> r == Failure(MessageMissing)
  {
    if response.status != 500 then Failure(StatusMismatch(500, response.status))
    else if response.body.message.None? then Failure(MessageMissing)
    else
      IncludesIffOccurs(response.body.message.value, UnknownField);
      if Includes(response.body.message.value, UnknownField) then Success(response)
      else Failure(MessageLacks(UnknownField))
  }
}
