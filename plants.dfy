/** The plant REST helpers: guarded request builders and the paged-search query. */
module Plants {
  import opened Wrappers
  import opened JsValues
  import opened Text
  import opened Client

  const TokenError := "Missing @authToken. Call an API login helper before invoking plant APIs."
  const PlantsPath := "/api/plants"

  /** `plantRequest`: the shared request logic with the plant token error. */
  function PlantRequest(session: Session, spec: RequestSpec): (r: Result<HttpRequest, ClientError>)
    ensures Given(session.baseUrl) && Given(spec.path) && !Given(session.authToken) ==>
              r == Failure(MissingToken(TokenError))
    ensures r.Success? <==> Given(session.baseUrl) && Given(spec.path) && Given(session.authToken)
  {
    Request(session, spec, TokenError)
  }

  function GetAllPlants(session: Session, responseAlias: string := "plantsResponse"): (r: Result<HttpRequest, ClientError>)
    ensures r.Success? <==> Ready(session)
    ensures r.Failure? ==> r.error == SessionError(session, TokenError)
    ensures r.Success? ==> Sends(r.value, session, GET, PlantsPath, Undefined, None, responseAlias)
  {
    FixedPathRequest(session, GET, PlantsPath, Undefined, None, responseAlias, TokenError);
    PlantRequest(session, Call(GET, PlantsPath, Undefined, None, responseAlias))
  }

  /** The path of one plant: `/api/plants/${plantId}`. */
  function PlantPath(plantId: JsValue): string
  {
    PlantsPath + "/" + Stringify(plantId)
  }

  function GetPlantById(session: Session, plantId: JsValue, responseAlias: string := "plantResponse"): (r: Result<HttpRequest, ClientError>)
    ensures !IdGiven(plantId) ==> r == Failure(MissingArgument("plantId is required to fetch a plant."))
    ensures r.Success? <==> IdGiven(plantId) && Ready(session)
    ensures IdGiven(plantId) && r.Failure? ==> r.error == SessionError(session, TokenError)
    ensures r.Success? ==> Sends(r.value, session, GET, PlantPath(plantId), Undefined, None, responseAlias)
  {
    if !IdGiven(plantId) then Failure(MissingArgument("plantId is required to fetch a plant."))
    else
      FixedPathRequest(session, GET, PlantPath(plantId), Undefined, None, responseAlias, TokenError);
      PlantRequest(session, Call(GET, PlantPath(plantId), Undefined, None, responseAlias))
  }

  function UpdatePlant(session: Session, plantId: JsValue, payload: JsValue,
                       responseAlias: string := "updatePlantResponse"): (r: Result<HttpRequest, ClientError>)
    ensures !IdGiven(plantId) ==> r == Failure(MissingArgument("plantId is required to update a plant."))
    ensures IdGiven(plantId) && !Truthy(payload) ==>
              r == Failure(MissingArgument("payload is required when updating a plant."))
    ensures r.Success? <==> IdGiven(plantId) && Truthy(payload) && Ready(session)
    ensures IdGiven(plantId) && Truthy(payload) && r.Failure? ==> r.error == SessionError(session, TokenError)
    ensures r.Success? ==> Sends(r.value, session, PUT, PlantPath(plantId), payload, None, responseAlias)
  {
    if !IdGiven(plantId) then Failure(MissingArgument("plantId is required to update a plant."))
    else if !Truthy(payload) then Failure(MissingArgument("payload is required when updating a plant."))
    else
      FixedPathRequest(session, PUT, PlantPath(plantId), payload, None, responseAlias, TokenError);
      PlantRequest(session, Call(PUT, PlantPath(plantId), payload, None, responseAlias))
  }

  function DeletePlant(session: Session, plantId: JsValue, responseAlias: string := "deletePlantResponse"): (r: Result<HttpRequest, ClientError>)
    ensures !IdGiven(plantId) ==> r == Failure(MissingArgument("plantId is required to delete a plant."))
    ensures r.Success? <==> IdGiven(plantId) && Ready(session)
    ensures IdGiven(plantId) && r.Failure? ==> r.error == SessionError(session, TokenError)
    ensures r.Success? ==> Sends(r.value, session, DELETE, PlantPath(plantId), Undefined, None, responseAlias)
  {
    if !IdGiven(plantId) then Failure(MissingArgument("plantId is required to delete a plant."))
    else
      FixedPathRequest(session, DELETE, PlantPath(plantId), Undefined, None, responseAlias, TokenError);
      PlantRequest(session, Call(DELETE, PlantPath(plantId), Undefined, None, responseAlias))
  }

  /** The path plants of one category live under: `/api/plants/category/${categoryId}`. */
  function CategoryPlantsPath(categoryId: JsValue): string
  {
    PlantsPath + "/category/" + Stringify(categoryId)
  }

  /** Creation posts to the payload's category; a falsy `categoryId` (0 included) is refused. */
  function CreatePlant(session: Session, payload: JsValue, responseAlias: string := "createPlantResponse"): (r: Result<HttpRequest, ClientError>)
    ensures !Truthy(payload) ==> r == Failure(MissingArgument("payload is required when creating a plant."))
    ensures Truthy(payload) && !Truthy(Field(payload, "categoryId")) ==>
              r == Failure(MissingArgument("payload.categoryId is required for creating a plant."))
    ensures r.Success? <==> Truthy(payload) && Truthy(Field(payload, "categoryId")) && Ready(session)
    ensures Truthy(payload) && Truthy(Field(payload, "categoryId")) && r.Failure? ==>
              r.error == SessionError(session, TokenError)
    ensures r.Success? ==> payload.Obj? && "categoryId" in payload.fields
    ensures r.Success? ==>
              Sends(r.value, session, POST, CategoryPlantsPath(payload.fields["categoryId"]), payload, None, responseAlias)
  {
    if !Truthy(payload) then Failure(MissingArgument("payload is required when creating a plant."))
    else if !Truthy(Field(payload, "categoryId")) then
      Failure(MissingArgument("payload.categoryId is required for creating a plant."))
    else
      var path := CategoryPlantsPath(Field(payload, "categoryId"));
      FixedPathRequest(session, POST, path, payload, None, responseAlias, TokenError);
      PlantRequest(session, Call(POST, path, payload, None, responseAlias))
  }

  function GetPlantsByCategory(session: Session, categoryId: JsValue,
                               responseAlias: string := "plantsByCategoryResponse"): (r: Result<HttpRequest, ClientError>)
    ensures !Truthy(categoryId) ==>
              r == Failure(MissingArgument("categoryId is required for fetching plants by category."))
    ensures r.Success? <==> Truthy(categoryId) && Ready(session)
    ensures Truthy(categoryId) && r.Failure? ==> r.error == SessionError(session, TokenError)
    ensures r.Success? ==> Sends(r.value, session, GET, CategoryPlantsPath(categoryId), Undefined, None, responseAlias)
  {
    if !Truthy(categoryId) then Failure(MissingArgument("categoryId is required for fetching plants by category."))
    else
      FixedPathRequest(session, GET, CategoryPlantsPath(categoryId), Undefined, None, responseAlias, TokenError);
      PlantRequest(session, Call(GET, CategoryPlantsPath(categoryId), Undefined, None, responseAlias))
  }

  /**
   * Id 0 is a plant id like any other for lookup, update and deletion, but as
   * a category id it is refused both when creating a plant and when listing
   * a category's plants.
   */
  lemma ZeroIdAcceptedOnlyAsPlantId(session: Session, alias: string)
    requires Ready(session)
    ensures GetPlantById(session, Num(0), alias).Success?
    ensures DeletePlant(session, Num(0), alias).Success?
    ensures UpdatePlant(session, Num(0), Obj(map[]), alias).Success?
    ensures CreatePlant(session, Obj(map["categoryId" := Num(0)]), alias).Failure?
    ensures GetPlantsByCategory(session, Num(0), alias).Failure?
  {
  }

  /** The arguments of `searchPlants`; `Undefined` is a parameter not given. */
  datatype PlantSearch = PlantSearch(
    page: JsValue,
    size: JsValue,
    name: JsValue,
    category: JsValue,
    sortBy: JsValue,
    order: JsValue,
    sortField: JsValue,
    sortDir: JsValue)

  const NoSearchParams := PlantSearch(Undefined, Undefined, Undefined, Undefined,
                                      Undefined, Undefined, Undefined, Undefined)

  /**
   * `param ? param.toLowerCase() : "asc"` for the direction parameter named
   * `param`: a falsy direction means ascending, a string is lower-cased,
   * anything else has no `toLowerCase` to call, and the error names `param`.
   */
  function Direction(dir: JsValue, param: string): (r: Result<string, ClientError>)
    ensures !Truthy(dir) ==> r == Success("asc")
    ensures r.Success? ==> IsLowerCase(r.value)
    ensures r.Failure? <==> Truthy(dir) && !dir.Str?
    ensures r.Failure? ==> r.error == NotAFunction(param + ".toLowerCase is not a function")
    ensures dir.Str? && dir.s != "" ==> r == Success(ToLower(dir.s))
  {
    if !Truthy(dir) then Success("asc")
    else if dir.Str? then ToLowerSpec(dir.s); Success(ToLower(dir.s))
    else Failure(NotAFunction(param + ".toLowerCase is not a function"))
  }

  /**
   * The sort parameters that win: `sortBy` with `order`, else `sortField`
   * with `sortDir`; the last component names the direction parameter.
   */
  function SortParams(p: PlantSearch): (JsValue, JsValue, string)
  {
    if p.sortBy != Undefined then (p.sortBy, p.order, "order") else (p.sortField, p.sortDir, "sortDir")
  }

  /** The direction the winning sort parameters give. */
  function SortDirection(p: PlantSearch): Result<string, ClientError>
  {
    Direction(SortParams(p).1, SortParams(p).2)
  }

  /**
   * What the paged plant search sends as its query: the given paging and
   * filter parameters under their own names, except that `category` goes
   * under `categoryId`, and a Spring `field,dir` sort when a sort field is
   * given, with `sortBy/order` taking precedence over `sortField/sortDir`.
   */
  ghost predicate PlantQuery(p: PlantSearch, query: map<string, JsValue>)
  {
    && query.Keys <= {"page", "size", "name", "categoryId", "sort"}
    && Copied(query, "page", p.page)
    && Copied(query, "size", p.size)
    && Copied(query, "name", p.name)
    && Copied(query, "categoryId", p.category)
    && ("sort" in query <==> SortParams(p).0 != Undefined)
    && ("sort" in query ==>
          SortDirection(p).Success?
          && query["sort"] == Str(Stringify(SortParams(p).0) + "," + SortDirection(p).value))
  }

  /** The query is fixed by the parameters: two queries meeting the description agree. */
  lemma PlantQueryUnique(p: PlantSearch, q1: map<string, JsValue>, q2: map<string, JsValue>)
    requires PlantQuery(p, q1) && PlantQuery(p, q2)
    ensures q1 == q2
  {
    assert q1.Keys == q2.Keys;
    forall k | k in q1
      ensures q1[k] == q2[k]
    {
    }
  }

  /**
   * The query-building part of `searchPlants`, filling the query one
   * conditional assignment at a time. It fails only when the direction that
   * is used has no `toLowerCase`.
   */
  method BuildPlantQuery(p: PlantSearch) returns (r: Result<map<string, JsValue>, ClientError>)
    ensures r.Failure? <==> SortParams(p).0 != Undefined && SortDirection(p).Failure?
    ensures r.Failure? ==> r.error == SortDirection(p).error
    ensures r.Success? ==> PlantQuery(p, r.value)
    ensures r.Success? ==> "category" !in r.value
    ensures p == NoSearchParams ==> r == Success(map[])
  {
    var query: map<string, JsValue> := map[];
    if p.page != Undefined { query := query["page" := p.page]; }
    if p.size != Undefined { query := query["size" := p.size]; }
    if p.name != Undefined { query := query["name" := p.name]; }
    if p.category != Undefined { query := query["categoryId" := p.category]; }

    if p.sortBy != Undefined {
      var direction := Direction(p.order, "order");
      if direction.Failure? {
        return Failure(direction.error);
      }
      query := query["sort" := Str(Stringify(p.sortBy) + "," + direction.value)];
    } else if p.sortField != Undefined {
      var direction := Direction(p.sortDir, "sortDir");
      if direction.Failure? {
        return Failure(direction.error);
      }
      query := query["sort" := Str(Stringify(p.sortField) + "," + direction.value)];
    }
    r := Success(query);
  }

  /** `searchPlants`: build the query, then request the paged endpoint with it. */
  method SearchPlants(session: Session, p: PlantSearch, responseAlias: string := "plantsPageResponse")
    returns (r: Result<HttpRequest, ClientError>)
    ensures SortParams(p).0 != Undefined && SortDirection(p).Failure? ==>
              r == Failure(SortDirection(p).error)
    ensures r.Success? <==> Ready(session) && !(SortParams(p).0 != Undefined && SortDirection(p).Failure?)
    ensures !(SortParams(p).0 != Undefined && SortDirection(p).Failure?) && r.Failure? ==>
              r.error == SessionError(session, TokenError)
    ensures r.Success? ==> r.value.qs.Some? && PlantQuery(p, r.value.qs.value)
    ensures r.Success? ==> Sends(r.value, session, GET, PlantsPath + "/paged", Undefined, r.value.qs, responseAlias)
  {
    var query := BuildPlantQuery(p);
    if query.Failure? {
      return Failure(query.error);
    }
    FixedPathRequest(session, GET, PlantsPath + "/paged", Undefined, Some(query.value), responseAlias, TokenError);
    r := PlantRequest(session, Call(GET, PlantsPath + "/paged", Undefined, Some(query.value), responseAlias));
  }
}
