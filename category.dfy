/** The category REST helpers: fixed endpoints, guarded builders and the paged-search query. */
module Category {
  import opened Wrappers
  import opened JsValues
  import opened Client

  const TokenError := "Missing @authToken. Call an API login helper before invoking category APIs."

  const CategoriesPath := "/api/categories"
  const SummaryPath := "/api/categories/summary"
  const SubCategoriesPath := "/api/categories/sub-categories"
  const PagePath := "/api/categories/page"
  const MainPath := "/api/categories/main"

  /** `categoryRequest`: the shared request logic with the category token error. */
  function CategoryRequest(session: Session, spec: RequestSpec): (r: Result<HttpRequest, ClientError>)
    ensures Given(session.baseUrl) && Given(spec.path) && !Given(session.authToken) ==>
              r == Failure(MissingToken(TokenError))
    ensures r.Success? <==> Given(session.baseUrl) && Given(spec.path) && Given(session.authToken)
  {
    Request(session, spec, TokenError)
  }

  function GetAllCategories(session: Session, responseAlias: string := "categoriesResponse"): (r: Result<HttpRequest, ClientError>)
    ensures r.Success? <==> Ready(session)
    ensures r.Failure? ==> r.error == SessionError(session, TokenError)
    ensures r.Success? ==> Sends(r.value, session, GET, CategoriesPath, Undefined, None, responseAlias)
  {
    FixedPathRequest(session, GET, CategoriesPath, Undefined, None, responseAlias, TokenError);
    CategoryRequest(session, Call(GET, CategoriesPath, Undefined, None, responseAlias))
  }

  /** The path of one category: `/api/categories/${categoryId}`. */
  function CategoryPath(categoryId: JsValue): string
  {
    CategoriesPath + "/" + Stringify(categoryId)
  }

  function GetCategoryById(session: Session, categoryId: JsValue, responseAlias: string := "categoryResponse"): (r: Result<HttpRequest, ClientError>)
    ensures !IdGiven(categoryId) ==> r == Failure(MissingArgument("categoryId is required to fetch a category."))
    ensures r.Success? <==> IdGiven(categoryId) && Ready(session)
    ensures IdGiven(categoryId) && r.Failure? ==> r.error == SessionError(session, TokenError)
    ensures r.Success? ==> Sends(r.value, session, GET, CategoryPath(categoryId), Undefined, None, responseAlias)
  {
    if !IdGiven(categoryId) then Failure(MissingArgument("categoryId is required to fetch a category."))
    else
      FixedPathRequest(session, GET, CategoryPath(categoryId), Undefined, None, responseAlias, TokenError);
      CategoryRequest(session, Call(GET, CategoryPath(categoryId), Undefined, None, responseAlias))
  }

  function UpdateCategory(session: Session, categoryId: JsValue, payload: JsValue,
                          responseAlias: string := "updateCategoryResponse"): (r: Result<HttpRequest, ClientError>)
    ensures !IdGiven(categoryId) ==> r == Failure(MissingArgument("categoryId is required to update a category."))
    ensures IdGiven(categoryId) && !Truthy(payload) ==>
              r == Failure(MissingArgument("payload is required when updating a category."))
    ensures r.Success? <==> IdGiven(categoryId) && Truthy(payload) && Ready(session)
    ensures IdGiven(categoryId) && Truthy(payload) && r.Failure? ==> r.error == SessionError(session, TokenError)
    ensures r.Success? ==> Sends(r.value, session, PUT, CategoryPath(categoryId), payload, None, responseAlias)
  {
    if !IdGiven(categoryId) then Failure(MissingArgument("categoryId is required to update a category."))
    else if !Truthy(payload) then Failure(MissingArgument("payload is required when updating a category."))
    else
      FixedPathRequest(session, PUT, CategoryPath(categoryId), payload, None, responseAlias, TokenError);
      CategoryRequest(session, Call(PUT, CategoryPath(categoryId), payload, None, responseAlias))
  }

  function DeleteCategory(session: Session, categoryId: JsValue, responseAlias: string := "deleteCategoryResponse"): (r: Result<HttpRequest, ClientError>)
    ensures !IdGiven(categoryId) ==> r == Failure(MissingArgument("categoryId is required to delete a category."))
    ensures r.Success? <==> IdGiven(categoryId) && Ready(session)
    ensures IdGiven(categoryId) && r.Failure? ==> r.error == SessionError(session, TokenError)
    ensures r.Success? ==> Sends(r.value, session, DELETE, CategoryPath(categoryId), Undefined, None, responseAlias)
  {
    if !IdGiven(categoryId) then Failure(MissingArgument("categoryId is required to delete a category."))
    else
      FixedPathRequest(session, DELETE, CategoryPath(categoryId), Undefined, None, responseAlias, TokenError);
      CategoryRequest(session, Call(DELETE, CategoryPath(categoryId), Undefined, None, responseAlias))
  }

  function CreateCategory(session: Session, payload: JsValue, responseAlias: string := "createCategoryResponse"): (r: Result<HttpRequest, ClientError>)
    ensures !Truthy(payload) ==> r == Failure(MissingArgument("payload is required when creating a category."))
    ensures r.Success? <==> Truthy(payload) && Ready(session)
    ensures Truthy(payload) && r.Failure? ==> r.error == SessionError(session, TokenError)
    ensures r.Success? ==> Sends(r.value, session, POST, CategoriesPath, payload, None, responseAlias)
  {
    if !Truthy(payload) then Failure(MissingArgument("payload is required when creating a category."))
    else
      FixedPathRequest(session, POST, CategoriesPath, payload, None, responseAlias, TokenError);
      CategoryRequest(session, Call(POST, CategoriesPath, payload, None, responseAlias))
  }

  function GetCategorySummary(session: Session, responseAlias: string := "categorySummaryResponse"): (r: Result<HttpRequest, ClientError>)
    ensures r.Success? <==> Ready(session)
    ensures r.Failure? ==> r.error == SessionError(session, TokenError)
    ensures r.Success? ==> Sends(r.value, session, GET, SummaryPath, Undefined, None, responseAlias)
  {
    FixedPathRequest(session, GET, SummaryPath, Undefined, None, responseAlias, TokenError);
    CategoryRequest(session, Call(GET, SummaryPath, Undefined, None, responseAlias))
  }

  function GetAllSubCategories(session: Session, responseAlias: string := "subCategoriesResponse"): (r: Result<HttpRequest, ClientError>)
    ensures r.Success? <==> Ready(session)
    ensures r.Failure? ==> r.error == SessionError(session, TokenError)
    ensures r.Success? ==> Sends(r.value, session, GET, SubCategoriesPath, Undefined, None, responseAlias)
  {
    FixedPathRequest(session, GET, SubCategoriesPath, Undefined, None, responseAlias, TokenError);
    CategoryRequest(session, Call(GET, SubCategoriesPath, Undefined, None, responseAlias))
  }

  function GetMainCategories(session: Session, responseAlias: string := "mainCategoriesResponse"): (r: Result<HttpRequest, ClientError>)
    ensures r.Success? <==> Ready(session)
    ensures r.Failure? ==> r.error == SessionError(session, TokenError)
    ensures r.Success? ==> Sends(r.value, session, GET, MainPath, Undefined, None, responseAlias)
  {
    FixedPathRequest(session, GET, MainPath, Undefined, None, responseAlias, TokenError);
    CategoryRequest(session, Call(GET, MainPath, Undefined, None, responseAlias))
  }

  /**
   * A by-id path reaches one of the fixed endpoints exactly when the id's
   * text is that endpoint's last segment, so `"summary"` or `"page"` given as
   * an id aliases the fixed endpoint; no id gives `/api/categories` itself.
   */
  lemma CategoryPathAliases(categoryId: JsValue)
    ensures CategoryPath(categoryId) == SummaryPath <==> Stringify(categoryId) == "summary"
    ensures CategoryPath(categoryId) == SubCategoriesPath <==> Stringify(categoryId) == "sub-categories"
    ensures CategoryPath(categoryId) == PagePath <==> Stringify(categoryId) == "page"
    ensures CategoryPath(categoryId) == MainPath <==> Stringify(categoryId) == "main"
    ensures CategoryPath(categoryId) != CategoriesPath
  {
    var prefix := CategoriesPath + "/";
    var t := Stringify(categoryId);
    assert SummaryPath == prefix + "summary";
    assert SubCategoriesPath == prefix + "sub-categories";
    assert PagePath == prefix + "page";
    assert MainPath == prefix + "main";
    assert CategoryPath(categoryId) == prefix + t;
    SamePrefix(prefix, t, "summary");
    SamePrefix(prefix, t, "sub-categories");
    SamePrefix(prefix, t, "page");
    SamePrefix(prefix, t, "main");
    assert |CategoryPath(categoryId)| > |CategoriesPath|;
  }

  /** Two strings after a common prefix are equal exactly when the rests are. */
  lemma SamePrefix(prefix: string, a: string, b: string)
    ensures prefix + a == prefix + b <==> a == b
  {
    if prefix + a == prefix + b {
      assert a == (prefix + a)[|prefix|..];
    }
  }

  /** A numeric id never reaches a fixed endpoint: its text starts with a digit or `-`. */
  lemma NumericIdsMissFixedEndpoints(n: int)
    ensures CategoryPath(Num(n)) != SummaryPath && CategoryPath(Num(n)) != SubCategoriesPath
    ensures CategoryPath(Num(n)) != PagePath && CategoryPath(Num(n)) != MainPath
  {
    CategoryPathAliases(Num(n));
    var t := Stringify(Num(n));
    assert |t| > 0 && (t[0] == '-' || '0' <= t[0] <= '9');
  }

  /** The arguments of `searchCategories`; `Undefined` is a parameter not given. */
  datatype CategorySearch = CategorySearch(
    page: JsValue,
    size: JsValue,
    name: JsValue,
    parentId: JsValue,
    sortField: JsValue,
    sortDir: JsValue)

  const NoSearchParams := CategorySearch(Undefined, Undefined, Undefined, Undefined, Undefined, Undefined)

  /**
   * What the paged category search sends: each given parameter under its own
   * name with its value untouched, and nothing else.
   */
  ghost predicate CategoryQuery(p: CategorySearch, query: map<string, JsValue>)
  {
    && query.Keys <= {"page", "size", "name", "parentId", "sortField", "sortDir"}
    && Copied(query, "page", p.page)
    && Copied(query, "size", p.size)
    && Copied(query, "name", p.name)
    && Copied(query, "parentId", p.parentId)
    && Copied(query, "sortField", p.sortField)
    && Copied(query, "sortDir", p.sortDir)
  }

  /** The query-building part of `searchCategories`, one conditional assignment per parameter. */
  method BuildCategoryQuery(p: CategorySearch) returns (query: map<string, JsValue>)
    ensures CategoryQuery(p, query)
    ensures p == NoSearchParams ==> query == map[]
  {
    query := map[];
    if p.page != Undefined { query := query["page" := p.page]; }
    if p.size != Undefined { query := query["size" := p.size]; }
    if p.name != Undefined { query := query["name" := p.name]; }
    if p.parentId != Undefined { query := query["parentId" := p.parentId]; }
    if p.sortField != Undefined { query := query["sortField" := p.sortField]; }
    if p.sortDir != Undefined { query := query["sortDir" := p.sortDir]; }
  }

  /** `searchCategories`: build the query, then request the paged endpoint with it. */
  method SearchCategories(session: Session, p: CategorySearch, responseAlias: string := "categoriesPageResponse")
    returns (r: Result<HttpRequest, ClientError>)
    ensures r.Success? <==> Ready(session)
    ensures r.Failure? ==> r.error == SessionError(session, TokenError)
    ensures r.Success? ==> r.value.qs.Some? && CategoryQuery(p, r.value.qs.value)
    ensures r.Success? ==> Sends(r.value, session, GET, PagePath, Undefined, r.value.qs, responseAlias)
  {
    var query := BuildCategoryQuery(p);
    FixedPathRequest(session, GET, PagePath, Undefined, Some(query), responseAlias, TokenError);
    r := CategoryRequest(session, Call(GET, PagePath, Undefined, Some(query), responseAlias));
  }
}
