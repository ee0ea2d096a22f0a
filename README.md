# REST helpers of the plant-nursery end-to-end suite, modelled in Dafny

The suite drives a plant-nursery web application (categories, plants, sales)
through three REST helper modules, `cypress/support/api/plants.js`,
`category.js` and `sales.js`. This project models the logic those helpers own:

- **Request construction.** `ensureBaseUrl` (the configured base URL with one
  trailing `/` removed, or an error when it is missing), `normalizePath` (a
  leading `/` forced, an empty path refused), the `xxxRequest` wrappers that
  join base and path and attach `Authorization: Bearer <token>` under the
  caller's headers, the argument guards of every exported helper (`!id && id
  !== 0` accepts id 0; `!payload` and `!payload.categoryId` refuse every falsy
  value), the fixed endpoint paths, and the query objects built by
  `searchPlants` and `searchCategories`.
- **Response validators** of `sales.js`: a non-empty sales list, sales newest
  first, sales in alphabetical order of lower-cased plant name, and the
  `unknownField` error response.

The three helper files each carry an identical copy of `ensureBaseUrl`,
`normalizePath` and the request wrapper (plants.js:4-51, category.js:4-51,
sales.js:4-48); they differ only in the missing-token message and the default
alias. The model defines that logic once in module `Client`, and the modules
`Plants`, `Category` and `Sales` pass their own message and aliases. The table
cites the plants copy for the shared members.

The test framework is an input, not modelled: a `Session` holds the
`BASE_URL` setting and the token stored under `@authToken`, and each helper
returns either the request record it would hand to `cy.request` (method, URL,
body, query, headers, alias, `failOnStatusCode`) or the error it throws first.
The order of those errors follows the code: argument guards, then the base
URL, then the path, then the token. JavaScript values are the `JsValue`
datatype, with truthiness and template-literal conversion written out.

Modules: `Wrappers` (Option, Result), `JsValues`, `Text` (lower-casing,
lexicographic order, substring search), `Client`, `Plants`, `Category`,
`Sales`.

The query builders are methods that fill a local map one conditional
assignment at a time, as the source does; they are proved against the
predicates `PlantQuery` and `CategoryQuery`, which describe the query key by
key. The two ordering validators are loop methods over adjacent pairs, proved
against adjacent-pair predicates; lemmas show that adjacent order is the same
as order of the whole sequence.

Two details of the code worth noting: `sellPlant` posts its payload as the
request body and adds no query string (sales.js:57), and
`validateSalesErrorResponse` checks status 500 and the case-sensitive text
`unknownField` in the message (sales.js:114-116).

## Model

| member | source | states |
|---|---|---|
| `Client.EnsureBaseUrl` | cypress/support/api/plants.js:1-10 | fails with the BASE_URL error (carrying the `BASE_URL_ERROR` text) exactly when the base URL is absent or empty; otherwise the result is the base itself or the base minus its final `/`, and it equals the base exactly when the base does not end in `/` |
| `Client.EnsureBaseUrlStripsOneSlash` | cypress/support/api/plants.js:9 | a base ending in `//` keeps one `/`: at most one trailing slash is removed |
| `Client.NormalizePath` | cypress/support/api/plants.js:12-17 | fails exactly on an absent or empty path, with the relative-path error text; otherwise the result starts with `/`, is the path or `/` followed by the path, and is the path unchanged exactly when the path already starts with `/` |
| `Client.NormalizePathIdempotent` | cypress/support/api/plants.js:16 | normalising a normalised path returns it unchanged |
| `Client.AuthHeaders` | cypress/support/api/plants.js:43-46 | the headers are the caller's plus `Authorization`; every caller header keeps its value, so a caller's `Authorization` overrides the bearer token, which is `Bearer <token>` otherwise |
| `Client.Request` | cypress/support/api/plants.js:19-51 | a missing base URL, then a missing path, then a missing token is the error, always before any request; success exactly when all three are present; the URL is the trimmed base followed by the normalised path; method, body, query, alias and `failOnStatusCode` pass through |
| `Client.FixedPathRequest` | cypress/support/api/plants.js:28-29 | for a path already starting with `/`, the request succeeds exactly when the session has base URL and token, fails with the session's error otherwise, and targets base + path with only the bearer header and `failOnStatusCode` false |
| `JsValues.IdGiven` | cypress/support/api/plants.js:58 | the id guard accepts every number (0 included), non-empty strings, `true` and objects, and refuses `undefined`, `null`, `NaN`, `false` and `""` |
| `JsValues.Field` | cypress/support/api/plants.js:85 | reading a property gives a defined value only from an object holding that key |
| `JsValues.Stringify` | cypress/support/api/plants.js:61 | a number interpolated into a path becomes non-empty text starting with a digit or `-` that reads back as the number; a string is interpolated unchanged |
| `JsValues.NatDecimalRoundTrip` | cypress/support/api/plants.js:61 | the decimal text of a natural number reads back as that number |
| `JsValues.IntDecimalRoundTrip` | cypress/support/api/plants.js:61 | the text an integer id takes in a template literal reads back as that id |
| `JsValues.NumericIdsStayDistinct` | cypress/support/api/plants.js:61 | different numeric ids give different path segments |
| `Text.ToLowerSpec` | cypress/support/api/plants.js:110 | lower-casing leaves no upper-case letter, keeps every other character and maps each upper-case letter to its lower-case form |
| `Text.LowerCaseIsFixed` | cypress/support/api/plants.js:110 | lower-casing text with no upper-case letter leaves it unchanged |
| `Text.ToLowerIdempotent` | cypress/support/api/plants.js:110 | lower-casing twice is lower-casing once |
| `Text.LexLeReflexive` | cypress/support/api/sales.js:107 | every name compares at most equal to itself |
| `Text.LexLeTransitive` | cypress/support/api/sales.js:107 | the name order is transitive |
| `Text.LexLeTotal` | cypress/support/api/sales.js:107 | any two names are ordered one way or the other |
| `Text.LexLeAntisymmetric` | cypress/support/api/sales.js:107 | two names ordered both ways are equal |
| `Text.LexLeEmpty` | cypress/support/api/sales.js:105-107 | only the empty name sorts at or before the empty name |
| `Text.IncludesFindsOccurrence` | cypress/support/api/sales.js:116 | when the substring search succeeds, the needle occurs at some index |
| `Text.OccurrenceIsIncluded` | cypress/support/api/sales.js:116 | an occurrence at any index makes the search succeed |
| `Text.IncludesIffOccurs` | cypress/support/api/sales.js:116 | the search succeeds exactly when the needle occurs somewhere |
| `Plants.PlantRequest` | cypress/support/api/plants.js:19-51 | the plant wrapper succeeds exactly when base, path and token are present, and a missing token raises the plant-specific message |
| `Plants.GetAllPlants` | cypress/support/api/plants.js:53-55 | succeeds exactly when the session is ready and then sends GET to base + `/api/plants` under the given alias |
| `Plants.GetPlantById` | cypress/support/api/plants.js:57-62 | a missing id is refused before anything else, id 0 is accepted; succeeds exactly when the id passes and the session is ready, sending GET to `/api/plants/{id}` |
| `Plants.UpdatePlant` | cypress/support/api/plants.js:64-72 | refuses a missing id, then a falsy payload; succeeds exactly when both pass and the session is ready, sending PUT with the payload to `/api/plants/{id}` |
| `Plants.DeletePlant` | cypress/support/api/plants.js:74-79 | refuses a missing id (0 accepted); otherwise sends DELETE to `/api/plants/{id}` when the session is ready |
| `Plants.CreatePlant` | cypress/support/api/plants.js:81-89 | refuses a falsy payload, then a falsy `payload.categoryId` (0 included); past both guards, an unready session fails with the BASE_URL error before the plant token error; on success the payload is an object with that key and the request POSTs it to `/api/plants/category/{categoryId}` |
| `Plants.GetPlantsByCategory` | cypress/support/api/plants.js:124-132 | refuses every falsy category id, 0 included; past the guard, an unready session fails with the BASE_URL error before the plant token error; otherwise GETs `/api/plants/category/{categoryId}` |
| `Plants.ZeroIdAcceptedOnlyAsPlantId` | cypress/support/api/plants.js:57-132 | with a ready session, id 0 is accepted by lookup, update and deletion but refused as a category id by creation and by listing a category's plants |
| `Plants.Direction` | cypress/support/api/plants.js:110-114 | a falsy direction defaults to `asc`; a string is lower-cased; any other truthy value fails with `<param>.toLowerCase is not a function`, naming the parameter used (`order` or `sortDir`); a successful direction has no upper-case letter |
| `Plants.PlantQueryUnique` | cypress/support/api/plants.js:102-115 | the key-by-key description of the search query fixes the query: any two maps meeting it are equal |
| `Plants.BuildPlantQuery` | cypress/support/api/plants.js:102-115 | holds exactly the given parameters, `category` stored under `categoryId` and never under `category`; a `sort` key exactly when `sortBy` or `sortField` is given, valued `field,dir` with `sortBy/order` winning; fails only when the direction used has no `toLowerCase`; no parameters give an empty query |
| `Plants.SearchPlants` | cypress/support/api/plants.js:91-122 | a bad direction fails before the session is consulted; otherwise an unready session fails with the BASE_URL error before the plant token error, and the search succeeds exactly when the session is ready and GETs `/api/plants/paged` with a query meeting the description above |
| `Category.CategoryRequest` | cypress/support/api/category.js:19-51 | the category wrapper succeeds exactly when base, path and token are present, and a missing token raises the category-specific message |
| `Category.GetAllCategories` | cypress/support/api/category.js:53-55 | succeeds exactly when the session is ready and GETs `/api/categories` |
| `Category.GetCategoryById` | cypress/support/api/category.js:57-62 | refuses a missing id (0 accepted) before anything else; otherwise GETs `/api/categories/{id}` when the session is ready |
| `Category.UpdateCategory` | cypress/support/api/category.js:64-72 | refuses a missing id, then a falsy payload; otherwise PUTs the payload to `/api/categories/{id}` |
| `Category.DeleteCategory` | cypress/support/api/category.js:74-79 | refuses a missing id (0 accepted); otherwise sends DELETE to `/api/categories/{id}` |
| `Category.CreateCategory` | cypress/support/api/category.js:81-86 | refuses a falsy payload; otherwise POSTs it to `/api/categories` |
| `Category.GetCategorySummary` | cypress/support/api/category.js:88-90 | GETs `/api/categories/summary` exactly when the session is ready |
| `Category.GetAllSubCategories` | cypress/support/api/category.js:92-94 | GETs `/api/categories/sub-categories` exactly when the session is ready |
| `Category.GetMainCategories` | cypress/support/api/category.js:120-122 | GETs `/api/categories/main` exactly when the session is ready |
| `Category.CategoryPathAliases` | cypress/support/api/category.js:57-122 | a by-id path equals the summary, sub-categories, page or main endpoint exactly when the id's text is that endpoint's last segment, and never equals `/api/categories` itself |
| `Category.NumericIdsMissFixedEndpoints` | cypress/support/api/category.js:57-122 | a numeric category id never reaches the summary, sub-categories, page or main endpoint |
| `Category.BuildCategoryQuery` | cypress/support/api/category.js:105-111 | each of page, size, name, parentId, sortField, sortDir appears under its own name exactly when given, with its value unchanged, and no other key appears; no parameters give an empty query |
| `Category.SearchCategories` | cypress/support/api/category.js:96-118 | succeeds exactly when the session is ready and GETs `/api/categories/page` with a query meeting the description above |
| `Sales.SalesRequest` | cypress/support/api/sales.js:19-48 | the sales wrapper succeeds exactly when base, path and token are present, and a missing token raises the sales-specific message |
| `Sales.SellPlant` | cypress/support/api/sales.js:50-58 | refuses a missing plant id (0 accepted), then a falsy payload; otherwise POSTs the payload to `/api/sales/plant/{plantId}` |
| `Sales.SellPathsDistinct` | cypress/support/api/sales.js:57 | sales of different numeric plant ids go to different paths |
| `Sales.GetAllSales` | cypress/support/api/sales.js:60-62 | GETs `/api/sales` exactly when the session is ready |
| `Sales.GetSaleById` | cypress/support/api/sales.js:64-69 | refuses a missing sale id (0 accepted); otherwise GETs `/api/sales/{id}` |
| `Sales.DeleteSale` | cypress/support/api/sales.js:71-76 | refuses a missing sale id (0 accepted); otherwise sends DELETE to `/api/sales/{id}` |
| `Sales.GetSalesPage` | cypress/support/api/sales.js:78-80 | GETs `/api/sales/page` with the caller's query passed through unchanged |
| `Sales.ValidateSalesResponse` | cypress/support/api/sales.js:82-86 | passes exactly when the content is an array of at least one sale, returning the response unchanged; a non-array fails as such, an empty array as empty |
| `Sales.DateChain` | cypress/support/api/sales.js:91-96 | adjacent newest-first order puts every earlier sale at or after every later one |
| `Sales.AdjacentDatesSuffice` | cypress/support/api/sales.js:91 | adjacent-pair date order holds exactly when the whole sequence is newest first |
| `Sales.ValidateSalesSortedByDate` | cypress/support/api/sales.js:88-98 | on an array, passes exactly when every adjacent pair is newest first (so always for 0 or 1 sales) and returns the response unchanged; on failure names the first violating index; unreadable content fails, content without a length passes |
| `Sales.EmptyKeyIffUnnamed` | cypress/support/api/sales.js:105-106 | a sale's comparison key is empty exactly when it has no plant name |
| `Sales.NameChain` | cypress/support/api/sales.js:103-109 | adjacent name order puts every earlier sale at or before every later one |
| `Sales.AdjacentNamesSuffice` | cypress/support/api/sales.js:103 | adjacent-pair name order holds exactly when the whole sequence is in name order |
| `Sales.UnnamedSalesComeFirst` | cypress/support/api/sales.js:105-108 | in name order, every sale before an unnamed sale is unnamed too |
| `Sales.FirstNameBreak` | cypress/support/api/sales.js:104-109 | finds no break exactly when every adjacent pair of lower-cased names is in order; a break it reports is out of order and every pair before it is in order |
| `Sales.ValidateSalesSortedByPlantName` | cypress/support/api/sales.js:100-111 | on an array, passes exactly when every adjacent pair of lower-cased names is in order (so always for 0 or 1 sales) and returns the response unchanged; on failure names the first violating index |
| `Sales.ValidateSalesErrorResponse` | cypress/support/api/sales.js:113-118 | passes exactly when the status is 500 and a message exists containing `unknownField`, returning the response unchanged; a wrong status is reported first, then a missing message |

## Left out

- Issuing the request, storing it under its alias, `Cypress.env` and `cy.get("@authToken")` belong to the test framework: the base URL and token are inputs and the request record is the output.
- `cy.get("@authToken")` on an alias never set fails with the framework's own error rather than the helper's message; the model reports both as the missing-token error.
- `Client.EnsureBaseUrl`: takes an optional string, so a truthy non-string BASE_URL (whose `replace` call would throw) is not modelled.
- JsValues.Stringify: writes every integer in plain decimal, which matches JavaScript only for safe integers (|n| < 2^53); larger numbers are not exact in JavaScript, and from 10^21 up a template literal writes exponent notation (`1e+21`).
- JavaScript numbers are integers here: fractions, `-0`, `Infinity` and their text forms are not modelled; arrays and other values without a case in `JsValue` are left out of the argument guards and template literals.
- `Text.ToLower`: lower-cases ASCII letters only, where `toLowerCase` covers all of Unicode.
- `Sales.ValidateSalesSortedByPlantName`: compares lower-cased names by code point, where `localeCompare` uses the locale's collation (which orders punctuation and accented letters differently).
- `Sales.ValidateSalesSortedByDate`: `soldAt` is an integer timestamp; parsing dates (and the failing comparison an unparsable date gives) is not modelled.
- The validators' content cannot be a string, a plant name cannot be a non-string, and the error message cannot be a non-string; the assertion library's message texts are reduced to the `CheckFailure` kind.
- `validateSalesSortedByQuantity`, `validateSalesSortedByTotalPrice` and `validateSalesNotFoundResponse` are imported by the sales steps but defined nowhere in `sales.js`, so they are not modelled.
- Step definitions, page objects, the SQL seeding and backup scripts and the Cypress configuration are browser, database and file-system plumbing outside these helpers. The fixture backup/restore choreography and dependency-aware deletion are not in the helper files and are not part of this model.
