# CMS dashboard list core, modelled in Dafny

This project models the logic of an e-commerce back-office dashboard's front end, apart from its rendering. It covers:

- **Collaborators list** (`useCollaborators`). A fixed list of ten collaborators is searched case-insensitively on name or code and filtered by exact rank. The result is counted and cut into one page. `totalPages` is `ceil(total / pageSize)`. The hook keeps `page`, `pageSize` and `filter` as state. A change of `filter` triggers an effect that sets `page` back to 1. The effect also runs on mount, so after mounting the page is 1 whatever `initialPage` was.
- **Mock products endpoint** (`getProducts`). Eleven fixed products are searched on name or code and filtered by status, where `'all'` means no filter. A missing or zero page becomes 1 and a missing or zero page size becomes 10, then the list is sliced.
- **Products hook** (`useProducts`). The fetched product list is searched on the name only and bounded by inclusive min/max prices, then counted and sliced on the client. In this hook only `setSearch` and `resetFilter` reset the page.
- **Authentication store.** Login and registration are two-phase transitions over `user`, `token`, `isAuthenticated` and `loading`. Logout always clears the session.
- **UI preferences store.** Sidebar state, theme and language.
- **Error and response normalisers** (`handleApiError`, the service `handleApi`) and the request configuration built by `callApi`.

Modelling choices:

- Each core file is one module: `Collaborators`, `ProductsApi`, `ProductsHook`, `AuthStore`, `UiStore`, `ErrorHandler`, `ServiceHandleApi` and `CallApi`.
- Three shared modules hold the building blocks. `Wrappers` has `Option`. `Text` has lower-casing and `includes`. `Lists` has `filter`, ECMAScript `slice`, ceiling division and page windows.
- JavaScript's `slice` is modelled with its full index normalisation: a negative index counts from the end, and every index is clamped to the length. So a page number below 1 needs no precondition; the model keeps JavaScript's result for it.
- Only `pageSize > 0` is required, and only where `Math.ceil(total / pageSize)` is computed, because a zero divisor gives `Infinity`/`NaN` in JavaScript.
- The seed lists are constants (`MockCollaborators`, `MockProducts`). The fetch functions take the list as a parameter, so their contracts hold for any list. The scenario lemmas apply them to the constants.
- Dafny values are immutable, so "the seed is copied, not mutated" holds by construction.
- State that the source updates in place (the React hook state and the two zustand stores) is a `class` whose methods state the whole new state.
- The products endpoint's record type is taken from its mock literals: id, code, name, image, category, price, stock and status. The `Product` type imported by that file declares different fields.

## Model

| member | source | states |
|---|---|---|
| Text.ToLower | src/features/collaborators/hooks/useCollaborators.ts:182-185 | lower-casing keeps the length and maps each character on its own (ASCII letters only) |
| Text.ToLowerIdempotent | src/features/products/api/products.api.ts:123-127 | a lower-cased string has no upper-case letter, and lower-casing it again changes nothing |
| Text.Contains | src/features/collaborators/hooks/useCollaborators.ts:184-185 | `includes` is true exactly when the text occurs at some index |
| Text.ContainsEmpty | src/features/collaborators/hooks/useCollaborators.ts:181-185 | every string includes the empty string |
| Text.LowerKeepsOccurrence | src/features/products/api/products.api.ts:123-127 | an occurrence survives lower-casing both sides, so a match is found whatever the case |
| Lists.Filter | src/features/collaborators/hooks/useCollaborators.ts:183-186 | `filter` returns no more elements than its input, and all of them satisfy the predicate |
| Lists.FilterComplete | src/features/products/api/products.api.ts:124-128 | `filter` drops no element that satisfies the predicate |
| Lists.FilterSubsequence | src/features/collaborators/hooks/useCollaborators.ts:179-191 | what `filter` returns is an order-preserving subsequence of its input |
| Lists.FilterFusion | src/features/products/hooks/useProducts.ts:68-85 | two `filter` calls in a row equal one filter by the conjunction |
| Lists.SubsequenceTrans | src/features/collaborators/hooks/useCollaborators.ts:179-195 | filtering and then slicing still gives a subsequence of the seed |
| Lists.ClampIndex | src/features/collaborators/hooks/useCollaborators.ts:195 | the relative index of `slice`: a negative index counts from the end, and the result is clamped to `0..length` |
| Lists.JsSlice | src/features/products/api/products.api.ts:141 | `slice(start, end)` holds the elements from the normalised start up to the normalised end, position by position, and nothing when the end does not lie past the start |
| Lists.JsSliceProperties | src/features/collaborators/hooks/useCollaborators.ts:194-195 | `slice` keeps order, returns at most `end - start` elements, and for a non-negative start is the window from `start` |
| Lists.CeilDiv | src/features/collaborators/hooks/useCollaborators.ts:202 | result is the least `n` with `n * pageSize >= total`, and it is 0 exactly when total is 0 |
| Lists.PageWindow | src/features/collaborators/hooks/useCollaborators.ts:193-195 | a page holds at most `pageSize` items; from page 1 on it is exactly the items from `(page-1)*pageSize` on, and it keeps order |
| Lists.PastLastPageEmpty | src/features/collaborators/hooks/useCollaborators.ts:193-202 | a page past `ceil(total / pageSize)` is empty |
| Collaborators.ApplyFilter | src/features/collaborators/hooks/useCollaborators.ts:179-191 | the search and rank filters keep, in order, exactly the items that pass every active condition |
| Collaborators.ActiveSearch | src/features/collaborators/hooks/useCollaborators.ts:181 | a search is in effect exactly when the filter has a non-empty search text, and it is that text |
| Collaborators.ActiveRank | src/features/collaborators/hooks/useCollaborators.ts:189 | a rank is in effect exactly when the filter has one, and it is that rank |
| Collaborators.SearchStep | src/features/collaborators/hooks/useCollaborators.ts:181-187 | the search step keeps exactly the items that pass the search condition, in order; with no search it keeps all |
| Collaborators.RankStep | src/features/collaborators/hooks/useCollaborators.ts:189-191 | the rank step keeps exactly the items that pass the rank condition, in order; with no rank it keeps all |
| Collaborators.NoConditionKeepsAll | src/features/collaborators/hooks/useCollaborators.ts:181-191 | no filter, an empty search and no rank keep the seed unchanged |
| Collaborators.EmptySearchMatchesAll | src/features/collaborators/hooks/useCollaborators.ts:181-185 | an empty text occurs in every name, so skipping the search for `''` gives the same list that searching for it would |
| Collaborators.MockCollaboratorsShape | src/features/collaborators/hooks/useCollaborators.ts:43-174 | the seed holds ten collaborators with distinct ids and codes, of ranks Gold, Silver, Bronze, Bronze, Silver, Gold, Silver, Bronze, Silver, Bronze |
| Collaborators.SearchIgnoresCase | src/features/collaborators/hooks/useCollaborators.ts:182-185 | searching for a text or for its lower-case form is the same |
| Collaborators.RankOnlyFilter | src/features/collaborators/hooks/useCollaborators.ts:189-191 | with no search, the result is the items of exactly the requested rank |
| Collaborators.FetchCollaborators | src/features/collaborators/hooks/useCollaborators.ts:176-204 | total is the filtered count before slicing; the page has at most `pageSize` items, all passing the filter, in seed order and at their window positions; page and pageSize are echoed; totalPages is the ceiling; a page past the end is empty |
| Collaborators.FirstPageIsWholeList | src/features/collaborators/hooks/useCollaborators.ts:193-195 | when the filtered list fits on page 1, page 1 is the whole list |
| Collaborators.ViewOf | src/features/collaborators/hooks/useCollaborators.ts:256-259 | before any data the hook reports no items, total 0 and 0 pages; afterwards the fetched fields |
| Collaborators.ViewConsistent | src/features/collaborators/hooks/useCollaborators.ts:197-203 | whether or not data has arrived, at most a page of matching items is shown and 0 pages is reported exactly for total 0 |
| Collaborators.CollaboratorsHook.constructor | src/features/collaborators/hooks/useCollaborators.ts:206-219 | missing options become filter `{}`, page 1 and page size 10; the page-reset effect is due on mount |
| Collaborators.CollaboratorsHook.View | src/features/collaborators/hooks/useCollaborators.ts:221-237 | for the current state, before or after the query answers, the hook shows at most a page of seed collaborators in order, all passing the current filter, the filtered total, and 0 pages exactly for total 0; page 1 is the whole list when it fits |
| Collaborators.CollaboratorsHook.RunResetEffect | src/features/collaborators/hooks/useCollaborators.ts:239-241 | after a filter change the page goes to 1; without one nothing changes |
| Collaborators.CollaboratorsHook.SetPage | src/features/collaborators/hooks/useCollaborators.ts:217 | sets the page only |
| Collaborators.CollaboratorsHook.SetPageSize | src/features/collaborators/hooks/useCollaborators.ts:218 | sets the page size only |
| Collaborators.CollaboratorsHook.SetFilter | src/features/collaborators/hooks/useCollaborators.ts:219 | replaces the filter and makes the page reset due |
| Collaborators.CollaboratorsHook.SetSearch | src/features/collaborators/hooks/useCollaborators.ts:243-245 | an empty text is stored as no search; the rank is kept; the page reset is due |
| Collaborators.CollaboratorsHook.SetRank | src/features/collaborators/hooks/useCollaborators.ts:247-249 | sets the rank and keeps the search; the page reset is due |
| Collaborators.CollaboratorsHook.ResetFilter | src/features/collaborators/hooks/useCollaborators.ts:251-254 | filter `{}` and page 1; page size unchanged |
| Collaborators.SearchResetsPage | src/features/collaborators/hooks/useCollaborators.ts:239-249 | mounting on page 3, moving to page 3, setting a rank and a search and letting the effect run ends on page 1 with both conditions kept |
| Collaborators.GoldOnSeed | src/features/collaborators/hooks/useCollaborators.ts:43-174 | filtering the seed by rank GOLD keeps collaborators 1 and 6, in that order |
| Collaborators.SilverOnSeed | src/features/collaborators/hooks/useCollaborators.ts:43-174 | the seed holds four SILVER collaborators |
| Collaborators.BronzeOnSeed | src/features/collaborators/hooks/useCollaborators.ts:43-174 | the seed holds four BRONZE collaborators |
| Collaborators.GoldRankScenario | src/features/collaborators/hooks/useCollaborators.ts:43-174 | rank GOLD gives total 2, one page, collaborators 1 and 6 |
| Collaborators.SilverRankScenario | src/features/collaborators/hooks/useCollaborators.ts:189-191 | rank SILVER gives total 4 |
| Collaborators.BronzeRankScenario | src/features/collaborators/hooks/useCollaborators.ts:189-193 | rank BRONZE gives total 4 |
| ProductsApi.ApplyFilters | src/features/products/api/products.api.ts:120-135 | the search (name or code) and status filters keep, in order, exactly the products that pass every active condition |
| ProductsApi.ActiveSearch | src/features/products/api/products.api.ts:122 | a search is in effect exactly when the search text is non-empty, and it is that text |
| ProductsApi.ActiveStatus | src/features/products/api/products.api.ts:131 | a status filter is in effect exactly when the status is neither empty nor `'all'`, and it is that status |
| ProductsApi.SearchStep | src/features/products/api/products.api.ts:122-129 | the search step keeps exactly the products that pass the search condition, in order |
| ProductsApi.StatusStep | src/features/products/api/products.api.ts:131-135 | the status step keeps exactly the products that pass the status condition, in order |
| ProductsApi.MockProductsShape | src/features/products/api/products.api.ts:4-115 | the seed holds eleven products with distinct ids; each is out of stock exactly when its stock is 0, and is in stock otherwise |
| ProductsApi.EffectivePage | src/features/products/api/products.api.ts:137 | a missing or 0 page becomes 1, and any other page is kept |
| ProductsApi.EffectivePageSize | src/features/products/api/products.api.ts:138 | a missing or 0 page size becomes 10, and any other size is kept |
| ProductsApi.GetProducts | src/features/products/api/products.api.ts:117-149 | total is the filtered count before slicing; the defaulted page and size are returned; the page has at most `pageSize` products, all passing the filter, in order and at their window positions; a page past the end is empty |
| ProductsApi.PageOfFiltered | src/features/products/api/products.api.ts:139-141 | any page of the filtered list comes from the seed in order, passes the filter, and is empty past the last page |
| ProductsApi.NoConditionKeepsAll | src/features/products/api/products.api.ts:122-135 | no search and no status, or status `'all'`, keep every product |
| ProductsApi.StatusOnlyFilter | src/features/products/api/products.api.ts:131-135 | with a status alone, exactly the products of that status are kept |
| ProductsApi.SecondPageScenario | src/features/products/api/products.api.ts:105-115 | no filters, page 2 of size 10: total 11 and only product 11 |
| ProductsApi.AllStatusDefaultsScenario | src/features/products/api/products.api.ts:131-141 | empty search, status `'all'`, page 0 and size 0: total 11, page 1, size 10, ten products starting at product 1 |
| ProductsApi.OutOfStockScenario | src/features/products/api/products.api.ts:4-115 | status `'out-of-stock'` gives total 6 |
| ProductsApi.InStockScenario | src/features/products/api/products.api.ts:131-135 | status `'in-stock'` gives total 5 |
| ProductsApi.OutOfStockOnSeed | src/features/products/api/products.api.ts:4-115 | six seed products are out of stock |
| ProductsApi.InStockOnSeed | src/features/products/api/products.api.ts:4-115 | five seed products are in stock |
| ProductsApi.OrganicNameMatches | src/features/products/api/products.api.ts:122-128 | any product named like product 3 matches the search "ORGANIC", whatever its other fields |
| ProductsApi.CaseInsensitiveSearchScenario | src/features/products/api/products.api.ts:122-129 | the text "ORGANIC" matches product 3, whose name has "Organic" |
| ProductsHook.FilteredProducts | src/features/products/hooks/useProducts.ts:68-85 | the name search and the inclusive price bounds keep, in order, exactly the products that pass every active condition |
| ProductsHook.ActiveSearch | src/features/products/hooks/useProducts.ts:71 | a search is in effect exactly when the search text is non-empty, and it is that text |
| ProductsHook.SearchStep | src/features/products/hooks/useProducts.ts:71-74 | the search step keeps exactly the products whose lower-cased name includes the lower-cased text, in order |
| ProductsHook.MinStep | src/features/products/hooks/useProducts.ts:76-78 | with a lower bound, exactly the products priced at or above it are kept, in order; without one, all |
| ProductsHook.MaxStep | src/features/products/hooks/useProducts.ts:80-82 | with an upper bound, exactly the products priced at or below it are kept, in order; without one, all |
| ProductsHook.Project | src/features/products/hooks/useProducts.ts:87-89 | total is the filtered count; `slice((page-1)*pageSize, page*pageSize)` shows at most `pageSize` matching products in order; totalPages is the ceiling; with no data everything is empty or 0 |
| ProductsHook.SearchIgnoresOtherFields | src/features/products/hooks/useProducts.ts:68-85 | the whole filter reads only the name and the price: products that agree on both are kept or dropped together |
| ProductsHook.SearchNameOnly | src/features/products/hooks/useProducts.ts:71-74 | the search condition reads the name alone: products with the same name pass or fail it together, whatever their prices |
| ProductsHook.BoundsInclusive | src/features/products/hooks/useProducts.ts:76-82 | a price equal to a bound passes it; a bound of 0 is applied |
| ProductsHook.ProductsHookState.constructor | src/features/products/hooks/useProducts.ts:40-53 | missing options become filter `{}`, page 1 and page size 10 |
| ProductsHook.ProductsHookState.View | src/features/products/hooks/useProducts.ts:101-117 | the shown products are at most a page, all passing the current filter |
| ProductsHook.ProductsHookState.SetPage | src/features/products/hooks/useProducts.ts:110 | sets the page only |
| ProductsHook.ProductsHookState.SetPageSize | src/features/products/hooks/useProducts.ts:111 | sets the page size only; the page is not reset |
| ProductsHook.ProductsHookState.SetFilter | src/features/products/hooks/useProducts.ts:113 | sets the filter only; the page is not reset |
| ProductsHook.ProductsHookState.SetSearch | src/features/products/hooks/useProducts.ts:91-94 | an empty text is stored as no search; the price bounds are kept; page 1 |
| ProductsHook.ProductsHookState.ResetFilter | src/features/products/hooks/useProducts.ts:96-99 | filter `{}` and page 1; page size unchanged |
| AuthStore.Store.constructor | src/features/auth/store/authStore.ts:26-29 | no user, no token, not authenticated, not loading |
| AuthStore.Store.BeginLogin | src/features/auth/store/authStore.ts:31-32 | loading is set before the request; the session is unchanged |
| AuthStore.Store.CompleteLogin | src/features/auth/store/authStore.ts:33-44 | success stores the answer's user and token, authenticates and stops loading; failure only stops loading and rethrows the error |
| AuthStore.Store.BeginRegister | src/features/auth/store/authStore.ts:47-48 | loading is set before the request; the session is unchanged |
| AuthStore.Store.CompleteRegister | src/features/auth/store/authStore.ts:49-60 | same outcomes as login's second phase |
| AuthStore.Store.Logout | src/features/auth/store/authStore.ts:63-75 | clears user and token and the authenticated flag whether or not the server call failed; loading is untouched |
| AuthStore.SessionLifecycle | src/features/auth/store/authStore.ts:23-75 | after a failed login, a successful one and a logout whose server call failed, the session is cleared, not loading and consistent (`isAuthenticated` exactly when user and token are held) |
| UiStore.Store.constructor | src/stores/ui.store.ts:24-26 | sidebar expanded, light theme, Vietnamese |
| UiStore.Store.ToggleSidebar | src/stores/ui.store.ts:27 | negates `sidebarCollapsed`; nothing else changes |
| UiStore.Store.SetSidebarCollapsed | src/stores/ui.store.ts:28 | sets `sidebarCollapsed`; nothing else changes |
| UiStore.Store.SetTheme | src/stores/ui.store.ts:29 | sets the theme only |
| UiStore.Store.SetLanguage | src/stores/ui.store.ts:30 | sets the language only |
| UiStore.ToggleTwiceRestores | src/stores/ui.store.ts:27-30 | toggling twice restores every preference |
| UiStore.SetCollapsedTwice | src/stores/ui.store.ts:28 | setting the sidebar state twice equals setting it once |
| ErrorHandler.OrElse | src/shared/utils/errorHandler.ts:24 | JavaScript "or" with a fallback on an optional string: a present, non-empty value is kept, and a missing or empty one gives the fallback |
| ErrorHandler.NewApiError | src/shared/utils/errorHandler.ts:10-19 | the constructed error is named `'ApiError'` and holds the given status code, message and data |
| ErrorHandler.HandleApiError | src/shared/utils/errorHandler.ts:10-28 | a `null`/`undefined` error, and only that, makes the call raise a `TypeError`; otherwise the result is an `ApiError` named `'ApiError'`: an HTTP-client error gives its status or 500, its body's message or `'Something went wrong'`, and its body; any other error gives 500 and its message or `'An unexpected error occurred'` |
| ErrorHandler.HandleApiErrorNeverBlank | src/shared/utils/errorHandler.ts:23-27 | a returned error never has status code 0 or an empty message |
| ErrorHandler.HttpClientMessageIgnored | src/shared/utils/errorHandler.ts:24 | an HTTP-client error's own message never reaches the result |
| ServiceHandleApi.FailureMessage | src/services/handleApi.ts:25 | the body's message, else the error's message, else `'An error occurred'`; never empty |
| ServiceHandleApi.FailureStatus | src/services/handleApi.ts:26 | the response status, or 500 when there is none or it is 0 |
| ServiceHandleApi.HandleApi | src/services/handleApi.ts:11-29 | success gives the data, no error and the status; a failure gives no data, the fallback message and the fallback status; a `null`/`undefined` rejection reason, and only that, makes the returned promise reject |
| ServiceHandleApi.HandleApiDistinguishesOutcomes | src/services/handleApi.ts:14-28 | whenever the wrapper resolves, there is an error exactly on failure and data exactly on success, and a failure's error is non-empty and its status non-zero |
| CallApi.BuildConfig | src/apis/handleApi.ts:10-24 | the method defaults to GET and the URL is kept; GET/DELETE put the payload in `params` and leave `data` unset; POST/PUT do the opposite |

## Left out

- Asynchrony and timing: the simulated delays before the mock fetches, and any interleaving of `await`s. Each async action is modelled as the state change it makes before and after its request.
- react-query is not modelled: caching, `staleTime`, `isLoading`/`isFetching`, retries, request de-duplication, invalidation after mutations, and stale-response handling. This is library behaviour outside this code. `ViewOf` and `Project` take "data so far" as an input.
- The product mutation hooks (`useCreateProduct`, `useUpdateProduct`, `useDeleteProduct`) and `useProductDetail` are not modelled. They only forward to the HTTP client and invalidate the cache.
- HTTP clients, interceptors and the call to the server are not modelled. This includes `authApi`, `productApi` and the `axiosClient(config)` call at the end of `callApi`. `BuildConfig` stops at the configuration, and the store methods take the request's outcome as a parameter.
- Persistence of the two stores to `localStorage` is not modelled because it is I/O. The `console.error` in `logout` is not modelled either.
- Text: `toLowerCase` is modelled on ASCII letters only, so non-ASCII letters such as Vietnamese capitals are left as they are.
- Text: case-insensitive matching therefore ignores Unicode case mapping.
- Numbers: prices and counts are integers in `ProductsApi` and reals in `ProductsHook`. Page numbers and sizes are integers. `NaN`, `Infinity` and fractional page numbers are not modelled.
- Collaborators.CollaboratorsHook.SetFilter: every call counts as a filter change. React compares the filter object by identity, so passing the very same object would not re-run the page-reset effect. Object identity is not modelled.
- Collaborators.CollaboratorsHook.ResetFilter: likewise, when the filter already is the default object, React would not re-run the effect. The model marks the effect due, which is harmless because the page is already 1.
- The `TypeError` raised for a `null` or `undefined` error is an outcome without a message or stack.
- AuthStore.Store.Logout: the server call's outcome is a parameter only. The source ignores it apart from logging it.
- The source's types say a failed request's body may be any value. `ErrorHandler` and `ServiceHandleApi` read only its optional `message`, and `ErrorHandler` carries the rest as an opaque string.
- Search scenarios that need many non-matches, such as counting the products that match "organic", are not proved.
- Proving a non-match means ruling out every position of every seed string. The general search properties and `CaseInsensitiveSearchScenario` are proved instead.
