# Blog listing paginator

A model of the listing page of a statically generated blog. The page holds
post summaries fetched from a headless content API and a cursor to the next
page of results. It starts from props built on the server by a first query.
A "load more" button, shown while the cursor is truthy, fetches the next page
and appends its posts.

Two pieces of logic are modelled:

- `Posts` (in `posts.dfy`) is the projection of a raw content-API document
  onto the page's post summary. It keeps `uid`, `first_publication_date` and
  `data.title/subtitle/author` and drops every other field. The page writes
  this projection out twice, once on the server and once in the click
  handler. Here it is one function, `Adapt`, and `AdaptAll` maps it over a
  list. Both are pure.
- `Listing` (in `listing.dfy`) is the paginator. Its state `(posts,
  nextPageUrl)` is a `PostPagination`. `LoadMore` is the transition from
  the state it is handed plus an already-parsed fetched page. The class
  `Home` holds the page's two state cells. It also holds `captured`, the
  state the load callback closed over on the first render.

The click handler is memoised with an empty dependency list. So every click
fetches the *initial* cursor and appends to the *initial* posts, whatever
the current state is. `Home.GetNextPage` models the handler as written.
`StaleRun` folds that behaviour over a series of clicks.
`Home.GetNextPageFromCurrent` and `FreshRun` model the evidently intended
behaviour, where each load starts from the current state. See "## Findings".

`Wrappers` holds the `Option` type used for the optional `uid`, the
nullable publication date and the nullable cursor.

## Model

| member | source | states |
|---|---|---|
| `Posts.Adapt` | src/pages/index.tsx:48-57 | the summary has the document's uid, publication date, title, subtitle and author unchanged |
| `Posts.AdaptDropsOtherFields` | src/pages/index.tsx:113-123 | two documents adapt to the same summary exactly when they agree on the five kept fields, so every other field is dropped |
| `Posts.AdaptIdempotent` | src/pages/index.tsx:48-57 | adapting an already-adapted post returns that post, so the two call sites compute the same function on either raw or adapted input |
| `Posts.AdaptAll` | src/pages/index.tsx:113 | mapping the projection gives exactly one summary per document |
| `Posts.AdaptAllAt` | src/pages/index.tsx:48 | element i of the mapped list is the projection of document i, so the order is preserved |
| `Posts.AdaptAllIdempotent` | src/pages/index.tsx:48 | mapping the projection over already-adapted posts returns the same list |
| `Posts.AdaptAllAppend` | src/pages/index.tsx:46-59 | the projection of a concatenation is the concatenation of the projections |
| `Listing.StaticProps` | src/pages/index.tsx:113-131 | the server props list one adapted summary per query result in query order, and carry the query's next cursor unchanged |
| `Listing.Offered` | src/pages/index.tsx:93 | the button test `nextPageUrl &&`: it is true only for a present cursor (the full truthiness is in `OfferedIsTruthiness`) |
| `Listing.OfferedIsTruthiness` | src/pages/index.tsx:93-97 | the button is offered iff the cursor is neither null nor the empty string; a present empty cursor hides it |
| `Listing.LoadMore` | src/pages/index.tsx:45-59 | one load from the state it is handed adds exactly one post per fetched document; `LoadMoreAppends` gives its full value |
| `Listing.LoadMoreAppends` | src/pages/index.tsx:44-59 | after a load the prior posts are an unchanged prefix, followed by the fetched documents adapted and in response order; the cursor becomes the page's next cursor exactly; a null next cursor hides the button |
| `Listing.LoadLastPage` | src/pages/index.tsx:45-59 | posts [A, B] with cursor "url2", loading a page [C] with no cursor gives [A, B, C], a null cursor and no button |
| `Listing.StaleRun` | src/pages/index.tsx:41-61 | clicks as written, each loading from the captured state: no clicks leave the state as it was, and after any clicks the post count is the initial count plus the last page's count; `StaleRunKeepsOnlyLastLoad` gives its value |
| `Listing.FreshRun` | src/pages/index.tsx:45-59 | clicks loading from the current state never shorten or change the posts already listed; `FreshRunAccumulates` gives its value |
| `Listing.StaleRunKeepsOnlyLastLoad` | src/pages/index.tsx:41-61 | with the captured state, any non-empty series of loads leaves exactly the initial posts plus the last page's posts and the last page's cursor: loads do not accumulate |
| `Listing.FreshRunAccumulates` | src/pages/index.tsx:45-59 | loading from the current state, the posts are the initial posts followed by every page's posts in fetch order, and the cursor is the last page's |
| `Listing.StaleClicksNeverReachThirdPage` | src/pages/index.tsx:41-61 | for pages chained by "u2" and "u3", two clicks as written list [A, B, C] with cursor "u3" still set; loading from the current state lists [A, B, C, D] with no cursor |
| `Listing.Home.constructor` | src/pages/index.tsx:36-39 | the first render's posts and cursor are the server props' results and next page, and the callback captures exactly those props |
| `Listing.Home.CanLoadMore` | src/pages/index.tsx:93 | the button is rendered iff the cursor is present and non-empty, which is exactly the `Offered` test that gates the handlers |
| `Listing.Home.GetNextPage` | src/pages/index.tsx:41-61 | the handler as written fetches the captured initial cursor, and the new state is one load from the captured initial state, not from the current one |
| `Listing.Home.GetNextPageFromCurrent` | src/pages/index.tsx:42-59 | the corrected handler fetches the current cursor, and the new state is one load from the current state |
| `Listing.ClickTwice` | src/pages/index.tsx:41-61 | two clicks as written fetch the same URL twice and end with the initial posts plus the second response's posts only, and the second response's cursor |
| `Listing.ClickRepeatedly` | src/pages/index.tsx:41-61 | any number of clicks as written, each with the button shown, all fetch the captured initial cursor; the page ends as one load of the last fetched page from the initial state, so pages never accumulate |
| `Listing.ClickTwiceFromCurrent` | src/pages/index.tsx:45-59 | two corrected clicks fetch the initial cursor, then the first page's cursor, and keep both pages' posts in order after the initial ones |

## Left out

- `fetch` and `response.json()` (src/pages/index.tsx:42-43) are network I/O and JSON parsing. The fetched page enters as an `ApiResponse` parameter. The URL the handler fetches is the handler's result.
- The content-API client and its query (src/pages/index.tsx:104-111) are a foreign library. The server props take its parsed response as a parameter. The page-size bound of 2 is the API's promise, not the page's, and is not modelled.
- React hooks, re-rendering, asynchronous scheduling and overlapping clicks before a fetch resolves are not modelled. Neither are the duplicate appends such overlapping clicks could cause. Each click is one atomic step.
- JSX markup, links, the header, icons and styles (src/pages/index.tsx:63-100) are presentation.
- Date formatting with `date-fns` in the Brazilian Portuguese locale (src/pages/index.tsx:76-82) is a library call.
- Failed fetches and malformed responses have no handling in the page, so there is no behaviour to model.
- Fields of a raw document beyond the five kept ones are modelled as string-valued maps. Their real values are arbitrary JSON, but they only matter as something the projection drops.
- The uniqueness of `uid` across accumulated pages is not enforced by the page. It depends on the content API never repeating a document, so it is not stated.
- The reading-time estimate of the post detail page: src/pages/post/[slug].tsx is not part of this model.
- A null test would still show the button for an empty-string cursor. The code at src/pages/index.tsx:93 tests truthiness, which hides it. The model follows the code (`Listing.Offered`).
- `Listing.Home.GetNextPage` and `Listing.Home.GetNextPageFromCurrent` require the button to be offered. The handler is reachable only through that button.

## Findings

| source | as written | input that shows it | evidently intended | confidence | as-written member | corrected member |
|---|---|---|---|---|---|---|
| src/pages/index.tsx:41-61 | `useCallback(..., [])` captures the first render's `posts` and `nextPageUrl`, so every click fetches the initial cursor and appends to the initial posts | props [A, B] with cursor "u2"; the page at "u2" is [C] with cursor "u3"; two clicks both fetch "u2" and end at [A, B, C] with "u3", so the page at "u3" is never listed | each click fetches the current cursor and appends to the current posts, accumulating every page in order | high; not executed | `Listing.StaleClicksNeverReachThirdPage` (with `Listing.Home.GetNextPage`, `Listing.StaleRunKeepsOnlyLastLoad`, `Listing.ClickRepeatedly`) | `Listing.Home.GetNextPageFromCurrent` (with `Listing.FreshRunAccumulates`, `Listing.ClickTwiceFromCurrent`) |
