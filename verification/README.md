# Sheets dashboard: client-side state, modelled in Dafny

This project models the browser-side state handling of a dashboard that lists
the Google spreadsheets of a signed-in account, previews them, and drills into
their inner sheets (tabs). Four React components hold that state:

- **Dashboard** (`client/src/App.jsx`) is the paginated listing. Its state is
  `loading`, `sheets`, `query`, `page`, `pageSize` and `total`. Events: typing a
  query, the `[query, pageSize]` and `[page]` effects, Prev/Next, "Refresh all",
  refreshing one preview, and a listing request settling. Module `Listing`.
- **SheetCard** (same file) is one tile. It has an expander that requests the
  spreadsheet's tabs each time it opens. It also builds the owners line and the
  "Open" / "Open tab" links. Module `Card`.
- **SheetDetail** (`client/src/SheetDetail.jsx`) is the detail page. It has a
  load state machine (`loading`, `error`, `tabs`), a case-insensitive title
  search, and a fixed order of precedence for what it shows. Module `Detail`.
- **ClientConfig** (`client/src/ClientConfig.jsx`) is the OAuth client form.
  Its `save` builds the payload, trimming the optional redirect URI, and its
  `load` applies the stored configuration. Module `Setup`.

Shared pieces:
- `Domain` holds the response shapes, the `Response` of an awaited request
  (a body or a failure), and the `Call`s sent to the server.
- `Text` holds the JavaScript string operations used: `trim`, `toLowerCase`,
  `includes`, `join`, and number-to-string.
- `Links` holds the Google Sheets link templates, each with a decoder proved
  to invert it.

Each component is modelled the same way:
- a value record of its state;
- pure transition functions, which are the specification;
- a class with the component's `useState` fields as mutable fields.

Each class method is proved to perform one transition
(`ensures State() == F(old(State()))`). The properties are proved about the
transition functions.

A request is split into two events. The start event performs the synchronous
part of the handler (raise `loading`, clear the error) and returns the `Call`
sent. The settle event takes the server's answer, or `Failed`, as a parameter.

React effects are explicit events. The methods that change an effect's
dependency return `effectDue`, which says whether React would run that effect
next. `Listing.Run` folds any sequence of events. It does not follow React's
scheduling: it accepts sequences with an effect event whose dependencies did
not change, and also sequences that leave out an effect React would run. The
lemmas that describe a whole interaction, such as `Listing.NewQueryCycle`,
list every effect React runs.

Behaviour of the source worth knowing:
- `toggleExpand` is not bound to any element that `SheetCard` renders, so the
  expander cannot be opened from the UI. It is modelled as written.
- Nothing calls `setPageSize`, so the page size stays 12. The
  `[query, pageSize]` effect therefore runs on mount and after each change of
  the query. On mount the `[page]` effect runs as well, so the first render
  requests page 1 of the empty query twice (`Listing.MountRequestsFirstPageTwice`).
  The detail page's `[id]` effect likewise runs `load` on mount, so its
  constructor is followed by `Load` (`Detail.MountLoads`).
- There is no tab cache: every opening of the expander and every `load` of
  the detail page requests the tabs again (`Card.ReopenRefetches`).
- `SheetCard` flips `expanded` only after the tabs request has settled, in the
  `setExpanded` that follows the `finally`. So a card that is opening is not
  yet expanded (`Card.CardState.Valid`: `tabsLoading ==> !expanded`).

## Model

| member | source | states |
|---|---|---|
| `Domain.TabsOrEmpty` | client/src/App.jsx:56-59 | the tabs are the response's `items`; a failed request or a body without `items` gives `[]` |
| `Text.TrimStart` | client/src/ClientConfig.jsx:28 | the result is a suffix of the input; everything removed is whitespace; it does not start with whitespace |
| `Text.TrimEnd` | client/src/ClientConfig.jsx:28 | the result is a prefix of the input; everything removed is whitespace; it does not end with whitespace |
| `Text.Trim` | client/src/ClientConfig.jsx:28 | `trim()` gives a contiguous part of the input with no whitespace at either end, and everything removed before and after it is whitespace; it is empty exactly when the input is all whitespace |
| `Text.TrimIdempotent` | client/src/ClientConfig.jsx:28 | trimming a trimmed string changes nothing |
| `Text.Lower` | client/src/SheetDetail.jsx:34-35 | `toLowerCase()` keeps the length, maps each of A-Z to the matching letter of a-z, keeps every other character, and leaves no upper-case ASCII letter |
| `Text.Contains` | client/src/SheetDetail.jsx:35 | `includes(q)`: `q` is a prefix of the string or of one of its suffixes; it never holds for a `q` longer than the string |
| `Text.ContainsIff` | client/src/SheetDetail.jsx:35 | `includes(q)` holds exactly when `q` occurs at some offset of the string |
| `Text.ContainsEmpty` | client/src/SheetDetail.jsx:33-35 | every string includes the empty query |
| `Text.EmptyContainsOnlyEmpty` | client/src/SheetDetail.jsx:35 | a missing title, read as `''`, includes only the empty query |
| `Text.Decimal` | client/src/App.jsx:104 | a grid id is written as decimal digits, with no leading zero except for 0 |
| `Text.ParseDecimalOfDecimal` | client/src/App.jsx:104 | reading back the written digits gives the grid id |
| `Text.TrailingDigits` | client/src/App.jsx:104 | the result is the longest all-digit suffix of a link |
| `Text.TrailingDigitsAfter` | client/src/App.jsx:104 | after the `=` of `#gid=`, the trailing digits of a link are exactly the grid id's |
| `Text.Join` | client/src/App.jsx:72 | `join(sep)` of no names is empty and of one name is that name; with two or more it starts with the first name and a separator and is at least as long as the first name, a separator and the last name |
| `Text.JoinSnoc` | client/src/App.jsx:72 | joining one more name appends a separator and that name, so every owner appears in order, each after a separator, with none dropped or merged |
| `Text.JoinEmptyIff` | client/src/App.jsx:72 | `join(', ')` is empty exactly for no names or one empty name |
| `Links.OpenUrl` | client/src/App.jsx:51 | the open link is the spreadsheets base, then the id, then `/edit`, with the id and the `/edit` suffix at their stated offsets |
| `Links.OpenUrlRoundTrip` | client/src/App.jsx:51 | decoding an open link gives back its spreadsheet id |
| `Links.SheetIdOfExact` | client/src/SheetDetail.jsx:30 | anything the decoder accepts is exactly the open link of the id it returns |
| `Links.TabUrl` | client/src/App.jsx:104 | the tab link extends the spreadsheet's open link |
| `Links.TabUrlRoundTrip` | client/src/App.jsx:104 | decoding a tab link (`?gid=<g>#gid=<g>`) gives back its spreadsheet id and grid id |
| `Links.DecodeTabUrlExact` | client/src/SheetDetail.jsx:66 | anything the tab decoder accepts is exactly the tab link of the ids it returns |
| `Links.TabUrlInjective` | client/src/SheetDetail.jsx:66 | two tabs with different spreadsheet ids or grid ids never share a link |
| `Listing.Listing.Filtered` | client/src/App.jsx:149 | the tiles shown are exactly the page's items: the client does no filtering of its own |
| `Listing.Listing.PrevEnabled` | client/src/App.jsx:221 | Prev is disabled on page 1; on a valid page it is enabled exactly when there is a page before |
| `Listing.Listing.NextEnabled` | client/src/App.jsx:223 | Next is enabled exactly when the page shows at least one tile, whatever `total` says |
| `Listing.RequestFor` | client/src/App.jsx:160-163 | each of page, pageSize and query is the explicit argument if given, else the current state |
| `Listing.BeginFetch` | client/src/App.jsx:161 | a fetch raises `loading` and changes nothing else |
| `Listing.SettleFetch` | client/src/App.jsx:162-172 | success replaces `sheets` and `total` with the response's; failure sets `[]` and 0; `loading` ends false; query and paging are kept |
| `Listing.TypeQuery` | client/src/App.jsx:205 | typing changes `query` only |
| `Listing.ResetToFirstPage` | client/src/App.jsx:192-195 | the `[query, pageSize]` effect requests page 1 with the current query and page size, sets `page` to 1 and raises `loading` |
| `Listing.PrevPage` | client/src/App.jsx:221 | Prev goes to `max(1, page - 1)` and is a no-op on page 1; only `page` changes |
| `Listing.NextPage` | client/src/App.jsx:223 | Next goes to `page + 1` when items are shown and is a no-op otherwise; only `page` changes |
| `Listing.Step` | client/src/App.jsx:160-223 | one event's new state and requests: no event changes the page size, every listing request carries the current query and page size, and an event sends at most two requests |
| `Listing.Run` | client/src/App.jsx:160-223 | a sequence of events: the page size never changes, every listing request asks for pages of the initial size, and each event adds at most two requests |
| `Listing.StepKeepsValid` | client/src/App.jsx:188-223 | every event keeps `page >= 1` and `pageSize >= 1`, and only requests pages `>= 1` |
| `Listing.RunKeepsValid` | client/src/App.jsx:188-223 | the same holds for any sequence of events |
| `Listing.NewQueryCycle` | client/src/App.jsx:192-199 | typing a query different from the current one, then the effects React runs, then an answer to each request: page 1 of the new query is requested once from page 1 and twice from any other page (the reset's `setPage(1)` also runs the `[page]` effect); the state shows exactly that answer |
| `Listing.MountRequestsFirstPageTwice` | client/src/App.jsx:139-199 | on mount both effects run, and the first render sends the request for page 1 of the empty query twice, with the state otherwise unchanged |
| `Listing.SettleReplaces` | client/src/App.jsx:163-165 | after a successful fetch, items and total are the response's, whatever was shown before |
| `Listing.FailureLooksEmpty` | client/src/App.jsx:166-169 | a failed fetch leaves the same state as an empty answer with total 0 |
| `Listing.PageEffectIgnoresTotal` | client/src/App.jsx:197-199 | the page effect requests the current page with the current query and page size, whatever `total` is |
| `Listing.ResetThenPageEffectRepeats` | client/src/App.jsx:192-199 | when the reset changes `page`, the page effect that follows sends the same request again |
| `Listing.RefreshPreviewOutcomes` | client/src/App.jsx:175-182 | a successful refresh POST is followed by a request for the unchanged page, page size and query; a failed one changes nothing and sends no listing request |
| `Listing.Dashboard.constructor` | client/src/App.jsx:139-145 | initial state: loading, no sheets, empty query, page 1, page size 12, total 0 |
| `Listing.Dashboard.FetchSheets` | client/src/App.jsx:160-163 | raises `loading` and sends `RequestFor` the current state and arguments |
| `Listing.Dashboard.FetchSettled` | client/src/App.jsx:162-172 | performs `SettleFetch` |
| `Listing.Dashboard.TypeQuery` | client/src/App.jsx:205 | sets `query`; reports whether the `[query, pageSize]` effect is due |
| `Listing.Dashboard.QueryOrPageSizeEffect` | client/src/App.jsx:192-195 | performs `ResetToFirstPage`; reports whether the page effect is due |
| `Listing.Dashboard.PageEffect` | client/src/App.jsx:197-199 | fetches the current page with the current query and page size |
| `Listing.Dashboard.RefreshAll` | client/src/App.jsx:206 | fetches with the current page, page size and query |
| `Listing.Dashboard.Prev` | client/src/App.jsx:221 | performs `PrevPage`; reports whether the page effect is due |
| `Listing.Dashboard.Next` | client/src/App.jsx:223 | performs `NextPage`; reports whether the page effect is due |
| `Listing.Dashboard.RefreshPreview` | client/src/App.jsx:175-182 | sends the POST; fetches the unchanged page only if the POST succeeded |
| `Card.OwnersLabel` | client/src/App.jsx:72 | the owners line is the joined names, or `—` when they are missing or join to nothing |
| `Card.OwnersLabelCases` | client/src/App.jsx:72 | `—` is shown exactly for a missing list, an empty list or a single empty name |
| `Card.Toggle` | client/src/App.jsx:52-55 | a request for the tabs is sent exactly when the card is collapsed; an open card collapses; loaded tabs are kept |
| `Card.SettleExpand` | client/src/App.jsx:56-64 | the tabs are the response's items or `[]`; `tabsLoading` ends false; `expanded` flips |
| `Card.OpenCycle` | client/src/App.jsx:52-64 | opening a collapsed card sends one request and ends expanded, not loading, showing the answer |
| `Card.ReopenRefetches` | client/src/App.jsx:52-64 | closing sends nothing, and opening again requests the tabs again (no cache) |
| `Card.SheetCard.constructor` | client/src/App.jsx:48-50 | a new tile is collapsed, with no tabs and not loading |
| `Card.SheetCard.OpenLink` | client/src/App.jsx:51 | the Open link decodes to this sheet's id |
| `Card.SheetCard.TabLink` | client/src/App.jsx:104 | the Open tab link decodes to this sheet's id and the tab's grid id |
| `Card.SheetCard.ToggleExpand` | client/src/App.jsx:52-55 | performs `Toggle` |
| `Card.SheetCard.ExpandSettled` | client/src/App.jsx:56-64 | performs `SettleExpand` |
| `Detail.BeginLoad` | client/src/SheetDetail.jsx:12-16 | `load` raises `loading` and clears `error` before requesting this spreadsheet's tabs |
| `Detail.SettleLoad` | client/src/SheetDetail.jsx:16-23 | success sets the tabs to the items or `[]`; failure sets `[]` and "Failed to load inner sheets"; `loading` ends false |
| `Detail.MountLoads` | client/src/SheetDetail.jsx:6-28 | on mount the `[id]` effect requests the tabs of the route's spreadsheet; the mounted state is already loading with no error |
| `Detail.LoadCycle` | client/src/SheetDetail.jsx:12-24 | after a whole load the error is empty on success and the message on failure |
| `Detail.FilterTabs` | client/src/SheetDetail.jsx:35 | the filter keeps, in order, exactly the tabs whose lower-cased title includes the query, each as often as before |
| `Detail.FilteredTabs` | client/src/SheetDetail.jsx:32-36 | an empty query shows every tab; otherwise a tab is shown iff its title matches case-insensitively, each matching tab as often as it was loaded; order is kept |
| `Detail.SubsequenceNoLonger` | client/src/SheetDetail.jsx:35 | a subsequence is never longer than its source |
| `Detail.FilteredNoLonger` | client/src/SheetDetail.jsx:32-36 | the search never shows more tabs than were loaded |
| `Detail.FilterWithEmptyQuery` | client/src/SheetDetail.jsx:33-35 | filtering with the empty query keeps every tab, so the early return only saves work |
| `Detail.UntitledNeverMatches` | client/src/SheetDetail.jsx:35 | a tab without a title matches no non-empty query |
| `Detail.SearchIgnoresQueryCase` | client/src/SheetDetail.jsx:34 | queries that differ only in case show the same tabs |
| `Detail.View` | client/src/SheetDetail.jsx:55-63 | what is shown: loading, then error, then "No inner sheets", then "No results", then the filtered list, each case exactly under its condition; "No results" quotes the current query |
| `Detail.EmptyQueryNeverNoResults` | client/src/SheetDetail.jsx:59-62 | with an empty search box, "No results" is never shown |
| `Detail.FailedLoadShowsError` | client/src/SheetDetail.jsx:18-23 | a failed load shows its error message, whatever was shown before |
| `Detail.SuccessfulLoadShowsNoError` | client/src/SheetDetail.jsx:13-17 | a successful load shows no error, even after an earlier failure |
| `Detail.SheetDetail.constructor` | client/src/SheetDetail.jsx:6-10 | the page mounts loading, with no tabs, no error and an empty query |
| `Detail.SheetDetail.OpenLink` | client/src/SheetDetail.jsx:30 | the Open spreadsheet link decodes to the route's id |
| `Detail.SheetDetail.TabLink` | client/src/SheetDetail.jsx:66 | the Open tab link decodes to the route's id and the tab's grid id |
| `Detail.SheetDetail.Load` | client/src/SheetDetail.jsx:12-16 | performs `BeginLoad`; the `[id]` effect and the Refresh button both call it |
| `Detail.SheetDetail.LoadSettled` | client/src/SheetDetail.jsx:16-23 | performs `SettleLoad` |
| `Detail.SheetDetail.ChangeId` | client/src/SheetDetail.jsx:26-28 | changes the route id; reports whether the `[id]` effect reloads |
| `Detail.SheetDetail.TypeQuery` | client/src/SheetDetail.jsx:49 | the search box changes `query` only |
| `Setup.BuildPayload` | client/src/ClientConfig.jsx:27-28 | id and secret are sent as entered; the redirect URI is present iff it has a non-whitespace character, and then it is the trimmed value |
| `Setup.PayloadStable` | client/src/ClientConfig.jsx:28 | re-entering the redirect URI that was sent builds the same payload |
| `Setup.BeginSave` | client/src/ClientConfig.jsx:24-28 | `save` raises `saving`, clears `error` and builds the payload from the current inputs |
| `Setup.SettleSave` | client/src/ClientConfig.jsx:29-35 | success sets `configured`; failure sets "Failed to save. Check values." and keeps `configured`; `saving` ends false |
| `Setup.SaveCycle` | client/src/ClientConfig.jsx:22-36 | after a whole save the error is empty on success and the message on failure |
| `Setup.ApplyLoaded` | client/src/ClientConfig.jsx:12-18 | `configured` becomes the truthiness of the answer's flag; the redirect URI is overwritten by a non-empty stored one and is unchanged otherwise; a failure changes nothing |
| `Setup.LoadNeverClearsRedirect` | client/src/ClientConfig.jsx:16 | loading never clears a non-empty redirect URI |
| `Setup.ClientConfig.constructor` | client/src/ClientConfig.jsx:5-10 | the form starts with empty inputs, not configured, not saving, no error |
| `Setup.ClientConfig.Edit` | client/src/ClientConfig.jsx:43-45 | the inputs' onChange handlers set the three text fields |
| `Setup.ClientConfig.Load` | client/src/ClientConfig.jsx:12-18 | performs `ApplyLoaded` |
| `Setup.ClientConfig.Save` | client/src/ClientConfig.jsx:22-28 | submittable only with both required inputs filled and no save in progress; performs `BeginSave` |
| `Setup.ClientConfig.SaveSettled` | client/src/ClientConfig.jsx:29-35 | performs `SettleSave` |

## Left out

- Rendering, CSS classes and routing (`App`, `Routes`, the JSX trees) are not modelled. Neither is the display chain of an expanded tile (`App.jsx` lines 98-102), which is presentation only.
- `Navbar`'s client-config polling, `fetchMe`, `onSignOut` and the signed-in user are not modelled. They are session plumbing outside the sheet-browsing state.
- The HTTP client `api.js` is not part of this model. Each request is a `Call`, and its outcome is a `Response` parameter of the settle event.
- Several requests may be in flight at once (`Listing.NewQueryCycle` starts two before either settles), but a settle event does not say which request it answers. So the model does not capture which answer belongs to which request, nor "last response wins" when answers to different requests arrive out of order. React's batching and scheduling of effects are not modelled either. Handlers read the current state.
- `refreshPreview` calls `fetchSheets()` with the state of the render that created it. With no interleaving, that is the current state, which is what the model uses.
- The listing response is assumed to carry `items` and a numeric `total`. Without `items`, the source would set `sheets` to `undefined` and fail while rendering.
- `console.error` logging is left out. It does not change state.
- Locale-dependent date formatting (`toLocaleString`) and preview-grid rendering are not modelled.
- `Text.Lower` maps only ASCII A-Z. JavaScript's full Unicode case mapping is not modelled.
- `Text.IsWhitespace` is the ECMAScript WhiteSpace and LineTerminator set for the current Unicode version. It is fixed, not tracked against future versions.
- `Setup.Truthy` covers undefined, null, booleans, integers, strings and objects. Fractional numbers and NaN are not modelled.
- `Text.Decimal` renders grid ids as non-negative integers, which is the form Google gives them. Other JavaScript number formats are not modelled.
- Browser form validation is modelled only as the precondition of `Setup.ClientConfig.Save`: the `required` inputs must be non-empty and the Save button must not be disabled.
