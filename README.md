# AI support-ticket summarizer: client logic

A model of the browser client of the AI ticket summarizer. An operator pastes a support
ticket into the analyzer page, which sends it to the analysis service together with a fixed
list of five candidate categories and shows the category and summary that come back. A
second page fetches the list of recently processed tickets once and shows it. The model
covers the logic of these two pages and the helpers they share:

- `wrappers.dfy` (module `Wrappers`): the `Option` type used for nullable cells.
- `jsstring.dfy` (module `JsString`): JavaScript's `String.prototype.trim`, which decides
  whether a ticket is blank.
- `utils.dfy` (module `Utils`): the category colour lookup `getCategoryColor` and
  `truncateText` from `frontend/src/lib/utils.js`. `AppPage.js` holds an identical copy of
  the colour table (lines 55-64), so one function serves both.
- `apppage.dfy` (module `AppPage`): the analyzer page. It has four state cells (`ticketText`,
  `isLoading`, `result`, `error`). `handleSubmit` is split at its `await` into
  `AfterSubmit` (validate and begin) and `AfterComplete(outcome)` (store the response or the
  error, then stop loading). The text area and the submit button are enabled or disabled by
  the state, and `Render` gives what the page shows. `Run` drives the page through user
  events and settlements. The class `Analyzer` holds the cells as fields, and its methods
  are proved to follow the step functions.
- `historypage.dfy` (module `HistoryPage`): the history page. It has three state cells
  (`history`, `isLoading`, `error`). `AfterFetch` applies the settlement of the one fetch
  issued on mount. `Blocks` gives the page body's three conditionals as written, `View`
  picks the one screen shown, and `Rows` builds the ticket rows. The class `History` holds
  the cells, and its `FetchDone` method follows `AfterFetch`. React's rule for when an effect
  runs at a commit is modelled too. With the page's empty dependency list, the fetch runs
  once at mount and never on a re-render.

The HTTP calls are replaced by the request value the page would send and by an `Outcome`
value for the way the call settles: a response body, or a thrown error. Each submit is
followed by its completion, and each mount by its fetch settlement, in sequence.

Some plain facts about the code, which the model keeps:
- The validation message is "Ticket text cannot be empty.", with its full stop.
- A failed history fetch is never retried.
- The history page computes no statistics, and its rows have no expand/collapse state.
- Nothing guards against a response that settles after the page has gone.

## Model

| member | source | states |
|---|---|---|
| JsString.Trim | frontend/src/pages/AppPage.js:29 | `text.trim()` is the slice of `text` left once leading and trailing JavaScript whitespace is cut; it is empty exactly when every character is whitespace, and otherwise it starts and ends with a non-whitespace character |
| JsString.BlankIffTrimEmpty | frontend/src/pages/AppPage.js:135 | the blank test used by the page (whitespace only) is exactly `!text.trim()` |
| Utils.CategoryColor | frontend/src/lib/utils.js:7-16 | total colour lookup: a known category gets its own gradient, which is never the gray default; every other string gets "from-gray-500 to-gray-600" |
| Utils.CategoryColorsDistinct | frontend/src/lib/utils.js:8-14 | no two known categories share a gradient |
| Utils.CategoryColorAsWritten | frontend/src/lib/utils.js:15 | the lookup as JavaScript evaluates `colors[category] \|\| default`: it agrees with `CategoryColor` except on names inherited from Object.prototype, for which it yields the inherited member |
| Utils.ConstructorCategoryNotDefaultColor | frontend/src/lib/utils.js:7-16 | for the category "constructor" the lookup as written yields no gradient string, although the intended colour is the gray default |
| Utils.Truncate | frontend/src/lib/utils.js:22-23 | a text of at most `maxLength` characters is returned unchanged; a longer one becomes its first `maxLength` characters plus "..." (length `maxLength + 3`), or just "..." for a negative limit; the result always starts with the first min(length, maxLength) characters |
| Utils.TruncateIdempotent | frontend/src/lib/utils.js:23 | truncating twice with the same limit equals truncating once |
| Utils.TruncateDefaultLimit | frontend/src/lib/utils.js:22 | with the limit omitted it is 100 |
| AppPage.CandidateLabelsHaveColors | frontend/src/pages/AppPage.js:55-64 | the five candidate labels are distinct and are exactly the keys of the colour table |
| AppPage.SubmitEnabled | frontend/src/pages/AppPage.js:135 | the negation of `disabled={isLoading \|\| !ticketText.trim()}`: never enabled while loading or with an empty text; tied to `trim` by `SubmitEnabledIsNotDisabled` |
| AppPage.SubmitEnabledIsNotDisabled | frontend/src/pages/AppPage.js:135 | the submit button is enabled iff nothing is loading and `ticketText.trim()` is non-empty |
| AppPage.AfterEdit | frontend/src/pages/AppPage.js:125-127 | typing replaces the text only while the text area is enabled (not loading); no other cell changes |
| AppPage.AfterSubmit | frontend/src/pages/AppPage.js:29-45 | a request is issued iff the text is not blank; a blank text sets "Ticket text cannot be empty." and leaves loading, result and text unchanged; otherwise loading starts, result and error are cleared, and the request carries the untrimmed text and the fixed label list |
| AppPage.AfterComplete | frontend/src/pages/AppPage.js:46-52 | on success the result is the response verbatim and the error is untouched; on failure the error is the generic service message and the result is untouched; loading ends either way |
| AppPage.AfterPress | frontend/src/pages/AppPage.js:133-135 | a button click issues a request iff the button is enabled; a click on the disabled button (loading or blank text) changes nothing; an enabled click starts loading, clears result and error, and sends the untrimmed text with the fixed labels; it never produces the validation error |
| AppPage.InitialInv | frontend/src/pages/AppPage.js:14-17 | the mount state satisfies the page invariant and its button is disabled |
| AppPage.EditPreservesInv | frontend/src/pages/AppPage.js:126-127 | typing keeps the invariant: while loading, the text is not blank, and no result or error is held |
| AppPage.SubmitPreservesInv | frontend/src/pages/AppPage.js:29-36 | the begin step of the submit handler keeps the invariant |
| AppPage.CompletePreservesInv | frontend/src/pages/AppPage.js:46-52 | the completion step keeps the invariant |
| AppPage.Render | frontend/src/pages/AppPage.js:122-206 | the text area is enabled iff not loading, the button iff `SubmitEnabled`, the error text shows exactly when non-empty, the button reads "Processing with AI..." while loading and "Analyze Ticket" otherwise, and the result card shows iff a result is held, with the held category and summary verbatim |
| AppPage.RenderWhileLoading | frontend/src/pages/AppPage.js:127-140 | while loading the page shows no result and no error, and has a disabled text area and a disabled "Processing with AI..." button |
| AppPage.RenderAfterSuccess | frontend/src/pages/AppPage.js:181-206 | after a successful submission the card shows the response's category and summary verbatim, with the category's colour, and no error shows |
| AppPage.RenderAfterFailure | frontend/src/pages/AppPage.js:47-52 | after a failed submission the generic message shows and no result card shows, even if an earlier one was on screen |
| AppPage.DeliverPreservesSessionInv | frontend/src/pages/AppPage.js:27-52 | each user event or settlement keeps the session invariant: one request in flight iff loading, and every sent request is non-blank with the fixed labels |
| AppPage.RunPreservesSessionInv | frontend/src/pages/AppPage.js:27-52 | any sequence of events keeps the session invariant |
| AppPage.AtMostOneRequestInFlight | frontend/src/pages/AppPage.js:127-135 | driven through its user interface from mount, the page never has two analysis requests in flight, has one exactly while loading, and never sends a blank text or other labels |
| AppPage.Analyzer.constructor | frontend/src/pages/AppPage.js:14-17 | mount state: empty text, not loading, no result, no error |
| AppPage.Analyzer.Input | frontend/src/pages/AppPage.js:125-127 | the text area's change handler updates the cells as `AfterEdit` says |
| AppPage.Analyzer.Submit | frontend/src/pages/AppPage.js:27-45 | the submit handler up to its `await` updates the cells and returns the request as `AfterSubmit` says |
| AppPage.Analyzer.Complete | frontend/src/pages/AppPage.js:46-52 | the `try`/`catch`/`finally` after the `await` of the one in-flight request (the page is loading) updates the cells as `AfterComplete` says |
| AppPage.Analyzer.Press | frontend/src/pages/AppPage.js:133-135 | a button click reaches the submit handler only when the button is enabled, as `AfterPress` says |
| HistoryPage.AfterFetch | frontend/src/pages/HistoryPage.js:45-52 | a fetched body becomes the history verbatim with the error untouched; a failure sets "Failed to fetch ticket history." with the history untouched; loading ends either way |
| HistoryPage.MountedInv | frontend/src/pages/HistoryPage.js:39-41 | the mount state (empty history, loading, no error) satisfies the invariant |
| HistoryPage.FetchPreservesInv | frontend/src/pages/HistoryPage.js:45-52 | the settlement keeps the invariant: while loading there is no history and no error |
| HistoryPage.Rows | frontend/src/pages/HistoryPage.js:81-83 | one row per entry, in service order, keyed by the entry's id, nothing filtered or reordered |
| HistoryPage.Blocks | frontend/src/pages/HistoryPage.js:75-93 | the body's conditionals as written show at least one block, and two only when loading and error coincide |
| HistoryPage.View | frontend/src/pages/HistoryPage.js:75-93 | exactly one of loading message, error message, row list (iff history non-empty) or empty-state message (iff empty), by the cells' values; the row list holds `Rows(history)` and the error message the `error` text |
| HistoryPage.BlocksShowOneView | frontend/src/pages/HistoryPage.js:75-78 | in every state satisfying the invariant the conditionals show exactly the one block `View` picks |
| HistoryPage.ViewAfterFetch | frontend/src/pages/HistoryPage.js:43-93 | after the fetch settles the page shows the rows of a non-empty response, the empty-state message for `[]` (not an error), or the error for a failure, never loading |
| HistoryPage.EffectRuns | frontend/src/pages/HistoryPage.js:43-55 | React's dependency rule for an effect: it runs at the first commit, and never at a commit whose dependency values equal the previous ones |
| HistoryPage.EffectRunCount | frontend/src/pages/HistoryPage.js:43-55 | the runs over a series of commits: at most one per commit, and at least one for a non-empty series starting at mount |
| HistoryPage.NoRerunAfterMount | frontend/src/pages/HistoryPage.js:55 | once the effect has run with its empty dependency list, no later commit runs it again |
| HistoryPage.FetchRunsOncePerMount | frontend/src/pages/HistoryPage.js:43-55 | over any series of commits from mount, the fetch effect runs exactly once |
| HistoryPage.History.constructor | frontend/src/pages/HistoryPage.js:39-55 | mount state, and the first commit runs the effect, which issues one fetch |
| HistoryPage.History.Commit | frontend/src/pages/HistoryPage.js:43-55 | a commit runs the fetch effect (one more request) exactly when React's dependency rule says so, and changes no state cell |
| HistoryPage.History.Rerender | frontend/src/pages/HistoryPage.js:57-97 | a re-render shows the single block for the current cells and issues no further fetch |
| HistoryPage.History.FetchDone | frontend/src/pages/HistoryPage.js:45-52 | the one fetch settles once, while loading; the effect's `try`/`catch`/`finally` updates the cells as `AfterFetch` says and issues no further fetch |
| HistoryPage.History.Screen | frontend/src/pages/HistoryPage.js:74-94 | the page body is the single block `View` picks for the current cells |

## Findings

| source | as written | input that shows it | evidently intended | confidence | as-written member | corrected member |
|---|---|---|---|---|---|---|
| frontend/src/lib/utils.js:15 | `colors[category] \|\| "from-gray-500 to-gray-600"` reads `colors` as a plain object, so inherited Object.prototype members are found and, being truthy, returned (the copy at frontend/src/pages/AppPage.js:63 does the same) | category `"constructor"` yields the `Object` function; the other Object.prototype names yield the inherited member (`"toString"` and `"valueOf"` a function, `"__proto__"` Object.prototype itself); in every case a truthy non-string instead of a class string | the gray default for every category without its own entry | not executed; high (standard JavaScript property lookup) | Utils.CategoryColorAsWritten | Utils.CategoryColor |

## Left out

- The axios HTTP calls, the hard-coded service URL and the response bodies' transport are I/O. They are replaced by the `Request` value and the `Outcome` parameters.
- Asynchronous interleaving is not modelled. That includes a response that settles after the page has unmounted, which the code does not guard against. Each submit/completion pair and the mount/fetch pair are taken in sequence.
- `console.error` on a failed submission is logging only.
- `formatDate`, `toLocaleString` and `toLocaleTimeString` are left out. They depend on the locale and the clock.
- `cn` is left out. It only passes its arguments to `clsx`.
- Animation props, JSX markup, class-name strings and the other pages and components are presentation.
- The backend service (`backend/main.py`) is not part of this model. It performs the classification and summarization behind `POST /process-ticket`.
- The backend defines no `GET /history` route. Against it, the fetch at `frontend/src/pages/HistoryPage.js:46` fails, which the `FetchFailed` outcome covers. The 50-entry limit appears only in the page's heading text (`frontend/src/pages/HistoryPage.js:70`), and nothing enforces it.
- Consecutive `setState` calls in one handler are taken as one batched update, as React 18 applies them: `setResult` or `setError` with `setIsLoading(false)` (`frontend/src/pages/AppPage.js:46-51`, `frontend/src/pages/HistoryPage.js:47-51`). Under unbatched rendering an intermediate render would show a result while loading, or the loading message beside the error; the model has no such state.
- Strings are sequences of Unicode scalar values, not UTF-16 code units. So `.length` and `.substring` count characters differently for text outside the Basic Multilingual Plane.
- `truncateText` is modelled for integer limits only. A non-numeric `maxLength` is not modelled.
- AppPage.Render: the result card's badge colour is the corrected lookup `Utils.CategoryColor`, not the page's own `getCategoryColor` as written. The two differ only for category names inherited from Object.prototype (see Findings).
- AppPage.RenderAfterSuccess: "the category's colour" is the corrected lookup's, for the same reason as `AppPage.Render`. For an Object.prototype name the page as written would use the inherited member instead.
- HistoryPage.AfterFetch: the GET body is taken to be an array of entries. Other bodies are not modelled. A `null` body would make `history.length` throw during render, and a `{}` body would show the empty state.
- `AppPage.AfterComplete`: the response body is taken to be an object with `category` and `summary`. A falsy or malformed body stored in `result` is not modelled.
