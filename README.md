# Popup dashboard: a Dafny model of its state synchronisation

The system lets an operator switch a popup on and off and edit its text
from a dashboard page; an embeddable script on third-party pages polls
the same HTTP endpoint and shows or hides a modal overlay. Everything
turns on one record, the popup state `{show, content}`.

This project models the four parts of the code that handle that record:

- **Store** (`PopupStore`, from `app/api/popup-state/store.ts`): the
  in-memory store, a class `Store` with the fields `popupShow` and
  `popupContent`, their getters, and their setters. `setPopupContent`
  coerces a non-string argument to `""`.
- **API handlers** (`Route`, from `app/api/popup-state/route.ts`): `Get`
  and `Post` are methods over a `Store`. `Options` is a function returning
  a `Response` (status, JSON payload, headers). The request body is given
  as the result of `request.json()`: `Malformed` when it throws, otherwise
  the parsed value. POST follows the patch rule defined once as
  `Popup.Merge`. A `show` that is a boolean is applied. A `content` that is
  a string is applied. Everything else is ignored.
- **Widget** (`PopupBridge`, from `public/popup-bridge.js`): the base-URL
  normalisation, `fetchState` with its fail-closed defaults, the text rule
  `content.trim() || default`, and a class `Widget`. Its `container` is
  either `null` (Hidden) or an `Overlay` object (Visible). A poll drives
  `ShowPopup` and `HidePopup`. While Visible, `ShowPopup` rewrites the text
  of the same `Overlay` object instead of creating a new one.
- **Dashboard** (`Dashboard`, from `app/page.tsx`): a class `Page` with the
  fields `popupOpen`, `content`, `editContent`, `contentDirty` and
  `saveTimeoutRef`. It also holds the runtime's pending timeouts
  (`timers`) and the POST bodies the page has sent (`sent`). Its invariant
  `Valid()` says that at most one save is pending, and that it is pending
  exactly while the content is dirty. That save will store what the edit
  buffer holds. The React effect at `app/page.tsx:69-71` runs at the end
  of every event (`SyncEditBuffer`). The "Saving…" hint is the predicate
  `SavingHint()`, which is `contentDirty`.

The JSON replies of GET and POST carry the CORS headers and
`content-type: application/json`, as `NextResponse.json` sets them; the
OPTIONS reply carries the CORS headers and `Access-Control-Max-Age`.

`Json` holds what the parts share: parsed JSON values, the JavaScript
operations the code applies to them (`v?.key`, the `typeof` tests, and
truthiness), and the outcomes of `request.json()` and of a client's
`fetch`. `Integration` ties the parts together over the HTTP contract.
What the dashboard sends is what POST applies. A GET reply is what the
dashboard and the widget take from a poll.

Outside inputs appear as parameters: the parsed request body, a poll's
fetch outcome (`Failed` or `Responded(json)`), and a POST's network
outcome (`Delivered` or `NetworkError`). The configured global
`DASHBOARD_POPUP_API_URL` is also a parameter. Polls, timer expiries and
clicks are method calls, each one atomic.

Three behaviours of the code are worth stating plainly:

- `setPopupState` stores its argument as given and does no boolean
  coercion.
- The dashboard's switch flips back when its request rejects
  (`app/page.tsx:31-33`). There is no suppression window.
- The store is memory-only.

A poll whose reply decodes to JSON `null` makes `data.show` throw inside
the widget's callback (`public/popup-bridge.js:92`). That poll changes
nothing, so a Visible popup stays Visible. `Widget.Poll` models this case.

## Model

| member | source | states |
|---|---|---|
| `Popup.Merge` | app/api/popup-state/route.ts:24-25 | `show` is taken exactly when `body?.show` is a boolean, and `content` exactly when `body?.content` is a string; otherwise each field keeps its prior value |
| `Popup.MergeNonObject` | app/api/popup-state/route.ts:23-25 | a body that parses but is not an object (`null`, a number, a string, an array) leaves the state unchanged |
| `Popup.MergeIdempotent` | app/api/popup-state/route.ts:24-25 | applying the same body twice gives the same state as applying it once |
| `PopupStore.Store.constructor` | app/api/popup-state/store.ts:5-6 | the store starts with `show` false and `content` empty |
| `PopupStore.Store.GetPopupState` | app/api/popup-state/store.ts:8-10 | returns the stored `show` and changes nothing |
| `PopupStore.Store.SetPopupState` | app/api/popup-state/store.ts:12-14 | afterwards `show` is the argument and `content` is unchanged |
| `PopupStore.Store.GetPopupContent` | app/api/popup-state/store.ts:16-18 | returns the stored `content` and changes nothing |
| `PopupStore.Store.SetPopupContent` | app/api/popup-state/store.ts:20-22 | afterwards `content` is the argument when it is a string and `""` otherwise; `show` is unchanged |
| `PopupStore.SettersTwice` | app/api/popup-state/store.ts:12-22 | on any store, calling each setter twice with the same argument leaves the state that calling it once leaves: `show` is the boolean, `content` is the argument when it is a string and `""` otherwise |
| `Route.Get` | app/api/popup-state/route.ts:9-19 | status 200 with exactly the current `{show, content}`, the three CORS headers and `content-type: application/json`; the store is not modified |
| `Route.Post` | app/api/popup-state/route.ts:21-38 | an unparseable body gives 400 `{error: "Invalid body"}` with the store unchanged; otherwise the store becomes the typed merge of the body and the reply is 200 `{ok: true, show, content}` of the new state; both replies carry the CORS headers and `content-type: application/json` |
| `Route.OkBodyReportsState` | app/api/popup-state/route.ts:26-30 | the successful POST reply carries `ok: true` and the state's `show` and `content`, member for member |
| `Route.Options` | app/api/popup-state/route.ts:40-48 | status 204, no body, the three CORS headers and `Access-Control-Max-Age: 86400`, and no other header |
| `Route.ContentThenShowScenario` | app/api/popup-state/route.ts:15-31 | POST `{content: "Hello"}`, then POST `{show: true}`, then GET on a fresh store reports `{show: true, content: "Hello"}` |
| `Route.MalformedPostScenario` | app/api/popup-state/route.ts:21-37 | on a fresh store an unparseable POST gets 400, and GET still reports the defaults |
| `PopupBridge.NormalizeBase` | public/popup-bridge.js:9-11 | a string configuration loses at most one character, and it loses one exactly when it ends with `/`; the result is a prefix of it; any other configuration gives `""` |
| `PopupBridge.ApiUrl` | public/popup-bridge.js:15-17 | the URL is the base followed by the path, with nothing in between |
| `PopupBridge.TrailingSlashOptional` | public/popup-bridge.js:9-17 | a URL configured with or without one trailing slash gives the same API URL; of two trailing slashes only one is removed |
| `PopupBridge.FetchState` | public/popup-bridge.js:19-24 | with an empty base the result is `{show: false}`; after a failed fetch or decode it is `{show: false, content: ""}`; both have a falsy `show`; otherwise it is the decoded reply as it is |
| `PopupBridge.TrimStart` | public/popup-bridge.js:39 | the leading trim never lengthens its input; what it removes is stated by `TrimStartSlice` |
| `PopupBridge.TrimEnd` | public/popup-bridge.js:39 | the trailing trim never lengthens its input; what it removes is stated by `TrimEndSlice` |
| `PopupBridge.Trim` | public/popup-bridge.js:39 | `trim()` is the trailing trim of the leading trim and never lengthens its input; what it keeps is stated by `TrimSpec` |
| `PopupBridge.TrimStartSlice` | public/popup-bridge.js:39 | the leading trim drops a whitespace prefix and stops at the first non-whitespace character |
| `PopupBridge.TrimEndSlice` | public/popup-bridge.js:39 | the trailing trim drops a whitespace suffix and stops at the last non-whitespace character |
| `PopupBridge.TrimSpec` | public/popup-bridge.js:39 | `trim()` returns the slice of its input between whitespace at both ends; the slice neither starts nor ends with whitespace, and it is empty exactly when the input is all whitespace |
| `PopupBridge.TrimIdempotent` | public/popup-bridge.js:39 | trimming twice equals trimming once |
| `PopupBridge.DisplayText` | public/popup-bridge.js:39 | the displayed text is never empty |
| `PopupBridge.DisplayTextRule` | public/popup-bridge.js:39 | the displayed text is the trimmed content unless the content is all whitespace, when it is the fixed default message |
| `PopupBridge.PopupText` | public/popup-bridge.js:37-39 | a string `data.content` is shown by the text rule; a missing or non-string `content` shows the default message |
| `PopupBridge.Overlay.constructor` | public/popup-bridge.js:75-78 | a new overlay's body holds the given text |
| `PopupBridge.Widget.constructor` | public/popup-bridge.js:9-13 | on load the base is the normalised configuration, nothing is shown, and polling starts exactly when the base is non-empty |
| `PopupBridge.Widget.HidePopup` | public/popup-bridge.js:26-31 | afterwards the widget is Hidden, whatever it was before, so hiding twice is hiding once |
| `PopupBridge.Widget.ShowPopup` | public/popup-bridge.js:37-88 | afterwards the widget is Visible with the display text; if it was Visible, the container is the same object; if it was Hidden, the container is new |
| `PopupBridge.Widget.Poll` | public/popup-bridge.js:90-97 | a truthy `show` ends Visible with the display text, updated in place if it was already Visible; anything else ends Hidden; a `null` reply changes nothing |
| `PopupBridge.ScenarioTexts` | public/popup-bridge.js:39 | `"Hi"` is shown as `"Hi"` and `"  Bye "` as `"Bye"` |
| `PopupBridge.ShowUpdateHideScenario` | public/popup-bridge.js:90-97 | a poll of `{show: true, content: "Hi"}` while Hidden shows "Hi"; a second poll with new content changes the text of the same overlay; a poll of `{show: false}` hides it |
| `Dashboard.ShowRequest` | app/page.tsx:29 | the switch's body has a boolean `show` equal to the requested value and no string `content` |
| `Dashboard.ContentRequest` | app/page.tsx:44 | the save's body has a string `content` equal to the saved value and no boolean `show` |
| `Dashboard.Polled` | app/page.tsx:15-16 | a failed poll keeps the state; after a delivered poll, merging the same reply again changes nothing |
| `Dashboard.Cancel` | app/page.tsx:76 | clearing a timeout removes every timer with that handle and keeps every other timer |
| `Dashboard.PolledTyped` | app/page.tsx:11-20 | a poll overwrites `popupOpen` only with a boolean `show` and `content` only with a string `content`; a failed poll changes nothing |
| `Dashboard.Page.constructor` | app/page.tsx:7-67 | the page starts with the switch off, empty content and edit buffer, nothing dirty, no timer pending, nothing sent, and its invariant holding |
| `Dashboard.Page.SavingHint` | app/page.tsx:121-123 | the "Saving…" hint shows exactly while a save timer is pending |
| `Dashboard.Page.SyncEditBuffer` | app/page.tsx:69-71 | while not dirty, the edit buffer takes `content`; while dirty, it is left alone |
| `Dashboard.Page.FetchState` | app/page.tsx:11-20 | the hook state becomes the typed poll result; incoming content does not overwrite the edit buffer while it is dirty; the invariant is kept |
| `Dashboard.Page.SetShow` | app/page.tsx:22-36 | `{show}` is sent; the switch shows the requested value, or its negation when the request rejects |
| `Dashboard.Page.ClickToggle` | app/page.tsx:102 | a click requests the negation of what the switch shows; the switch flips if the request is delivered and flips back if it rejects |
| `Dashboard.Page.SaveContent` | app/page.tsx:38-49 | local `content` becomes the saved value and `{content}` is sent, whatever the request's outcome |
| `Dashboard.Page.HandleContentChange` | app/page.tsx:73-82 | the edit buffer takes the value and becomes dirty, so the hint shows; the pending timer is cancelled; exactly one timer is pending, with a fresh handle and this value; the invariant is kept |
| `Dashboard.Page.FireTimer` | app/page.tsx:77-81 | the pending timer saves the last value typed; it sends that value; the content is clean again, so the hint disappears; the timer reference is cleared and no timer is pending |
| `Integration.ShowRequestPatches` | app/page.tsx:26-30 | the body the switch sends sets exactly `show` on the server |
| `Integration.ContentRequestPatches` | app/page.tsx:41-45 | the body a save sends sets exactly `content` on the server |
| `Integration.DashboardTakesGetReply` | app/page.tsx:13-16 | a dashboard poll of a GET reply takes over the server state |
| `Integration.WidgetFollowsGetReply` | public/popup-bridge.js:19-24 | a widget poll of a GET reply shows the popup exactly when the server's `show` is true, with the server's content as its text |
| `Integration.ToggleRoundTrip` | app/page.tsx:22-36 | a delivered click on a fresh dashboard turns the popup on at the server; the next dashboard poll shows it on, and the next widget poll shows it Visible |
| `Integration.EditRoundTrip` | app/page.tsx:73-82 | a debounced edit reaches the server; a poll that arrives while a newer edit is pending leaves that edit and the hint alone |

## Left out

- The file and remote key-value backends, `updatedAt`, and persistence across restarts: none of these is in the store's code, which is memory-only.
- The widget's dismiss control and the dashboard's toggle-suppression window: neither is in the code.
- DOM construction and styling (`public/popup-bridge.js:50-85`) and `bodyEl.style.whiteSpace`: an overlay is modelled as an object that holds its body text.
- `PopupBridge.Widget.ShowPopup`: the overlay is assumed to stay attached with its body element. An overlay removed from the page by other scripts, or one without a body element, is not modelled.
- React rendering and JSX (`app/page.tsx:90-126`), and the teardown effect (`app/page.tsx:84-88`): after teardown the page has no further transitions.
- `fetch`, `request.json()` and `JSON.stringify`: these are foreign calls. A fetch outcome and a parsed request body are parameters, and bodies are modelled as parsed JSON values, not text.
- `NextResponse`: a reply is modelled by its status, its body as a JSON value, and its headers; the serialisation of the body to text is not modelled.
- The intervals and delays (3000 ms, 2000 ms, 500 ms): polls and timer expiries are events, not time.
- Asynchronous interleaving and out-of-order responses: each event runs to completion before the next.
- `Dashboard.Page.SetShow`: the request and its failure are one atomic event, so "flip back from the current value" is stated for a switch no other event changed in between.
- JSON numbers are exact reals. Member access is modelled only for the member names this code reads, which no primitive or array carries.
