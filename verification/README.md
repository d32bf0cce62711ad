# Address search for the Baltimore County map, modelled in Dafny

This project models the request logic of `js/address_search.js`, the
free-text address lookup of a qgis2web map. It has four parts:

- the CORS proxy fallback chain (`fetchCors`);
- the Photon and Nominatim adapters (`tryPhoton`, `tryNominatim`, `parsePhotonResponse`);
- the per-search reconciliation of the two racing providers (`done` and `onSettle` inside `runAddressSearch`);
- the input controller: button, Enter key and the debounced `input` handler.

Browser I/O does not appear in the model. Each fetch attempt is an abstract
outcome: a status plus an optional parsed body, or a rejection (network
error, timeout or abort). A provider's settlement is an event. The pending
debounce timer is a state field, and its expiry is an event. The page is an
immutable record holding:

- the input text;
- the status message;
- whether the button is disabled;
- the marker and the map view;
- every search launched so far;
- the pending timer.

`Page.Step` applies one event and `Page.Run` applies a sequence of events.

Files, one module each:

- `common.dfy`: `Option` and `Result`.
- `text.dfy`: `String.prototype.trim` with the ECMAScript whitespace set, UTF-16 `length`, and the `<` escape.
- `proxy_chain.dfy`: `fetchCors` and the two proxy builders.
- `providers.dfy`: response normalisation and the two adapters.
- `search.dfy`: `showResult`, `done`, `onSettle` and the order-independence results.
- `page.dfy`: events, the page invariant, debounce, supersession and the full search lifecycle.

## Behaviour worth knowing

These are facts about `address_search.js` as written, and the model keeps them.

- The two providers race. Neither is primary, whatever the file's first comment says.
- `fetchCors` never checks the abort signal. An aborted attempt is one more failure, and the chain moves on to the next proxy (`ProxyChain.NoEarlyExitOnAbort`).
- `tryPhoton` and `tryNominatim` turn every failure into `false`, so their promises never reject. As a result `hadError` is never set and "Search failed. Please use the full address." is never shown: a total network failure reports "Address not found." (`Page.AdaptersNeverShowFailure`).
- `showResult` runs inside the parse step, before any guard. A match for a superseded or stale search still moves the marker, recentres the map and clears the status message. Only `resolved` and the button are guarded (`Search.StaleMatchMovesMarker`, `Page.SupersededSearchIsNoop`).
- The debounce timer captures the query when it is armed. The page invariant shows this always equals the trimmed field text when the timer fires (`Page.Inv`).
- While the field does not read the current search's query, that search's outcomes cannot resolve it, so the button stays disabled. If the field returns to the query before the providers settle, the same search can still resolve (`Page.StaleSearchKeepsButtonDisabled`).
- A submit does not clear a pending as-you-type timer (`Page.SubmitKeepsTimer`).

## Model

| member | source | states |
|---|---|---|
| Text.Trim | qgis2web_2026_02_08-18_18_42_294353/js/address_search.js:100 | the trimmed query is the infix of the field text that neither starts nor ends with ECMAScript whitespace; everything cut off is whitespace; it is empty iff the text is all whitespace |
| Text.TrimIdempotent | qgis2web_2026_02_08-18_18_42_294353/js/address_search.js:146-152 | trimming the captured query again changes nothing |
| Text.Utf16Length | qgis2web_2026_02_08-18_18_42_294353/js/address_search.js:147 | `length` lies between the character count and twice it, and is zero only for the empty string; Utf16LengthOfChar and Utf16LengthAppend pin it to UTF-16 units |
| Text.Utf16LengthOfBmp | qgis2web_2026_02_08-18_18_42_294353/js/address_search.js:147 | for text in the Basic Multilingual Plane, `length` equals the character count |
| Text.Utf16LengthOfChar | qgis2web_2026_02_08-18_18_42_294353/js/address_search.js:147 | a character counts one unit, or two above U+FFFF |
| Text.Utf16LengthAppend | qgis2web_2026_02_08-18_18_42_294353/js/address_search.js:147 | `length` of a concatenation is the sum of the lengths |
| Text.Utf16LengthOfAstralPair | qgis2web_2026_02_08-18_18_42_294353/js/address_search.js:147 | two emoji already have length 4, so they pass the three-unit minimum |
| Text.EscapeLt | qgis2web_2026_02_08-18_18_42_294353/js/address_search.js:26 | the escaped label contains no `<`, and a label without `<` is unchanged |
| Text.EscapeIdempotent | qgis2web_2026_02_08-18_18_42_294353/js/address_search.js:26 | escaping twice equals escaping once |
| Text.EscapeAppend | qgis2web_2026_02_08-18_18_42_294353/js/address_search.js:26 | the escape distributes over concatenation |
| Text.EscapeLength | qgis2web_2026_02_08-18_18_42_294353/js/address_search.js:26 | each `<` adds exactly three characters |
| Text.DecodeEscape | qgis2web_2026_02_08-18_18_42_294353/js/address_search.js:26 | a label without `&` reads back unchanged once the browser decodes `&lt;` |
| Text.EscapeIsLossyOnEntities | qgis2web_2026_02_08-18_18_42_294353/js/address_search.js:26 | a label that spells `&lt;` is displayed as `<`, because `&` is not escaped |
| ProxyChain.Body | qgis2web_2026_02_08-18_18_42_294353/js/address_search.js:53-54 | an attempt delivers a body iff it responded with a 2xx status and valid JSON |
| ProxyChain.Next | qgis2web_2026_02_08-18_18_42_294353/js/address_search.js:49-56 | from counter i, the builders are requested strictly in order; every attempt before the last failed; success returns the last attempt's body; rejection is "proxy failed" after every remaining builder, and happens iff all of them fail |
| ProxyChain.FetchCors | qgis2web_2026_02_08-18_18_42_294353/js/address_search.js:48-58 | the chain starts at builder 0, and request j is builder j applied to the URL |
| ProxyChain.FirstSuccessWins | qgis2web_2026_02_08-18_18_42_294353/js/address_search.js:48-58 | the result is the body of the first delivering attempt, after (its index + 1) attempts; if none delivers it is "proxy failed" after all builders |
| ProxyChain.NoEarlyExitOnAbort | qgis2web_2026_02_08-18_18_42_294353/js/address_search.js:39-58 | attempts rejected by the abort signal do not stop the chain: the next builder is still requested |
| ProxyChain.Proxies | qgis2web_2026_02_08-18_18_42_294353/js/address_search.js:34-37 | there are two builders, corsproxy.io then allorigins, each prefixing the encoded URL |
| ProxyChain.BothProxiesFail | qgis2web_2026_02_08-18_18_42_294353/js/address_search.js:34-58 | with both proxies failing, exactly the corsproxy.io and then the allorigins URLs are requested, and the chain rejects |
| Providers.PhotonLabel | qgis2web_2026_02_08-18_18_42_294353/js/address_search.js:64-65 | the label is the trimmed composed name when that is not blank, else the country when set, else the query; it is never empty for a non-empty query |
| Providers.PhotonLabelFallback | qgis2web_2026_02_08-18_18_42_294353/js/address_search.js:64-65 | with a blank name and no street or city, the label is the country, or the query when the country is missing |
| Providers.PhotonLabelUsesAddress | qgis2web_2026_02_08-18_18_42_294353/js/address_search.js:64-65 | when a street or city is set, the label is the trimmed composed name, and country and query are not used |
| Providers.PhotonLabelLeadingComma | qgis2web_2026_02_08-18_18_42_294353/js/address_search.js:64 | a feature with a street but no name gets a label that starts with a comma |
| Providers.ParsePhoton | qgis2web_2026_02_08-18_18_42_294353/js/address_search.js:60-69 | no match iff the feature list is empty; otherwise latitude is coordinates[1], longitude is coordinates[0], and the label comes from the first feature |
| Providers.ParsePhotonFirstOnly | qgis2web_2026_02_08-18_18_42_294353/js/address_search.js:61-62 | features after the first do not affect the result |
| Providers.ParseNominatim | qgis2web_2026_02_08-18_18_42_294353/js/address_search.js:89-95 | no match iff the array is empty; otherwise the first element's lat/lon, labelled with its display_name, else the query |
| Providers.ParseNominatimFirstOnly | qgis2web_2026_02_08-18_18_42_294353/js/address_search.js:90-92 | a non-empty array always matches, and elements after the first do not affect the result |
| Providers.FromParse | qgis2web_2026_02_08-18_18_42_294353/js/address_search.js:65-68 | a parse answers `true` exactly when it showed a hit, and never rejects |
| Providers.TryPhoton | qgis2web_2026_02_08-18_18_42_294353/js/address_search.js:71-79 | the direct request comes first; the proxies are used only if it fails, and then the result is the parse of the first delivering proxy's body, or `false` when none delivers; the promise never rejects |
| Providers.PhotonEmptyDirectIsFinal | qgis2web_2026_02_08-18_18_42_294353/js/address_search.js:74-77 | a direct answer with no features settles `false` without trying the proxies |
| Providers.TryNominatim | qgis2web_2026_02_08-18_18_42_294353/js/address_search.js:81-97 | only proxies are requested, corsproxy.io first; the result is the parse of the first delivering proxy's body, or `false` when none delivers; it matches iff that body is a non-empty array; the promise never rejects |
| Search.PopupHtml | qgis2web_2026_02_08-18_18_42_294353/js/address_search.js:26 | the popup is the title div, whose content is exactly the `<`-escaped `displayName || query` and so contains no `<` |
| Search.PopupShowsLabel | qgis2web_2026_02_08-18_18_42_294353/js/address_search.js:26 | when `displayName || query` has no `&`, the popup decodes back to exactly that label: the display name if there is one, else the query |
| Search.ShowResult | qgis2web_2026_02_08-18_18_42_294353/js/address_search.js:17-30 | the marker moves to the hit with the escaped-label popup, the view centres on it at zoom 16 and the message is cleared; the input and button are untouched |
| Search.Done | qgis2web_2026_02_08-18_18_42_294353/js/address_search.js:118-126 | an aborted, stale or resolved search is left as it was; otherwise only `resolved` (set), the button (enabled) and the message change, and `done(false, failed)` shows the failure text when `failed` and the not-found text otherwise |
| Search.OnSettle | qgis2web_2026_02_08-18_18_42_294353/js/address_search.js:118-134 | it is ignored once aborted; on a stale or already resolved search nothing changes (the guards of `done`); the page changes only when the search resolves, so a first miss leaves message and button alone; a match never changes the message and no call touches the reported providers; a match does not count and resolves a live unresolved search; a non-match counts once and records an error; the second count resolves a live search with the failure text if any error was recorded, else the not-found text |
| Search.Deliver | qgis2web_2026_02_08-18_18_42_294353/js/address_search.js:136-137 | a match moves the marker even when the search is not live; a search that is not live or is resolved keeps its resolution and button; a live unresolved match resolves it and enables the button; the button changes only together with resolution |
| Search.BothSettled | qgis2web_2026_02_08-18_18_42_294353/js/address_search.js:118-137 | for any two outcomes in either order, a live search ends resolved with the button enabled and the verdict message; the marker is at the later match |
| Search.VerdictOrderFree | qgis2web_2026_02_08-18_18_42_294353/js/address_search.js:128-137 | the final message does not depend on which provider settles first |
| Search.OneMissWaits | qgis2web_2026_02_08-18_18_42_294353/js/address_search.js:131-133 | after a single non-match the search waits: it is unresolved, and the message and button are unchanged |
| Search.ResolvedDoneIsNoop | qgis2web_2026_02_08-18_18_42_294353/js/address_search.js:121 | once resolved, any later `done` changes nothing |
| Search.AbortedIsNoop | qgis2web_2026_02_08-18_18_42_294353/js/address_search.js:118-134 | an aborted search ignores both `onSettle` and `done` |
| Search.StaleIsNoop | qgis2web_2026_02_08-18_18_42_294353/js/address_search.js:120 | when the input no longer reads the query, the search neither resolves nor touches the button; the message changes only through `showResult` |
| Search.StaleMatchMovesMarker | qgis2web_2026_02_08-18_18_42_294353/js/address_search.js:60-69 | a match for an aborted or stale search still places its marker and clears the message |
| Search.NoRejectionNoFailure | qgis2web_2026_02_08-18_18_42_294353/js/address_search.js:124-133 | with no rejecting outcome, `hadError` stays false and the failure text is never shown |
| Page.Launch | qgis2web_2026_02_08-18_18_42_294353/js/address_search.js:108-113 | only the current search is aborted, every older one is kept as it was, and a fresh one is appended; "Searching…" is shown and the button disabled; input, marker, map view and timer are untouched |
| Page.Submit | qgis2web_2026_02_08-18_18_42_294353/js/address_search.js:99-106 | a blank field only sets "Enter an address in Baltimore."; otherwise it is exactly `runAddressSearch` of the trimmed text: the current search is aborted, a fresh one appended, "Searching…" shown and the button disabled |
| Page.OnInput | qgis2web_2026_02_08-18_18_42_294353/js/address_search.js:144-154 | the pending timer is always cleared; text shorter than 3 units clears the message and arms nothing; otherwise one timer is armed for the trimmed text; searches, button, marker and map view are untouched |
| Page.SettleSearch | qgis2web_2026_02_08-18_18_42_294353/js/address_search.js:136-137 | a provider settling runs the callbacks of its own search (the page and that search become exactly what `Deliver` makes of them, with the provider recorded as reported); every other search, the input and the timer are untouched |
| Page.Step | qgis2web_2026_02_08-18_18_42_294353/js/address_search.js:140-154 | click (only when enabled) and Enter submit, input runs the handler, a timer expiry launches the captured query |
| Page.StepInv | qgis2web_2026_02_08-18_18_42_294353/js/address_search.js:108-154 | every event keeps the invariant: only the current search is unaborted, the button is disabled iff the current search is unresolved, and a pending timer holds the trimmed field text |
| Page.RunInv | qgis2web_2026_02_08-18_18_42_294353/js/address_search.js:108-154 | any event sequence keeps the invariant |
| Page.ReachableInv | qgis2web_2026_02_08-18_18_42_294353/js/address_search.js:108-154 | every page reachable from the initial one satisfies the invariant |
| Page.SettledAtMostTwo | qgis2web_2026_02_08-18_18_42_294353/js/address_search.js:132-133 | no search ever counts more than two misses |
| Page.BlankSubmitLaunchesNothing | qgis2web_2026_02_08-18_18_42_294353/js/address_search.js:99-105 | submitting blank text launches nothing, shows the instructive error and leaves the button alone |
| Page.TypingKeepsLatestTimer | qgis2web_2026_02_08-18_18_42_294353/js/address_search.js:144-154 | after any run of keystrokes, no search has launched and the pending timer is exactly the one for the latest text, if it is long enough |
| Page.DebounceLaunchesLatest | qgis2web_2026_02_08-18_18_42_294353/js/address_search.js:144-154 | keystrokes followed by a timer expiry launch at most one search, for the last text |
| Page.SubmitKeepsTimer | qgis2web_2026_02_08-18_18_42_294353/js/address_search.js:99-106 | a submit leaves a pending timer in place |
| Page.EnterLaunchesLive | qgis2web_2026_02_08-18_18_42_294353/js/address_search.js:141-142 | Enter on non-blank text creates a fresh, live current search |
| Page.SubmitThenBothSettle | qgis2web_2026_02_08-18_18_42_294353/js/address_search.js:108-137 | Enter followed by both provider settlements, in either order, ends resolved with the button enabled and the verdict message |
| Page.SupersededSearchIsNoop | qgis2web_2026_02_08-18_18_42_294353/js/address_search.js:109-129 | an outcome of a superseded search never touches the button or any resolution; only a match's `showResult` clears the message |
| Page.StaleSearchKeepsButtonDisabled | qgis2web_2026_02_08-18_18_42_294353/js/address_search.js:118-123 | a stale current search cannot enable the button |
| Page.StaleSettleKeepsButton | qgis2web_2026_02_08-18_18_42_294353/js/address_search.js:118-123 | a settlement for any search whose query the field no longer reads leaves the button exactly as it was |
| Page.AdaptersNeverShowFailure | qgis2web_2026_02_08-18_18_42_294353/js/address_search.js:136-137 | when no outcome is a rejection, as with the real adapters, no search records an error and "Search failed" never appears |

## Left out

- `fetchWithTimeout` (the `AbortController` and listener wiring, `setTimeout` and cleanup): each attempt is an outcome, and a timeout is the `TimedOut` rejection.
- Building the Photon and Nominatim URLs (`URLSearchParams`, the bbox and viewbox from the floating-point region bounds): the URL is an opaque parameter. `encodeURIComponent` is an opaque function.
- `JSON.parse` and response shapes: a body is parsed or it is not, and Photon responses are well formed. A Photon feature missing `geometry` or `properties`, or with a short coordinate array, makes the source throw; those paths are not modelled.
- A Nominatim body of `null`, a number or a non-array object settles `false` in the source, because `data && data.length > 0` is false; the model represents such a body as the empty array. An array-like with a positive `length`, such as a JSON string, would reach `data[0]`; that is not modelled.
- `parseFloat` on Nominatim's lat/lon: the numbers are given directly, and NaN is not modelled. Coordinates are opaque reals.
- Leaflet and the DOM: marker styling, `removeLayer`, `openPopup` and the message element. Only the marker position, popup HTML, view centre and zoom, message text and error flag, and the button flag are state.
- Real time and concurrency: the 250 ms debounce delay and the 6000 ms attempt deadline are not measured; their expiries are the `TimerFires` event and the `TimedOut` rejection. Interleavings are event orders.
- Keys other than Enter in the `keydown` handler do nothing and are not modelled.
- Events that cannot happen are no-ops: a timer expiry with no timer pending, a settlement for an unknown search, and a second settlement from the same provider.
- Providers.TryPhoton: the direct path also falls back to the proxies when the parse step throws, for example on a malformed feature. With well-formed responses the parse never throws, so this path is absent.
