# Location picker controller, modelled in Dafny

This project models the stateful core of a React Native location picker. The picker shows a map, a search box with debounced place autocomplete, a "current location" button and a confirm button. Three source files hold all of the sequencing logic:

- `utils/debounce.js` defines the debounce helper. A closure holds the cells `timeout` and `callbackArgs`. Each call clears the pending timer, records its arguments and sets a new timer. The timer's `later` applies the callback and only then resets `timeout` to `null`.
- `src/AutoCompleteInput.js` defines the search box. It holds `text`, `predictions`, `loading` and `inFocus`, plus one cancel token `source`. The search lane and the reverse-geocode lane share that token.
- `src/LocationView.js` defines the screen. It holds the map region, which is merged with spread syntax. It also holds the screen's own focus flag and the last place details, and builds the payload for `onLocationSelect`.

Each file is a Dafny module with a class that has the source's fields. Its methods change those fields step by step: `Debounce.Debouncer`, `AutoComplete.AutoCompleteInput` and `Location.LocationView`. Every method that changes state is proved against a pure step function of the module, in the form `Model() == Step(old(Model()), ...)`. The methods that only read state (`GetAddress`, `OnPlaceSelected`, `GetCurrentLocation`, `OnActionPress`) ensure that their result is the corresponding function of the current state. The properties are stated on those step functions and proved as lemmas, some of them over whole event traces.

Modelling choices:

- **Time.** Time is a logical clock (`nat`).
- **Timers.** The runtime's timer queue is a map `pending` from timer id to deadline. Clearing a timer removes it from the map, and a removed timer never runs.
- **Timer ids.** The model numbers this wrapper's timers 1, 2, 3, …. Real handles are shared with every other timer of the app, so they are not consecutive, but they are positive and therefore always truthy for `if (timeout)`.
- **Requests.** Network requests are values returned by the methods. Responses are events that carry the request's token id.
- **Cancellation.** `inflight` is the set of requests whose `.then` can still run, each with its lane. Cancelling a token removes its entry, and so does the response that runs. This models axios cancellation: the `.then` of a cancelled request never runs.
- **Callbacks from outside.** Map callbacks, geolocation callbacks and place-detail responses are model inputs. Calls out of the component are returned to the caller: `animateToRegion`, the blur of the native text box and the geolocation request.
- **JavaScript objects.** A region is a `map<string, real>`, so `{...a, ...b}` is `a + b`. An `undefined` value is `None`, for example the search box's `text` before the first keystroke.
- **Text length.** The `text.length >= 3` gate counts UTF-16 code units, as JavaScript does (`AutoComplete.Utf16Length`).

Behaviours of the code that the model keeps as written:

- **Debounced clear.** Clearing `predictions` for short text is debounced like the rest of `_request` (`src/AutoCompleteInput.js:28`). It is not immediate.
- **One shared token.** Search and reverse geocode share one `source` field. A search fire therefore cancels a live reverse geocode (`AutoComplete.SearchCancelsGeocode`).
- **Orphaned requests.** `fetchAddressForLocation` replaces `source` without cancelling the earlier request. That request stays live, and its response still applies. An orphaned reverse geocode sets `text` and ends loading (`AutoComplete.OrphanedGeocodeStillApplies`). An orphaned search fills `predictions` while `loading` is still true (`AutoComplete.OrphanedSearchStillApplies`).
- **No failure handling.** There is no `.catch`, so a request that never answers leaves `loading` as it was.

Other behaviours of the code that the model makes explicit:

- **Re-entrant wrapper call.** `timeout = null` runs after the callback returns. A wrapper call made from inside the callback therefore sets a timer that the next call cannot clear, and two invocations end up pending (`Debounce.ReentrantCallEscapes`). Without such calls, at most one invocation is ever pending (`Debounce.AtMostOnePending`).
- **Unmount.** Unmounting the search box cancels the token but not the debounce timer. Unmounting is exactly `_abortRequest`: only the current token dies, and orphaned requests stay live. A pending `_request` still runs afterwards and can send a search (`AutoComplete.RequestAfterUnmount`).
- **Place details.** Place-detail requests carry no cancel token, so whichever response arrives last wins.
- **Search language.** The screen does not pass `language` to its search box, so its searches always use `"en"` (`Location.InputProps`).

## Model

| member | source | states |
|---|---|---|
| Debounce.Init | utils/debounce.js:2-3 | a fresh wrapper has no timer pending and is quiet |
| Debounce.Called | utils/debounce.js:10-16 | a call records its arguments as the latest and clears the timer held in `timeout`; it sets one new timer due `wait` after the call, without running the callback; timers orphaned earlier survive; the pending count grows by at most one |
| Debounce.Expired | utils/debounce.js:5-6 | the callback runs iff the timer is still pending, and then with the latest recorded arguments; `timeout` still holds its handle while the callback runs |
| Debounce.Finished | utils/debounce.js:7 | after the callback returns, `timeout` is null and no pending timer is cleared |
| Debounce.CallAll | utils/debounce.js:10-16 | after a burst of calls, the latest arguments are the last call's and the only timer besides earlier orphans is due `wait` after the last call; from a quiet state it is the only timer at all |
| Debounce.Fired | utils/debounce.js:5-8 | a run of `later` invokes the callback iff its timer is pending, with the latest arguments, and leaves `timeout` null; with no call from the callback the only other change is that its own timer leaves `pending`; when the callback calls the wrapper, the latest arguments are the last such call's, the id counter advances by the number of calls, and the last call's timer joins the timers left pending by earlier calls; from a quiet state with no re-entrant call it stays quiet, and nothing is pending once its timer has run |
| Debounce.Step | utils/debounce.js:5-16 | a wrapper call never invokes the callback synchronously; a timer event invokes it iff that timer is pending |
| Debounce.InvocationsBounded | utils/debounce.js:5-16 | over any trace, callbacks run plus callbacks still pending never exceed the pending ones at the start plus the wrapper calls actually made, where a callback's own calls count only when it runs |
| Debounce.InvocationsAtMostCalls | utils/debounce.js:5-16 | from a fresh wrapper, the callback runs no more often than the wrapper is actually called |
| Debounce.QuietHasAtMostOne | utils/debounce.js:11-15 | when every pending timer is the one in `timeout`, at most one invocation is pending |
| Debounce.AtMostOnePending | utils/debounce.js:11-15 | if no callback calls the wrapper, at most one invocation is ever pending |
| Debounce.BurstYieldsOneCallback | utils/debounce.js:10-16 | a burst of calls with no fire between them leaves exactly one timer, due `wait` after the last call; only that timer runs the callback, with the last call's arguments, and afterwards nothing is pending |
| Debounce.ReentrantCallEscapes | utils/debounce.js:5-8 | a wrapper call made inside the callback is forgotten by `timeout = null`; the next call cannot clear it, so two invocations are pending, both holding the latest arguments |
| Debounce.Debouncer.constructor | utils/debounce.js:1-3 | the closure starts with both cells null, no timer and the given `wait` |
| Debounce.Debouncer.Call | utils/debounce.js:10-16 | the wrapper's effect on the cells and timers is exactly `Called` |
| Debounce.Debouncer.Expire | utils/debounce.js:5-6 | the start of `later` is exactly `Expired` and returns the arguments the callback gets |
| Debounce.Debouncer.Finish | utils/debounce.js:7 | the end of `later` is exactly `Finished` |
| AutoComplete.Utf16Length | src/AutoCompleteInput.js:67 | the length the gate compares lies between the character count and twice it, and equals it for text inside the Basic Multilingual Plane |
| AutoComplete.Join | src/AutoCompleteInput.js:76 | `components.join('|')`: no components give `""`, a single one is passed unchanged, and with more the first is followed by `|` |
| AutoComplete.Field | src/AutoCompleteInput.js:49 | destructuring `latitude` or `longitude` gives the location's value when the key is present and `undefined` otherwise |
| AutoComplete.SplitJoin | src/AutoCompleteInput.js:76 | a non-empty `components` list whose entries contain no `|` is recovered from its joined parameter |
| AutoComplete.JoinSplit | src/AutoCompleteInput.js:76 | every string is the `|`-join of its pieces |
| AutoComplete.PropsOf | src/AutoCompleteInput.js:21-24 | the language is `"en"` and the components are `[]` unless the parent passes them; the key and debounce duration are as passed |
| AutoComplete.Mounted | src/AutoCompleteInput.js:26-39 | the box starts with no text, no predictions, not loading, unfocused and with no request live |
| AutoComplete.Aborted | src/AutoCompleteInput.js:41-45 | cancelling removes exactly the current token from the live requests and changes nothing else; if only the current token was live, nothing is live afterwards |
| AutoComplete.Requested | src/AutoCompleteInput.js:65-86 | `_request` first cancels the current token; text shorter than 3 empties `predictions` and sends nothing; longer text makes a fresh token current and sends exactly one search with `input` = text, the key, the language and the components joined by `|`, leaving the rest of the box's state alone |
| AutoComplete.ChangedText | src/AutoCompleteInput.js:88-91 | a keystroke sets `text` at once and only calls the debounced wrapper; no request is sent and no token changes |
| AutoComplete.TimerFired | src/AutoCompleteInput.js:28 | a debounce timer that is pending runs `_request` on the latest text and then resets the debouncer exactly as `later` does; one that is not pending changes nothing |
| AutoComplete.SearchResponded | src/AutoCompleteInput.js:79-82 | a live search's response replaces `predictions` wholesale and touches nothing else; a cancelled or unknown token's response changes nothing |
| AutoComplete.FetchedAddress | src/AutoCompleteInput.js:47-63 | the box starts loading with empty `predictions` and sends one reverse geocode for the location's latitude and longitude under a fresh token, which becomes current; the previous token is not cancelled, and every live request stays live |
| AutoComplete.GeocodeResponded | src/AutoCompleteInput.js:55-62 | a live reverse geocode's response ends loading; it sets `text` to the first result's formatted address when there is one, and leaves it unchanged otherwise; a cancelled token's response changes nothing |
| AutoComplete.Focused | src/AutoCompleteInput.js:93-97 | focus cancels the current token, ends loading and sets `inFocus`; `text` and `predictions` stay |
| AutoComplete.Blurred | src/AutoCompleteInput.js:99-102 | blur clears `inFocus` and changes nothing else |
| AutoComplete.PressedClear | src/AutoCompleteInput.js:108-110 | clear sets `text` to empty and `predictions` to none; no token or timer changes |
| AutoComplete.Address | src/AutoCompleteInput.js:119 | `getAddress` is empty while loading and `text` otherwise |
| AutoComplete.Unmounted | src/AutoCompleteInput.js:31-33 | unmounting is exactly `_abortRequest`: only the current token dies, orphaned requests stay live, and the token counter, the debounce timer and the UI state are kept |
| AutoComplete.Step | src/AutoCompleteInput.js:28-110 | only a debounce fire or an address fetch sends a request; every event keeps the state well formed |
| AutoComplete.StepKeepsOnlyCurrentLive | src/AutoCompleteInput.js:41-68 | once only the current token is live, every event keeps it so, except an address fetch while a request is live |
| AutoComplete.OnlyCurrentLiveWithoutFetch | src/AutoCompleteInput.js:65-82 | in any trace without an address fetch, only the current token's response can ever apply |
| AutoComplete.StaleResponsesAreInert | src/AutoCompleteInput.js:79-82 | while only the current token is live, a response to any other token changes nothing |
| AutoComplete.OrphanedGeocodeStillApplies | src/AutoCompleteInput.js:47-62 | a second address fetch leaves the first request live but not current; its response still sets `text` and ends loading while the newer request is outstanding |
| AutoComplete.OrphanedSearchStillApplies | src/AutoCompleteInput.js:47-53 | a search still live at an address fetch is no longer current, yet its response fills `predictions` while `loading` is true |
| AutoComplete.SearchCancelsGeocode | src/AutoCompleteInput.js:65-68 | a debounce fire cancels a current reverse geocode through the shared token, after which its response changes nothing |
| AutoComplete.TypeAllIsKeystrokes | src/AutoCompleteInput.js:88-91 | typing a burst, where the debouncer takes every call and `text` is the last one, is `_onChangeText` for its first keystroke followed by typing the rest |
| AutoComplete.LoneTimerRequests | src/AutoCompleteInput.js:65-86 | when the debounce timer is the only one pending, running it applies the length gate to the latest text: a search for exactly that text under a fresh current token, or empty `predictions` and no request; nothing is pending afterwards, and no other timer does anything |
| AutoComplete.StepKeepsQuiet | utils/debounce.js:11-15 | no event of the search box leaves an orphaned debounce timer, because the wrapper clears the timer it replaces and `_request` never calls it back |
| AutoComplete.QuietAlongRun | utils/debounce.js:11-15 | along any trace from a quiet box, for example from `Mounted`, the box stays quiet and at most one `_request` is pending, so the burst lemmas apply after any history |
| AutoComplete.BurstLeavesOneTimer | src/AutoCompleteInput.js:88-91 | after a burst of keystrokes, `text` is the last one and one debounce timer is pending, due `debounceDuration` after the last keystroke and holding its text |
| AutoComplete.BurstSearchesLastText | src/AutoCompleteInput.js:65-91 | when that timer runs, the length gate sees only the last text: a search for exactly it if its length is at least 3, or empty `predictions` and no request otherwise; no other timer runs `_request` |
| AutoComplete.DeadStaysDead | src/AutoCompleteInput.js:41-45 | a token that was handed out and is no longer live stays dead through any later events, address fetches included, so a cancelled request's `.then` never runs |
| AutoComplete.KeystrokesRunAsTypeAll | src/AutoCompleteInput.js:88-91 | running the `_onChangeText` events of a burst sends no request and ends in exactly the state the burst lemmas describe |
| AutoComplete.RequestAfterUnmount | src/AutoCompleteInput.js:31-33 | a `_request` timer pending at unmount still runs and still sends a search |
| AutoComplete.AddressFollowsGeocode | src/AutoCompleteInput.js:47-61 | after an address fetch `getAddress` is empty, and once the answer with results applies it is the first formatted address |
| AutoComplete.AutoCompleteInput.constructor | src/AutoCompleteInput.js:26-39 | the box's debounced `_request` waits `debounceDuration`; the initial state is `Mounted` |
| AutoComplete.AutoCompleteInput.AbortRequest | src/AutoCompleteInput.js:41-45 | exactly `Aborted` on the instance's fields |
| AutoComplete.AutoCompleteInput.FetchAddressForLocation | src/AutoCompleteInput.js:47-63 | exactly `FetchedAddress`, returning the request sent |
| AutoComplete.AutoCompleteInput.Request | src/AutoCompleteInput.js:65-86 | exactly `Requested`, returning the search sent, if any |
| AutoComplete.AutoCompleteInput.OnChangeText | src/AutoCompleteInput.js:88-91 | exactly `ChangedText`, through the debouncer object |
| AutoComplete.AutoCompleteInput.OnRequestTimer | src/AutoCompleteInput.js:28 | exactly `TimerFired`: the debouncer's `later` wrapped around `_request` |
| AutoComplete.AutoCompleteInput.OnSearchResponse | src/AutoCompleteInput.js:79-82 | exactly `SearchResponded` |
| AutoComplete.AutoCompleteInput.OnGeocodeResponse | src/AutoCompleteInput.js:55-62 | exactly `GeocodeResponded` |
| AutoComplete.AutoCompleteInput.OnFocus | src/AutoCompleteInput.js:93-97 | exactly `Focused` |
| AutoComplete.AutoCompleteInput.OnBlur | src/AutoCompleteInput.js:99-102 | exactly `Blurred` |
| AutoComplete.AutoCompleteInput.OnPressClear | src/AutoCompleteInput.js:108-110 | exactly `PressedClear` |
| AutoComplete.AutoCompleteInput.GetAddress | src/AutoCompleteInput.js:119 | returns the empty string while loading and `text` otherwise, without changing state |
| AutoComplete.AutoCompleteInput.ComponentWillUnmount | src/AutoCompleteInput.js:31-33 | exactly `Unmounted` |
| Location.DefaultProps | src/LocationView.js:36-45 | the defaults the screen reads: debounce 300, no components, timeout 15000, any cached age, high accuracy |
| Location.DefaultScreen | src/LocationView.js:36-45 | a screen given only the required props has a search box waiting 300 with language `"en"` and no components, and asks for a fix with high accuracy, timeout 15000 and any cached age |
| Location.InputProps | src/LocationView.js:154-160 | the search box gets the screen's key, debounce duration and components, and the default language `"en"` |
| Location.Merge | src/LocationView.js:104 | the merged region has the fields of both; the new fields win and every other old field keeps its value |
| Location.InitialRegion | src/LocationView.js:69-72 | the initial region has both deltas, 0.015 and 0.0121 unless the initial location overrides them, and every field of the initial location |
| Location.Project | src/LocationView.js:111 | a place location `{lat, lng}` becomes exactly `{latitude: lat, longitude: lng}` |
| Location.CoordsRegion | src/LocationView.js:121-122 | a geolocation fix contributes exactly its latitude and longitude |
| Location.Mounted | src/LocationView.js:66-73 | the screen starts unfocused, with no place details, the initial region and a freshly mounted search box |
| Location.RegionSet | src/LocationView.js:103-106 | the given fields override and all others stay; `animateToRegion` is called with the merged region iff `animate` |
| Location.RegionChanged | src/LocationView.js:82-87 | a region change is stored without animating, and the search box is blurred iff the screen's `inFocus` is set |
| Location.RegionChangeCompleted | src/LocationView.js:89-91 | a completed region change makes the search box reverse-geocode exactly that region's latitude and longitude; the screen's own state stays |
| Location.TextFocused | src/LocationView.js:93-96 | the screen's `inFocus` becomes true and nothing else changes |
| Location.TextBlurred | src/LocationView.js:98-101 | the screen's `inFocus` becomes false and nothing else changes |
| Location.DetailRequestFor | src/LocationView.js:110 | the place-detail request carries the key and the selected place id |
| Location.PlaceDetailReceived | src/LocationView.js:110-114 | a place-detail answer sets latitude and longitude from the result's `lat` and `lng`, keeps every other field (the deltas among them), animates to the new region and stores the result as `placeDetails` |
| Location.LocationRequest | src/LocationView.js:117-131 | the geolocation request uses the screen's accuracy, timeout and maximum age |
| Location.PositionReceived | src/LocationView.js:119-124 | a fix merges only its latitude and longitude and animates; an error leaves everything unchanged |
| Location.MapPressed | src/LocationView.js:143 | a map press merges the pressed coordinate and animates |
| Location.RegionFields | src/LocationView.js:170 | the payload keeps every region field except those named `address` or `placeDetails`, which later keys overwrite |
| Location.Selected | src/LocationView.js:170 | `onLocationSelect` gets the current region's fields, the search box's `getAddress()` and the stored place details |
| Location.ViewStep | src/LocationView.js:82-143 | no screen event removes a field from the region |
| Location.RegionFieldsOnlyGrow | src/LocationView.js:103-106 | over any trace, the region's fields only grow |
| Location.SelectionKeepsDeltas | src/LocationView.js:69-72 | after any trace from mount, the selection payload carries both deltas |
| Location.LocationView.constructor | src/LocationView.js:66-73 | the screen and its search box start as `Mounted` |
| Location.LocationView.SetRegion | src/LocationView.js:103-106 | exactly `RegionSet`, returning the region animated to, if any |
| Location.LocationView.OnMapRegionChange | src/LocationView.js:82-87 | exactly `RegionChanged`, returning whether the box is blurred |
| Location.LocationView.OnMapRegionChangeComplete | src/LocationView.js:89-91 | exactly `RegionChangeCompleted`, through the search box object |
| Location.LocationView.OnTextFocus | src/LocationView.js:93-96 | exactly `TextFocused` |
| Location.LocationView.OnTextBlur | src/LocationView.js:98-101 | exactly `TextBlurred` |
| Location.LocationView.OnPlaceSelected | src/LocationView.js:108-110 | always blurs the search box and requests the details of the selected place, without changing state |
| Location.LocationView.OnPlaceDetail | src/LocationView.js:110-114 | exactly `PlaceDetailReceived` |
| Location.LocationView.GetCurrentLocation | src/LocationView.js:117-131 | asks for a fix with the screen's options, without changing state |
| Location.LocationView.OnPosition | src/LocationView.js:119-124 | exactly `PositionReceived` |
| Location.LocationView.OnMapPress | src/LocationView.js:143 | exactly `MapPressed` |
| Location.LocationView.OnActionPress | src/LocationView.js:170 | returns the payload `Selected` describes, without changing state |

## Left out

- Rendering, styles and animation are left out because they are presentation only. This covers every `render`, the style sheets, `_animateInput`, `_getClearButton`, `LayoutAnimation` and the "Loading..." text shown in the box.
- src/AutoCompleteListView.js is not part of this model. It only drives row styling and publishes the tapped row's `place_id`, which arrives here as the argument of `OnPlaceSelected`.
- The event relay is left out because it is an external library. This covers `Events.listen`, `Events.rm` and `Events.trigger`, and the `componentDidMount`/`componentWillUnmount` of the screen. `InputFocus` and `InputBlur` reach the screen as calls of `OnTextFocus` and `OnTextBlur`.
- The search box's `blur()` is not modelled, because it calls the native text box. Callers see a returned "blur the box" flag instead. The `onBlur` this leads to later arrives as a separate event.
- axios and the Google endpoints are left out. This covers URL building, the API key's place in the URL, transport errors and response parsing beyond the fields read. Requests are values with their parameters, and cancellation only means that the `.then` never runs.
- The maps SDK, geolocation and real timers are external. Their callbacks are inputs, and time is a logical clock.
- Debounce.Fired: the environment chooses which pending timer runs. Running order by deadline is not enforced, although each timer's deadline is recorded.
- AutoComplete.Unmounted: after unmount React ignores every `setState`, but the model still applies them to `ui`. This includes the `.then` of an orphaned reverse geocode (src/AutoCompleteInput.js:56 and 60), the `.then` of a search sent by a late `_request` (line 81) and that `_request`'s own clearing of `predictions` (line 84). No lemma depends on the UI state after unmount.
- React's `setState` batching is not modelled, because no handler reads the state after its own `setState`. Each `setState` is modelled as an immediate merge.
- Key order of JavaScript objects is not modelled, and neither are region values other than numbers.
- Floating point is not modelled, because coordinates are only copied.
- The place-detail result is reduced to its `geometry.location`. Its other fields are not modelled, because they are only passed on inside `placeDetails`.
