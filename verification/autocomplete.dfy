/**
 * The search box of src/AutoCompleteInput.js: a place-autocomplete query
 * controller and a reverse-geocode controller that share one cancel token.
 *
 * A request is a value carrying the id of the cancel token it was sent with.
 * Axios cancellation means that the `.then` of a cancelled request never runs,
 * so the controller keeps `inflight`: the requests whose `.then` can still
 * run. Cancelling a token removes it, and so does the response that runs.
 */
module AutoComplete {
  import opened Options
  import Debounce

  /** `_request` searches only for text at least this long (line 67). */
  const MinQueryLength: nat := 3
  /** `defaultProps.language` (line 22). */
  const DefaultLanguage: string := "en"
  /** The separator of `components.join('|')` (line 76). */
  const ComponentSeparator: char := '|'

  /** JavaScript's `String.prototype.length`: UTF-16 code units, so a
      character outside the Basic Multilingual Plane counts twice. */
  function Utf16Length(s: string): (n: nat)
    ensures |s| <= n <= 2 * |s|
    ensures (forall i :: 0 <= i < |s| ==> s[i] as int < 0x1_0000) ==> n == |s|
  {
    if s == [] then 0
    else
      assert forall i :: 0 <= i < |s[1..]| ==> s[1..][i] == s[i + 1];
      (if s[0] as int < 0x1_0000 then 1 else 2) + Utf16Length(s[1..])
  }

  /** `Array.prototype.join(sep)` on an array of strings. */
  function Join(parts: seq<string>, sep: char): (r: string)
    ensures |parts| == 0 ==> r == ""
    ensures |parts| == 1 ==> r == parts[0]
    ensures |parts| > 1 ==> parts[0] + [sep] <= r
    decreases |parts|
  {
    if |parts| == 0 then ""
    else if |parts| == 1 then parts[0]
    else parts[0] + [sep] + Join(parts[1..], sep)
  }

  /** Cutting a string at every `sep`: the inverse of `Join`, stated to show
      what the joined `components` parameter keeps. */
  function Split(s: string, sep: char): (r: seq<string>)
    ensures |r| >= 1
  {
    if s == [] then [""]
    else
      var rest := Split(s[1..], sep);
      if s[0] == sep then [""] + rest else [[s[0]] + rest[0]] + rest[1..]
  }

  lemma {:induction false} SplitWithoutSeparator(p: string, sep: char)
    requires sep !in p
    ensures Split(p, sep) == [p]
  {
    if p != [] {
      SplitWithoutSeparator(p[1..], sep);
      assert [p[0]] + p[1..] == p;
    }
  }

  lemma {:induction false} SplitAtSeparator(p: string, sep: char, t: string)
    requires sep !in p
    ensures Split(p + [sep] + t, sep) == [p] + Split(t, sep)
  {
    if p == [] {
      assert (p + [sep] + t)[1..] == t;
    } else {
      SplitAtSeparator(p[1..], sep, t);
      assert (p + [sep] + t)[1..] == p[1..] + [sep] + t;
      assert [p[0]] + p[1..] == p;
    }
  }

  /** Joined parts that do not contain the separator can be recovered. */
  lemma {:induction false} SplitJoin(parts: seq<string>, sep: char)
    requires |parts| >= 1
    requires forall i :: 0 <= i < |parts| ==> sep !in parts[i]
    ensures Split(Join(parts, sep), sep) == parts
    decreases |parts|
  {
    if |parts| == 1 {
      SplitWithoutSeparator(parts[0], sep);
    } else {
      SplitJoin(parts[1..], sep);
      SplitAtSeparator(parts[0], sep, Join(parts[1..], sep));
      assert [parts[0]] + parts[1..] == parts;
    }
  }

  /** Cutting a string and joining the pieces gives the string back. */
  lemma {:induction false} JoinSplit(s: string, sep: char)
    ensures Join(Split(s, sep), sep) == s
  {
    if s != [] {
      var rest := Split(s[1..], sep);
      JoinSplit(s[1..], sep);
      if s[0] == sep {
        assert ([""] + rest)[1..] == rest;
      } else if |rest| > 1 {
        var head := [[s[0]] + rest[0]] + rest[1..];
        assert head[1..] == rest[1..];
        assert Join(rest, sep) == rest[0] + [sep] + Join(rest[1..], sep);
      }
      assert [s[0]] + s[1..] == s;
    }
  }

  /** The id of a `CancelToken.source()`. */
  type TokenId = nat

  /** `predictions[i]` of a search response: `place_id` and the
      `structured_formatting` texts. */
  datatype Prediction = Prediction(placeId: string, mainText: string, secondaryText: string)

  /** `results[i]` of a reverse-geocode response; only `formatted_address` is read. */
  datatype GeocodeResult = GeocodeResult(formattedAddress: string)

  /** The props the controller reads (lines 14-24). */
  datatype Props = Props(apiKey: string, language: string, debounceDuration: nat, components: seq<string>)

  /** The props after `defaultProps` fills in what the parent left out. */
  function PropsOf(apiKey: string, debounceDuration: nat, language: Option<string>, components: Option<seq<string>>): (p: Props)
    ensures p.apiKey == apiKey && p.debounceDuration == debounceDuration
    ensures p.language == (if language.Some? then language.value else "en")
    ensures p.components == (if components.Some? then components.value else [])
  {
    Props(apiKey,
          if language.Some? then language.value else DefaultLanguage,
          debounceDuration,
          if components.Some? then components.value else [])
  }

  /** Which `.then` a request has: search (lines 79-82) or reverse geocode (lines 55-62). */
  datatype Kind = SearchKind | GeocodeKind

  /** The requests sent through axios, with their query parameters. */
  datatype Request =
    | Search(token: TokenId, input: string, key: string, language: string, components: string)
    | Geocode(token: TokenId, key: string, latitude: Option<real>, longitude: Option<real>)

  /** A field of a JavaScript object: `undefined` when the key is missing. */
  function Field(m: map<string, real>, key: string): (v: Option<real>)
    ensures v.Some? <==> key in m
    ensures v.Some? ==> v.value == m[key]
  {
    if key in m then Some(m[key]) else None
  }

  /** `this.state`. `text` is `undefined` until the first change. */
  datatype Ui = Ui(text: Option<string>, predictions: seq<Prediction>, loading: bool, inFocus: bool)

  datatype Input = Input(
    ui: Ui,                         // `this.state`
    source: Option<TokenId>,        // `this.source`
    inflight: map<TokenId, Kind>,   // requests whose `.then` can still run
    nextToken: TokenId,             // the id the next `CancelToken.source()` gets
    timer: Debounce.State<string>)  // the closure of the debounced `_request`

  predicate WellFormed(s: Input) {
    && Debounce.WellFormed(s.timer)
    && (forall t :: t in s.inflight ==> t < s.nextToken)
    && (s.source.Some? ==> s.source.value < s.nextToken)
  }

  /** Only the request of the current token can still apply. */
  predicate OnlyCurrentLive(s: Input) {
    forall t :: t in s.inflight ==> s.source == Some(t)
  }

  /** Whether the `.then` of a request of this kind with this token still runs. */
  predicate Live(s: Input, token: TokenId, kind: Kind) {
    token in s.inflight && s.inflight[token] == kind
  }

  /** The component as mounted (lines 26-39). */
  function Mounted(): (s: Input)
    ensures WellFormed(s) && OnlyCurrentLive(s) && Debounce.Quiet(s.timer)
    ensures s.ui == Ui(None, [], false, false) && s.inflight == map[]
  {
    Input(Ui(None, [], false, false), None, map[], 0, Debounce.Init())
  }

  /** `_abortRequest` (lines 41-45): cancels the current token, so the
      `.then` of its request never runs. `source` still names it. */
  function Aborted(s: Input): (r: Input)
    requires WellFormed(s)
    ensures WellFormed(r)
    ensures r.ui == s.ui && r.source == s.source && r.nextToken == s.nextToken && r.timer == s.timer
    ensures forall t :: t in r.inflight <==> t in s.inflight && s.source != Some(t)
    ensures forall t :: t in r.inflight ==> r.inflight[t] == s.inflight[t]
    ensures OnlyCurrentLive(s) ==> r.inflight == map[]
  {
    var r := if s.source.Some? then s.(inflight := s.inflight - {s.source.value}) else s;
    assert OnlyCurrentLive(s) ==> forall t :: t !in r.inflight;
    r
  }

  /** The body of `_request` (lines 65-86), run by the debounce timer. It
      cancels the current token first. Text shorter than `MinQueryLength`
      empties `predictions` and sends nothing. Longer text makes a fresh
      token current and sends exactly one search for that text. */
  function Requested(s: Input, p: Props, text: string): (r: (Input, Option<Request>))
    requires WellFormed(s)
    ensures WellFormed(r.0) && r.0.timer == s.timer
    ensures s.source.Some? ==> s.source.value !in r.0.inflight
    ensures r.1.Some? <==> Utf16Length(text) >= MinQueryLength
    ensures r.1.None? ==>
      && r.0.ui == s.ui.(predictions := [])
      && r.0.source == s.source && r.0.inflight == Aborted(s).inflight && r.0.nextToken == s.nextToken
    ensures r.1.Some? ==>
      && r.1.value == Search(s.nextToken, text, p.apiKey, p.language, Join(p.components, ComponentSeparator))
      && r.0.ui == s.ui
      && s.nextToken !in s.inflight
      && r.0.source == Some(s.nextToken) && r.0.nextToken == s.nextToken + 1
      && r.0.inflight == Aborted(s).inflight[s.nextToken := SearchKind]
    ensures OnlyCurrentLive(s) ==> OnlyCurrentLive(r.0)
  {
    var a := Aborted(s);
    if Utf16Length(text) >= MinQueryLength then
      var token := a.nextToken;
      var req := Search(token, text, p.apiKey, p.language, Join(p.components, ComponentSeparator));
      (a.(source := Some(token), inflight := a.inflight[token := SearchKind], nextToken := token + 1), Some(req))
    else
      (a.(ui := a.ui.(predictions := [])), None)
  }

  /** `_onChangeText` (lines 88-91): the debounced `_request` is called with
      the text and `text` is set at once. No request is sent now. */
  function ChangedText(s: Input, p: Props, text: string, now: nat): (r: Input)
    requires WellFormed(s)
    ensures WellFormed(r)
    ensures r.ui == s.ui.(text := Some(text))
    ensures r.source == s.source && r.inflight == s.inflight && r.nextToken == s.nextToken
    ensures r.timer == Debounce.Called(s.timer, p.debounceDuration, Debounce.Arrival(text, now))
    ensures r.timer.callbackArgs == Some(text)
  {
    s.(timer := Debounce.Called(s.timer, p.debounceDuration, Debounce.Arrival(text, now)),
       ui := s.ui.(text := Some(text)))
  }

  /** Timer `id` of the debounced `_request` runs (utils/debounce.js:5-8,
      line 28): if it is pending, `_request` runs with the text of the latest
      call, and `timeout` is reset afterwards. */
  function TimerFired(s: Input, p: Props, id: Debounce.TimerId): (r: (Input, Option<Request>))
    requires WellFormed(s)
    ensures WellFormed(r.0)
    ensures id !in s.timer.pending ==> r == (s, None)
    ensures id in s.timer.pending ==>
      && s.timer.callbackArgs.Some?
      && (r.0.(timer := s.timer), r.1) == Requested(s, p, s.timer.callbackArgs.value)
      && r.0.timer == Debounce.Fired(s.timer, p.debounceDuration, id, []).0
  {
    var (t, args) := Debounce.Expired(s.timer, id);
    if args.None? then (s, None)
    else
      var (u, req) := Requested(s.(timer := t), p, args.value);
      (u.(timer := Debounce.Finished(u.timer)), req)
  }

  /** The `.then` of a search (lines 79-82): replaces `predictions` wholesale
      and touches nothing else, but only while the request can still apply. */
  function SearchResponded(s: Input, token: TokenId, predictions: seq<Prediction>): (r: Input)
    requires WellFormed(s)
    ensures WellFormed(r)
    ensures Live(s, token, SearchKind) ==>
      && r.ui == s.ui.(predictions := predictions)
      && r.source == s.source && r.nextToken == s.nextToken && r.timer == s.timer
      && r.inflight == s.inflight - {token}
    ensures !Live(s, token, SearchKind) ==> r == s
    ensures OnlyCurrentLive(s) ==> OnlyCurrentLive(r)
  {
    if Live(s, token, SearchKind) then
      s.(ui := s.ui.(predictions := predictions), inflight := s.inflight - {token})
    else
      s
  }

  /** `fetchAddressForLocation` (lines 47-63): shows the loading state,
      empties `predictions` and sends one reverse geocode for the location's
      `latitude` and `longitude` under a fresh token. The previous token is
      replaced without being cancelled, so its request stays live. */
  function FetchedAddress(s: Input, p: Props, location: map<string, real>): (r: (Input, Request))
    requires WellFormed(s)
    ensures WellFormed(r.0)
    ensures r.0.ui == s.ui.(loading := true, predictions := [])
    ensures r.1 == Geocode(s.nextToken, p.apiKey, Field(location, "latitude"), Field(location, "longitude"))
    ensures s.nextToken !in s.inflight
    ensures r.0.source == Some(s.nextToken) && r.0.nextToken == s.nextToken + 1
    ensures r.0.inflight == s.inflight[s.nextToken := GeocodeKind]
    ensures forall t :: t in s.inflight ==> t in r.0.inflight
    ensures r.0.timer == s.timer
  {
    var token := s.nextToken;
    var req := Geocode(token, p.apiKey, Field(location, "latitude"), Field(location, "longitude"));
    (s.(ui := s.ui.(loading := true, predictions := []),
        source := Some(token), inflight := s.inflight[token := GeocodeKind], nextToken := token + 1),
     req)
  }

  /** The `.then` of a reverse geocode (lines 55-62): ends the loading state
      and, when there is at least one result, shows the first result's
      formatted address; with no result `text` stays as it was. */
  function GeocodeResponded(s: Input, token: TokenId, results: seq<GeocodeResult>): (r: Input)
    requires WellFormed(s)
    ensures WellFormed(r)
    ensures Live(s, token, GeocodeKind) ==>
      && !r.ui.loading
      && r.ui.text == (if |results| > 0 then Some(results[0].formattedAddress) else s.ui.text)
      && r.ui.predictions == s.ui.predictions && r.ui.inFocus == s.ui.inFocus
      && r.source == s.source && r.nextToken == s.nextToken && r.timer == s.timer
      && r.inflight == s.inflight - {token}
    ensures !Live(s, token, GeocodeKind) ==> r == s
    ensures OnlyCurrentLive(s) ==> OnlyCurrentLive(r)
  {
    if Live(s, token, GeocodeKind) then
      var ui := s.ui.(loading := false);
      var ui' := if |results| > 0 then ui.(text := Some(results[0].formattedAddress)) else ui;
      s.(ui := ui', inflight := s.inflight - {token})
    else
      s
  }

  /** `_onFocus` (lines 93-97): cancels the current token and ends the
      loading state; `text` and `predictions` stay. */
  function Focused(s: Input): (r: Input)
    requires WellFormed(s)
    ensures WellFormed(r)
    ensures r.ui.inFocus && !r.ui.loading
    ensures r.ui.text == s.ui.text && r.ui.predictions == s.ui.predictions
    ensures r.source == s.source && r.nextToken == s.nextToken && r.timer == s.timer
    ensures r.inflight == Aborted(s).inflight
    ensures s.source.Some? ==> s.source.value !in r.inflight
    ensures OnlyCurrentLive(s) ==> r.inflight == map[]
  {
    var a := Aborted(s);
    a.(ui := a.ui.(loading := false, inFocus := true))
  }

  /** `_onBlur` (lines 99-102): only `inFocus` changes. */
  function Blurred(s: Input): (r: Input)
    ensures r.ui.text == s.ui.text && r.ui.predictions == s.ui.predictions && r.ui.loading == s.ui.loading
    ensures !r.ui.inFocus
    ensures r.source == s.source && r.inflight == s.inflight && r.nextToken == s.nextToken && r.timer == s.timer
  {
    s.(ui := s.ui.(inFocus := false))
  }

  /** `_onPressClear` (lines 108-110): empties `text` and `predictions`; no
      token is cancelled and no timer is cleared. */
  function PressedClear(s: Input): (r: Input)
    ensures r.ui.text == Some("") && r.ui.predictions == []
    ensures r.ui.loading == s.ui.loading && r.ui.inFocus == s.ui.inFocus
    ensures r.source == s.source && r.inflight == s.inflight && r.nextToken == s.nextToken && r.timer == s.timer
  {
    s.(ui := s.ui.(text := Some(""), predictions := []))
  }

  /** `getAddress` (line 119): the empty string while loading, `text` otherwise. */
  function Address(ui: Ui): (a: Option<string>)
    ensures ui.loading ==> a == Some("")
    ensures !ui.loading ==> a == ui.text
  {
    if ui.loading then Some("") else ui.text
  }

  /** `componentWillUnmount` (lines 31-33): cancels the current token. The
      debounce timer is not cleared. */
  function Unmounted(s: Input): (r: Input)
    requires WellFormed(s)
    ensures WellFormed(r)
    ensures r == Aborted(s)
    ensures r.ui == s.ui && r.timer == s.timer && r.source == s.source
    ensures s.source.Some? ==> s.source.value !in r.inflight
  {
    Aborted(s)
  }

  /** The events the component reacts to. */
  datatype Event =
    | ChangeText(text: string, now: nat)
    | RequestTimer(id: Debounce.TimerId)
    | SearchResponse(token: TokenId, predictions: seq<Prediction>)
    | FetchAddress(location: map<string, real>)
    | GeocodeResponse(token: TokenId, results: seq<GeocodeResult>)
    | Focus
    | Blur
    | PressClear
    | Unmount

  function Step(s: Input, p: Props, e: Event): (r: (Input, Option<Request>))
    requires WellFormed(s)
    ensures WellFormed(r.0)
    ensures !e.RequestTimer? && !e.FetchAddress? ==> r.1 == None
  {
    match e
    case ChangeText(text, now) => (ChangedText(s, p, text, now), None)
    case RequestTimer(id) => TimerFired(s, p, id)
    case SearchResponse(token, predictions) => (SearchResponded(s, token, predictions), None)
    case FetchAddress(location) =>
      var (r, req) := FetchedAddress(s, p, location);
      (r, Some(req))
    case GeocodeResponse(token, results) => (GeocodeResponded(s, token, results), None)
    case Focus => (Focused(s), None)
    case Blur => (Blurred(s), None)
    case PressClear => (PressedClear(s), None)
    case Unmount => (Unmounted(s), None)
  }

  /** A trace of events; the second component lists the requests sent, in order. */
  function Run(s: Input, p: Props, trace: seq<Event>): (r: (Input, seq<Request>))
    requires WellFormed(s)
    ensures WellFormed(r.0)
    decreases |trace|
  {
    if trace == [] then (s, [])
    else
      var (t, req) := Step(s, p, trace[0]);
      var (u, reqs) := Run(t, p, trace[1..]);
      (u, (if req.Some? then [req.value] else []) + reqs)
  }

  /** Every event but `fetchAddressForLocation` keeps "only the current token
      can apply"; so does `fetchAddressForLocation` when nothing is live. */
  lemma StepKeepsOnlyCurrentLive(s: Input, p: Props, e: Event)
    requires WellFormed(s) && OnlyCurrentLive(s)
    requires e.FetchAddress? ==> s.inflight == map[]
    ensures OnlyCurrentLive(Step(s, p, e).0)
  {
    match e
    case RequestTimer(id) =>
      if id in s.timer.pending {
        var r := TimerFired(s, p, id).0;
        var q := Requested(s, p, s.timer.callbackArgs.value).0;
        assert r.inflight == q.inflight && r.source == q.source;
      }
    case FetchAddress(location) =>
      var r := FetchedAddress(s, p, location).0;
      assert r.inflight == map[s.nextToken := GeocodeKind];
    case _ =>
  }

  /** As long as no reverse geocode is fetched, only the request of the
      current token can ever apply: a response to any older token is inert. */
  lemma {:induction false} OnlyCurrentLiveWithoutFetch(s: Input, p: Props, trace: seq<Event>)
    requires WellFormed(s) && OnlyCurrentLive(s)
    requires forall i :: 0 <= i < |trace| ==> !trace[i].FetchAddress?
    ensures OnlyCurrentLive(Run(s, p, trace).0)
    decreases |trace|
  {
    if trace != [] {
      StepKeepsOnlyCurrentLive(s, p, trace[0]);
      var t := Step(s, p, trace[0]).0;
      assert forall i :: 0 <= i < |trace[1..]| ==> trace[1..][i] == trace[i + 1];
      OnlyCurrentLiveWithoutFetch(t, p, trace[1..]);
    }
  }

  /** While only the current token is live, a response to any other token changes nothing. */
  lemma StaleResponsesAreInert(s: Input, token: TokenId, predictions: seq<Prediction>, results: seq<GeocodeResult>)
    requires WellFormed(s) && OnlyCurrentLive(s) && s.source != Some(token)
    ensures SearchResponded(s, token, predictions) == s
    ensures GeocodeResponded(s, token, results) == s
  {
  }

  /** `fetchAddressForLocation` while a reverse geocode is still live orphans
      that request: it is no longer current, yet its response still applies,
      ends the loading state while the newer request is outstanding and shows
      its address. */
  lemma OrphanedGeocodeStillApplies(s: Input, p: Props, location: map<string, real>, results: seq<GeocodeResult>)
    requires WellFormed(s) && s.source.Some? && Live(s, s.source.value, GeocodeKind) && |results| > 0
    ensures
      var old_token := s.source.value;
      var r := FetchedAddress(s, p, location).0;
      var u := GeocodeResponded(r, old_token, results);
      && r.source != Some(old_token)
      && !OnlyCurrentLive(r)
      && u.ui.text == Some(results[0].formattedAddress)
      && !u.ui.loading
      && Live(u, s.nextToken, GeocodeKind)
  {
    var r := FetchedAddress(s, p, location).0;
    assert s.source.value in r.inflight;
  }

  /** The same holds for a search still live at `fetchAddressForLocation`:
      its response fills `predictions` while the box shows it is loading. */
  lemma OrphanedSearchStillApplies(s: Input, p: Props, location: map<string, real>, predictions: seq<Prediction>)
    requires WellFormed(s) && s.source.Some? && Live(s, s.source.value, SearchKind)
    ensures
      var old_token := s.source.value;
      var r := FetchedAddress(s, p, location).0;
      var u := SearchResponded(r, old_token, predictions);
      && r.source != Some(old_token)
      && u.ui.predictions == predictions
      && u.ui.loading
  {
    var r := FetchedAddress(s, p, location).0;
    assert s.source.value in r.inflight;
  }

  /** A search fired while a reverse geocode is current cancels it: the
      shared token means the geocode's response no longer applies. */
  lemma SearchCancelsGeocode(s: Input, p: Props, id: Debounce.TimerId, results: seq<GeocodeResult>)
    requires WellFormed(s) && s.source.Some? && id in s.timer.pending
    ensures
      var r := TimerFired(s, p, id).0;
      GeocodeResponded(r, s.source.value, results) == r
  {
    var r := TimerFired(s, p, id).0;
    var q := Requested(s, p, s.timer.callbackArgs.value).0;
    assert r.inflight == q.inflight;
    assert s.source.value !in r.inflight;
  }

  /** The search box after a burst of keystrokes with no timer run between
      them: the debouncer has taken every call and `text` is the last one. */
  function TypeAll(s: Input, p: Props, burst: seq<Debounce.Arrival<string>>): (r: Input)
    requires WellFormed(s)
    ensures WellFormed(r)
  {
    if burst == [] then s
    else s.(ui := s.ui.(text := Some(burst[|burst| - 1].args)),
            timer := Debounce.CallAll(s.timer, p.debounceDuration, burst))
  }

  /** A burst is `_onChangeText` for its first keystroke followed by the rest
      of the burst. */
  lemma TypeAllIsKeystrokes(s: Input, p: Props, burst: seq<Debounce.Arrival<string>>)
    requires WellFormed(s) && burst != []
    ensures TypeAll(s, p, burst) == TypeAll(ChangedText(s, p, burst[0].args, burst[0].at), p, burst[1..])
  {
    assert |burst| > 1 ==> burst[1..][|burst| - 2] == burst[|burst| - 1];
  }

  /** Typing a burst sets `text` at every keystroke but, started with no
      orphaned timer, leaves a single debounce timer, due `debounceDuration`
      after the last keystroke and holding the last text. */
  lemma BurstLeavesOneTimer(s: Input, p: Props, burst: seq<Debounce.Arrival<string>>)
    requires WellFormed(s) && Debounce.Quiet(s.timer) && burst != []
    ensures
      var b := TypeAll(s, p, burst);
      var last := burst[|burst| - 1];
      && b.ui.text == Some(last.args)
      && b.timer.pending == map[b.timer.nextId - 1 := last.at + p.debounceDuration]
      && b.timer.callbackArgs == Some(last.args)
      && b.source == s.source && b.inflight == s.inflight
  {
  }

  /** A debounce timer that is the only one pending runs `_request` on the
      latest text, through the length gate, and leaves nothing pending; no
      other timer does anything. */
  lemma LoneTimerRequests(b: Input, p: Props, id: Debounce.TimerId, due: nat)
    requires WellFormed(b) && b.timer.pending == map[id := due] && b.timer.callbackArgs.Some?
    ensures
      var text := b.timer.callbackArgs.value;
      var (r, req) := TimerFired(b, p, id);
      && (req.Some? <==> Utf16Length(text) >= MinQueryLength)
      && (req.Some? ==> req.value.Search? && req.value.input == text && r.source == Some(req.value.token))
      && (req.None? ==> r.ui.predictions == [])
      && r.timer.pending == map[]
      && (forall other :: other != id ==> TimerFired(b, p, other) == (b, None))
  {
    var (r, req) := TimerFired(b, p, id);
    var (q, qreq) := Requested(b, p, b.timer.callbackArgs.value);
    assert req == qreq && r.ui == q.ui && r.source == q.source;
    var e := Debounce.Expired(b.timer, id).0;
    assert e.pending == map[] by {
      assert forall k :: k !in e.pending;
    }
    forall other | other != id
      ensures TimerFired(b, p, other) == (b, None)
    {
      assert other !in b.timer.pending;
    }
  }

  /** When the single timer of a burst runs, the length gate sees only the
      burst's last text: a search for exactly that text if it is long enough,
      an empty `predictions` and no request otherwise; afterwards no timer is
      pending. No other timer runs `_request`. */
  lemma BurstSearchesLastText(s: Input, p: Props, burst: seq<Debounce.Arrival<string>>)
    requires WellFormed(s) && Debounce.Quiet(s.timer) && burst != []
    ensures
      var b := TypeAll(s, p, burst);
      var last := burst[|burst| - 1].args;
      var (r, req) := TimerFired(b, p, b.timer.nextId - 1);
      && (req.Some? <==> Utf16Length(last) >= MinQueryLength)
      && (req.Some? ==> req.value.Search? && req.value.input == last && r.source == Some(req.value.token))
      && (req.None? ==> r.ui.predictions == [])
      && r.timer.pending == map[]
      && (forall other :: other != b.timer.nextId - 1 ==> TimerFired(b, p, other) == (b, None))
  {
    var b := TypeAll(s, p, burst);
    var last := burst[|burst| - 1];
    BurstLeavesOneTimer(s, p, burst);
    LoneTimerRequests(b, p, b.timer.nextId - 1, last.at + p.debounceDuration);
  }

  /** Unmounting does not clear the debounce timer: a pending `_request`
      still runs afterwards and can still send a search. */
  lemma RequestAfterUnmount(s: Input, p: Props, id: Debounce.TimerId)
    requires WellFormed(s) && id in s.timer.pending
    requires Utf16Length(s.timer.callbackArgs.value) >= MinQueryLength
    ensures TimerFired(Unmounted(s), p, id).1.Some?
  {
  }

  /** A token that was handed out and is no longer live never becomes live
      again, whatever happens afterwards: the `.then` of a cancelled request
      never runs. */
  lemma {:induction false} DeadStaysDead(s: Input, p: Props, trace: seq<Event>, t: TokenId)
    requires WellFormed(s) && t < s.nextToken && t !in s.inflight
    ensures t !in Run(s, p, trace).0.inflight
    decreases |trace|
  {
    if trace != [] {
      StepKeepsDead(s, p, trace[0], t);
      DeadStaysDead(Step(s, p, trace[0]).0, p, trace[1..], t);
    }
  }

  lemma StepKeepsDead(s: Input, p: Props, e: Event, t: TokenId)
    requires WellFormed(s) && t < s.nextToken && t !in s.inflight
    ensures var r := Step(s, p, e).0; t < r.nextToken && t !in r.inflight
  {
  }

  /** No event of the box leaves an orphaned debounce timer behind: the
      wrapper clears the timer it replaces (utils/debounce.js:11-15), and
      `_request` never calls the wrapper back. */
  lemma StepKeepsQuiet(s: Input, p: Props, e: Event)
    requires WellFormed(s) && Debounce.Quiet(s.timer)
    ensures Debounce.Quiet(Step(s, p, e).0.timer)
  {
    match e
    case RequestTimer(id) =>
      assert id in s.timer.pending ==>
        Step(s, p, e).0.timer == Debounce.Fired(s.timer, p.debounceDuration, id, []).0;
    case _ =>
  }

  /** Over any trace from a quiet state, the box stays quiet, so at most one
      `_request` is ever pending and every burst lemma applies afterwards. */
  lemma {:induction false} QuietAlongRun(s: Input, p: Props, trace: seq<Event>)
    requires WellFormed(s) && Debounce.Quiet(s.timer)
    ensures Debounce.Quiet(Run(s, p, trace).0.timer)
    ensures |Run(s, p, trace).0.timer.pending| <= 1
    decreases |trace|
  {
    if trace == [] {
      Debounce.QuietHasAtMostOne(s.timer);
    } else {
      StepKeepsQuiet(s, p, trace[0]);
      QuietAlongRun(Step(s, p, trace[0]).0, p, trace[1..]);
    }
  }

  /** The `_onChangeText` events of a burst, in order. */
  function Keystrokes(burst: seq<Debounce.Arrival<string>>): (es: seq<Event>)
    ensures |es| == |burst|
    ensures forall i :: 0 <= i < |burst| ==> es[i] == ChangeText(burst[i].args, burst[i].at)
  {
    seq(|burst|, i requires 0 <= i < |burst| => ChangeText(burst[i].args, burst[i].at))
  }

  /** Running the keystrokes of a burst sends no request and leaves the search
      box exactly as `TypeAll` describes. */
  lemma {:induction false} KeystrokesRunAsTypeAll(s: Input, p: Props, burst: seq<Debounce.Arrival<string>>)
    requires WellFormed(s)
    ensures Run(s, p, Keystrokes(burst)) == (TypeAll(s, p, burst), [])
    decreases |burst|
  {
    if burst != [] {
      var ks := Keystrokes(burst);
      var t := ChangedText(s, p, burst[0].args, burst[0].at);
      assert Step(s, p, ks[0]) == (t, None);
      assert ks[1..] == Keystrokes(burst[1..]);
      KeystrokesRunAsTypeAll(t, p, burst[1..]);
      var rest := Run(t, p, ks[1..]);
      assert [] + rest.1 == rest.1;
      assert Run(s, p, ks) == (rest.0, [] + rest.1);
      TypeAllIsKeystrokes(s, p, burst);
    }
  }

  /** After `fetchAddressForLocation`, `getAddress` is empty until the
      reverse geocode answers; the answer with results makes it the first
      result's formatted address. */
  lemma AddressFollowsGeocode(s: Input, p: Props, location: map<string, real>, results: seq<GeocodeResult>)
    requires WellFormed(s) && |results| > 0
    ensures
      var (r, req) := FetchedAddress(s, p, location);
      && Address(r.ui) == Some("")
      && Address(GeocodeResponded(r, req.token, results).ui) == Some(results[0].formattedAddress)
  {
  }

  /** The component instance (lines 13-146, rendering left out). */
  class AutoCompleteInput {
    const props: Props
    /** `this._request`: the debounced wrapper of `_request` (line 28). */
    const request: Debounce.Debouncer<string>
    var text: Option<string>
    var predictions: seq<Prediction>
    var loading: bool
    var inFocus: bool
    var source: Option<TokenId>
    var inflight: map<TokenId, Kind>
    var nextToken: TokenId

    function Model(): Input
      reads this, request
    {
      Input(Ui(text, predictions, loading, inFocus), source, inflight, nextToken, request.Model())
    }

    predicate Valid()
      reads this, request
    {
      WellFormed(Model()) && request.wait == props.debounceDuration
    }

    /** The constructor and the initial state (lines 26-39). */
    constructor (props: Props)
      ensures Valid() && fresh(request) && this.props == props && Model() == Mounted()
    {
      this.props := props;
      request := new Debounce.Debouncer(props.debounceDuration);
      text := None;
      predictions := [];
      loading := false;
      inFocus := false;
      source := None;
      inflight := map[];
      nextToken := 0;
    }

    method AbortRequest()
      requires Valid()
      modifies this
      ensures Valid() && Model() == Aborted(old(Model()))
    {
      if source.Some? {
        inflight := inflight - {source.value};
      }
    }

    method FetchAddressForLocation(location: map<string, real>) returns (req: Request)
      requires Valid()
      modifies this
      ensures Valid() && (Model(), req) == FetchedAddress(old(Model()), props, location)
    {
      loading, predictions := true, [];
      var token := nextToken;
      nextToken := nextToken + 1;
      source := Some(token);
      inflight := inflight[token := GeocodeKind];
      req := Geocode(token, props.apiKey, Field(location, "latitude"), Field(location, "longitude"));
    }

    /** `_request` before it is debounced. */
    method Request(text: string) returns (req: Option<Request>)
      requires Valid()
      modifies this
      ensures Valid() && (Model(), req) == Requested(old(Model()), props, text)
    {
      AbortRequest();
      if Utf16Length(text) >= MinQueryLength {
        var token := nextToken;
        nextToken := nextToken + 1;
        source := Some(token);
        inflight := inflight[token := SearchKind];
        req := Some(Search(token, text, props.apiKey, props.language, Join(props.components, ComponentSeparator)));
      } else {
        predictions := [];
        req := None;
      }
    }

    method OnChangeText(text: string, now: nat)
      requires Valid()
      modifies this, request
      ensures Valid() && Model() == ChangedText(old(Model()), props, text, now)
    {
      request.Call(text, now);
      this.text := Some(text);
    }

    /** The runtime runs timer `id` of the debounced `_request`. */
    method OnRequestTimer(id: Debounce.TimerId) returns (req: Option<Request>)
      requires Valid()
      modifies this, request
      ensures Valid() && (Model(), req) == TimerFired(old(Model()), props, id)
    {
      var args := request.Expire(id);
      if args.Some? {
        req := Request(args.value);
        request.Finish();
      } else {
        req := None;
      }
    }

    method OnSearchResponse(token: TokenId, predictions: seq<Prediction>)
      requires Valid()
      modifies this
      ensures Valid() && Model() == SearchResponded(old(Model()), token, predictions)
    {
      if token in inflight && inflight[token] == SearchKind {
        this.predictions := predictions;
        inflight := inflight - {token};
      }
    }

    method OnGeocodeResponse(token: TokenId, results: seq<GeocodeResult>)
      requires Valid()
      modifies this
      ensures Valid() && Model() == GeocodeResponded(old(Model()), token, results)
    {
      if token in inflight && inflight[token] == GeocodeKind {
        loading := false;
        if |results| > 0 {
          text := Some(results[0].formattedAddress);
        }
        inflight := inflight - {token};
      }
    }

    method OnFocus()
      requires Valid()
      modifies this
      ensures Valid() && Model() == Focused(old(Model()))
    {
      AbortRequest();
      loading, inFocus := false, true;
    }

    method OnBlur()
      requires Valid()
      modifies this
      ensures Valid() && Model() == Blurred(old(Model()))
    {
      inFocus := false;
    }

    method OnPressClear()
      requires Valid()
      modifies this
      ensures Valid() && Model() == PressedClear(old(Model()))
    {
      text, predictions := Some(""), [];
    }

    method GetAddress() returns (a: Option<string>)
      requires Valid()
      ensures a == Address(Model().ui)
      ensures loading ==> a == Some("")
    {
      a := if loading then Some("") else text;
    }

    method ComponentWillUnmount()
      requires Valid()
      modifies this
      ensures Valid() && Model() == Unmounted(old(Model()))
    {
      AbortRequest();
    }
  }
}
