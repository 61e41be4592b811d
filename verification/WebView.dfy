/** Correlation of WebView runtime events per instance and of SSL error decisions per handler. */
module WebView {
  import opened Common

  datatype SettingName =
    | JavaScript | FileUrlAccess | UniversalFileUrlAccess | MixedContent | Unnamed | OtherSetting(name: string)

  datatype Event =
    | Setting(id: string, setting: SettingName, enabled: bool, mode: Option<string>)
    | AddInterface(id: string, name: string)
    | RemoveInterface(id: string, name: string)
    | Load(id: string, declared: string, isRemote: bool, isFile: bool)
    | Debugging(on: bool)
    | SslCallback(handler: string)
    | SslProceed(handler: string)
    | SslCancel(handler: string)
    | OtherEvent

  const ALWAYS_ALLOW := "always_allow"

  function OriginOf(e: Event): string
    requires e.Load?
  {
    if e.declared != "" then e.declared else if e.isRemote then "remote" else if e.isFile then "file" else "other"
  }

  // ---------------------------------------------------------------- what the trace says

  /** Something a trace can say about an instance: a setting is on, mixed content is allowed, the content's origin. */
  datatype Fact = SwitchedOn(setting: SettingName) | MixedAllowed | Shows(origin: string)

  predicate Concerns(e: Event, id: string, f: Fact) {
    match f
    case SwitchedOn(setting) => e.Setting? && e.id == id && e.setting == setting
    case MixedAllowed => e.Setting? && e.id == id && e.setting.MixedContent?
    case Shows(_) => e.Load? && e.id == id
  }

  predicate Says(e: Event, f: Fact) {
    match f
    case SwitchedOn(_) => e.Setting? && e.enabled
    case MixedAllowed => e.Setting? && e.mode == Some(ALWAYS_ALLOW)
    case Shows(origin) =>
      && e.Load?
      && (|| (e.declared != "" && origin == e.declared)
          || (e.declared == "" && e.isRemote && origin == "remote")
          || (e.declared == "" && !e.isRemote && e.isFile && origin == "file")
          || (e.declared == "" && !e.isRemote && !e.isFile && origin == "other"))
  }

  /** The last event of `t` that concerns the fact says so. */
  ghost predicate Holds(t: seq<Event>, id: string, f: Fact) {
    exists i :: 0 <= i < |t| && Concerns(t[i], id, f) && Says(t[i], f)
                && forall j :: i < j < |t| ==> !Concerns(t[j], id, f)
  }

  /** Interface `name` was added and not removed since. */
  ghost predicate Live(t: seq<Event>, id: string, name: string) {
    name != "" && exists i :: 0 <= i < |t| && t[i] == AddInterface(id, name)
                              && forall j :: i < j < |t| ==> t[j] != RemoveInterface(id, name)
  }

  /** Script on, a live interface and remote content, all at the end of `t`. */
  ghost predicate BridgeExposed(t: seq<Event>, id: string) {
    id != "" && Holds(t, id, SwitchedOn(JavaScript)) && (exists name :: Live(t, id, name)) &&
        Holds(t, id, Shows("remote"))
  }

  /** File content with file access, or remote content with mixed content allowed, at the end of `t`. */
  ghost predicate ContentUnsafe(t: seq<Event>, id: string) {
    && id != ""
    && (|| (&& Holds(t, id, Shows("file"))
            && (Holds(t, id, SwitchedOn(FileUrlAccess)) || Holds(t, id, SwitchedOn(UniversalFileUrlAccess))))
        || (Holds(t, id, Shows("remote")) && Holds(t, id, MixedAllowed)))
  }

  predicate SslFor(e: Event, handler: string) {
    (e.SslCallback? || e.SslProceed? || e.SslCancel?) && e.handler == handler
  }

  /** The latest SSL event of the handler before `i` is a callback. */
  ghost predicate CallbackOpen(t: seq<Event>, i: nat, handler: string)
    requires i <= |t|
  {
    exists j :: 0 <= j < i && t[j] == SslCallback(handler) && forall k :: j < k < i ==> !SslFor(t[k], handler)
  }

  /** Handlers of the first `n` proceed decisions that do (or do not) answer an open callback. */
  ghost function Proceeds(t: seq<Event>, n: nat, answered: bool): seq<string>
    requires n <= |t|
  {
    if n == 0 then []
    else
      var before := Proceeds(t, n - 1, answered);
      var e := t[n - 1];
      if e.SslProceed? && ((e.handler != "" && CallbackOpen(t, n - 1, e.handler)) <==> answered) then
        before + [e.handler]
      else before
  }

  // ---------------------------------------------------------------- instance states

  datatype Instance = Instance(
    javascript: bool, fileUrl: bool, universalFileUrl: bool, mixed: Option<string>, origin: Option<string>,
    interfaces: set<string>)

  const BLANK := Instance(false, false, false, None, None, {})

  function Update(v: Instance, e: Event): Instance {
    match e
    case Setting(_, JavaScript, on, _) => v.(javascript := on)
    case Setting(_, FileUrlAccess, on, _) => v.(fileUrl := on)
    case Setting(_, UniversalFileUrlAccess, on, _) => v.(universalFileUrl := on)
    case Setting(_, MixedContent, _, mode) => v.(mixed := mode)
    case AddInterface(_, name) => if name == "" then v else v.(interfaces := v.interfaces + {name})
    case RemoveInterface(_, name) => v.(interfaces := v.interfaces - {name})
    case Load(_, _, _, _) => v.(origin := Some(OriginOf(e)))
    case _ => v
  }

  predicate About(e: Event, id: string) {
    (e.Setting? || e.AddInterface? || e.RemoveInterface? || e.Load?) && e.id == id && id != ""
  }

  function After(t: seq<Event>, id: string): Instance {
    if t == [] then BLANK
    else
      var before, e := After(t[..|t| - 1], id), t[|t| - 1];
      if About(e, id) then Update(before, e) else before
  }

  predicate Bridged(v: Instance) { v.javascript && v.interfaces != {} && v.origin == Some("remote") }

  predicate UnsafeNow(v: Instance) {
    || (v.origin == Some("file") && (v.fileUrl || v.universalFileUrl))
    || (v.origin == Some("remote") && v.mixed == Some(ALWAYS_ALLOW))
  }

  // ---------------------------------------------------------------- states agree with the trace

  lemma HoldsAppend(t: seq<Event>, e: Event, id: string, f: Fact)
    ensures Holds(t + [e], id, f) <==> if Concerns(e, id, f) then Says(e, f) else Holds(t, id, f)
  {
    var u := t + [e];
    assert u[|t|] == e && forall j :: 0 <= j < |t| ==> u[j] == t[j];
    if Concerns(e, id, f) {
      if Holds(u, id, f) {
        var i :| 0 <= i < |u| && Concerns(u[i], id, f) && Says(u[i], f)
                 && forall j :: i < j < |u| ==> !Concerns(u[j], id, f);
        assert i == |t|;
      }
    } else {
      if Holds(t, id, f) {
        var i :| 0 <= i < |t| && Concerns(t[i], id, f) && Says(t[i], f)
                 && forall j :: i < j < |t| ==> !Concerns(t[j], id, f);
        assert Concerns(u[i], id, f);
      }
      if Holds(u, id, f) {
        var i :| 0 <= i < |u| && Concerns(u[i], id, f) && Says(u[i], f)
                 && forall j :: i < j < |u| ==> !Concerns(u[j], id, f);
        assert Concerns(t[i], id, f);
      }
    }
  }

  lemma LiveAppend(t: seq<Event>, e: Event, id: string, name: string)
    ensures Live(t + [e], id, name) <==>
              name != "" && (e == AddInterface(id, name) || (Live(t, id, name) && e != RemoveInterface(id, name)))
  {
    var u := t + [e];
    if Live(t, id, name) && e != RemoveInterface(id, name) {
      var i :| 0 <= i < |t| && t[i] == AddInterface(id, name)
               && forall j :: i < j < |t| ==> t[j] != RemoveInterface(id, name);
      assert u[i] == t[i];
    }
    if e == AddInterface(id, name) {
      assert u[|t|] == e;
    }
    if Live(u, id, name) && e != AddInterface(id, name) {
      var i :| 0 <= i < |u| && u[i] == AddInterface(id, name)
               && forall j :: i < j < |u| ==> u[j] != RemoveInterface(id, name);
      assert i < |t| && u[i] == t[i] && u[|t|] == e;
      forall j | i < j < |t| ensures t[j] != RemoveInterface(id, name) {
        assert u[j] == t[j];
      }
    }
  }

  predicate Tracked(f: Fact) { f.SwitchedOn? ==> f.setting in {JavaScript, FileUrlAccess, UniversalFileUrlAccess} }

  predicate Has(v: Instance, f: Fact)
    requires Tracked(f)
  {
    match f
    case SwitchedOn(JavaScript) => v.javascript
    case SwitchedOn(FileUrlAccess) => v.fileUrl
    case SwitchedOn(_) => v.universalFileUrl
    case MixedAllowed => v.mixed == Some(ALWAYS_ALLOW)
    case Shows(origin) => v.origin == Some(origin)
  }

  ghost predicate Reflects(v: Instance, t: seq<Event>, id: string) {
    && (forall f :: Tracked(f) ==> (Has(v, f) <==> Holds(t, id, f)))
    && (forall name :: name in v.interfaces <==> Live(t, id, name))
  }

  lemma UpdateReflects(v: Instance, t: seq<Event>, e: Event, id: string)
    requires id != "" && Reflects(v, t, id)
    ensures Reflects(if About(e, id) then Update(v, e) else v, t + [e], id)
  {
    var v1 := if About(e, id) then Update(v, e) else v;
    forall f | Tracked(f) ensures Has(v1, f) <==> Holds(t + [e], id, f) {
      HoldsAppend(t, e, id, f);
    }
    forall name ensures name in v1.interfaces <==> Live(t + [e], id, name) {
      LiveAppend(t, e, id, name);
    }
  }

  lemma {:induction false} AfterReflects(t: seq<Event>, id: string)
    requires id != ""
    ensures Reflects(After(t, id), t, id)
  {
    if t != [] {
      AfterReflects(t[..|t| - 1], id);
      UpdateReflects(After(t[..|t| - 1], id), t[..|t| - 1], t[|t| - 1], id);
      assert t == t[..|t| - 1] + [t[|t| - 1]];
    }
  }

  lemma {:induction false} NamelessStaysBlank(t: seq<Event>)
    ensures After(t, "") == BLANK
  {
    if t != [] {
      NamelessStaysBlank(t[..|t| - 1]);
    }
  }

  lemma StateSaysWhatTraceSays(t: seq<Event>, id: string)
    ensures Bridged(After(t, id)) <==> BridgeExposed(t, id)
    ensures UnsafeNow(After(t, id)) <==> ContentUnsafe(t, id)
  {
    if id == "" {
      NamelessStaysBlank(t);
    } else {
      AfterReflects(t, id);
      var v := After(t, id);
      assert forall f :: Tracked(f) ==> (Has(v, f) <==> Holds(t, id, f));
      if v.interfaces != {} {
        var name :| name in v.interfaces;
        assert Live(t, id, name);
      }
    }
  }

  // ---------------------------------------------------------------- the correlator

  datatype Report = Report(
    bridged: set<string>, unsafeContent: set<string>, remote: set<string>, unsafeSettings: nat, debugging: bool,
    matched: seq<string>, unmatched: seq<string>)

  function Get(state: map<string, Instance>, id: string): Instance {
    if id in state then state[id] else BLANK
  }

  /** Some prefix of at most `n` events leaves the instance with script, an interface and remote content at once. */
  ghost predicate EverBridged(t: seq<Event>, n: nat, id: string)
    requires n <= |t|
  {
    exists m :: 0 <= m <= n && Bridged(After(t[..m], id))
  }

  ghost predicate EverUnsafe(t: seq<Event>, n: nat, id: string)
    requires n <= |t|
  {
    exists m :: 0 <= m <= n && UnsafeNow(After(t[..m], id))
  }

  ghost predicate EverRemote(t: seq<Event>, n: nat, id: string)
    requires n <= |t|
  {
    id != "" && exists i :: 0 <= i < n && t[i].Load? && t[i].id == id && Says(t[i], Shows("remote"))
  }

  /** The event allows mixed content, or lets files be reached from file or from any URLs. */
  ghost predicate ActivatesUnsafe(e: Event) {
    && e.Setting? && e.id != ""
    && (|| (e.setting.MixedContent? && e.mode == Some(ALWAYS_ALLOW))
        || (e.setting.FileUrlAccess? && e.enabled)
        || (e.setting.UniversalFileUrlAccess? && e.enabled))
  }

  ghost function Activations(t: seq<Event>, n: nat): nat
    requires n <= |t|
  {
    if n == 0 then 0 else Activations(t, n - 1) + if ActivatesUnsafe(t[n - 1]) then 1 else 0
  }

  ghost predicate DebuggingOn(t: seq<Event>, n: nat)
    requires n <= |t|
  {
    exists i :: 0 <= i < n && t[i] == Debugging(true) && forall j :: i < j < n ==> !t[j].Debugging?
  }

  lemma AfterNext(t: seq<Event>, n: nat, id: string)
    requires n < |t|
    ensures After(t[..n + 1], id) == if About(t[n], id) then Update(After(t[..n], id), t[n]) else After(t[..n], id)
  {
    assert t[..n + 1][..n] == t[..n];
  }

  lemma CallbackNext(t: seq<Event>, n: nat, handler: string)
    requires n < |t|
    ensures CallbackOpen(t, n + 1, handler) <==>
              if SslFor(t[n], handler) then t[n].SslCallback? else CallbackOpen(t, n, handler)
  {
    if CallbackOpen(t, n + 1, handler) {
      var j :| 0 <= j < n + 1 && t[j] == SslCallback(handler) && forall k :: j < k < n + 1 ==> !SslFor(t[k], handler);
    }
  }

  /** One instance event; content is correlated after settings, added interfaces and loads, not after removals. */
  method TrackInstance(state: map<string, Instance>, bridged: set<string>, unsafeContent: set<string>,
                       remote: set<string>, e: Event, ghost t: seq<Event>, ghost n: nat)
    returns (state1: map<string, Instance>, bridged1: set<string>, unsafe1: set<string>, remote1: set<string>)
    requires n < |t| && t[n] == e
    requires forall id :: Get(state, id) == After(t[..n], id)
    requires forall id :: id in bridged <==> EverBridged(t, n, id)
    requires forall id :: id in unsafeContent <==> EverUnsafe(t, n, id)
    requires forall id :: id in remote <==> EverRemote(t, n, id)
    ensures forall id :: Get(state1, id) == After(t[..n + 1], id)
    ensures forall id :: id in bridged1 <==> EverBridged(t, n + 1, id)
    ensures forall id :: id in unsafe1 <==> EverUnsafe(t, n + 1, id)
    ensures forall id :: id in remote1 <==> EverRemote(t, n + 1, id)
  {
    state1, bridged1, unsafe1, remote1 := state, bridged, unsafeContent, remote;
    if (e.Setting? || e.AddInterface? || e.RemoveInterface? || e.Load?) && e.id != "" {
      state1 := state[e.id := Update(Get(state, e.id), e)];
      if e.Load? && OriginOf(e) == "remote" {
        remote1 := remote + {e.id};
      }
      if !e.RemoveInterface? && (e.AddInterface? ==> e.name != "") {
        if Bridged(state1[e.id]) {
          bridged1 := bridged + {e.id};
        }
        if UnsafeNow(state1[e.id]) {
          unsafe1 := unsafeContent + {e.id};
        }
      }
    }
    forall id ensures Get(state1, id) == After(t[..n + 1], id) {
      AfterNext(t, n, id);
    }
    forall id ensures id in bridged1 <==> EverBridged(t, n + 1, id) {
      AfterNext(t, n, id);
      EverNext(t, n, id);
    }
    forall id ensures id in unsafe1 <==> EverUnsafe(t, n + 1, id) {
      AfterNext(t, n, id);
      EverNext(t, n, id);
    }
    forall id ensures id in remote1 <==> EverRemote(t, n + 1, id) {
      RemoteNext(t, n, id);
    }
  }

  lemma RemoteNext(t: seq<Event>, n: nat, id: string)
    requires n < |t|
    ensures EverRemote(t, n + 1, id) <==>
              EverRemote(t, n, id) || (id != "" && t[n].Load? && t[n].id == id && OriginOf(t[n]) == "remote")
  {
  }

  lemma EverNext(t: seq<Event>, n: nat, id: string)
    requires n < |t|
    ensures EverBridged(t, n + 1, id) <==> EverBridged(t, n, id) || Bridged(After(t[..n + 1], id))
    ensures EverUnsafe(t, n + 1, id) <==> EverUnsafe(t, n, id) || UnsafeNow(After(t[..n + 1], id))
    ensures Bridged(After(t[..n], id)) ==> EverBridged(t, n, id)
    ensures UnsafeNow(After(t[..n], id)) ==> EverUnsafe(t, n, id)
  {
    if EverBridged(t, n + 1, id) && !Bridged(After(t[..n + 1], id)) {
      var m :| 0 <= m <= n + 1 && Bridged(After(t[..m], id));
      assert m <= n;
    }
    if EverUnsafe(t, n + 1, id) && !UnsafeNow(After(t[..n + 1], id)) {
      var m :| 0 <= m <= n + 1 && UnsafeNow(After(t[..m], id));
      assert m <= n;
    }
  }

  method TrackSsl(callbacks: set<string>, matched: seq<string>, unmatched: seq<string>, e: Event, ghost t: seq<Event>,
                  ghost n: nat)
    returns (callbacks1: set<string>, matched1: seq<string>, unmatched1: seq<string>)
    requires n < |t| && t[n] == e
    requires forall h :: h in callbacks <==> h != "" && CallbackOpen(t, n, h)
    requires matched == Proceeds(t, n, true) && unmatched == Proceeds(t, n, false)
    ensures forall h :: h in callbacks1 <==> h != "" && CallbackOpen(t, n + 1, h)
    ensures matched1 == Proceeds(t, n + 1, true) && unmatched1 == Proceeds(t, n + 1, false)
  {
    callbacks1, matched1, unmatched1 := callbacks, matched, unmatched;
    match e {
      case SslCallback(h) =>
        callbacks1 := if h != "" then callbacks + {h} else callbacks;
      case SslProceed(h) =>
        if h != "" && h in callbacks {
          matched1 := matched + [h];
          callbacks1 := callbacks - {h};
        } else {
          unmatched1 := unmatched + [h];
        }
      case SslCancel(h) =>
        callbacks1 := callbacks - {h};
      case _ =>
    }
    forall h ensures h in callbacks1 <==> h != "" && CallbackOpen(t, n + 1, h) {
      CallbackNext(t, n, h);
    }
  }

  /**
   * An instance is reported exactly when some prefix of the events leaves it in the reported condition, and a proceed
   * decision counts as matched exactly when the handler's latest earlier SSL event is a callback.
   */
  method Correlate(events: seq<Event>) returns (r: Report)
    ensures forall id :: id in r.bridged <==> exists n :: 0 <= n <= |events| && BridgeExposed(events[..n], id)
    ensures forall id :: id in r.unsafeContent <==> exists n :: 0 <= n <= |events| && ContentUnsafe(events[..n], id)
    ensures forall id :: id in r.remote <==> EverRemote(events, |events|, id)
    ensures r.unsafeSettings == Activations(events, |events|)
    ensures r.debugging <==> DebuggingOn(events, |events|)
    ensures r.matched == Proceeds(events, |events|, true) && r.unmatched == Proceeds(events, |events|, false)
  {
    var state: map<string, Instance> := map[];
    var bridged, unsafeContent, remote, callbacks: set<string> := {}, {}, {}, {};
    var matched, unmatched: seq<string> := [], [];
    var unsafeSettings, debugging := 0, false;
    for n := 0 to |events|
      invariant forall id :: Get(state, id) == After(events[..n], id)
      invariant forall id :: id in bridged <==> EverBridged(events, n, id)
      invariant forall id :: id in unsafeContent <==> EverUnsafe(events, n, id)
      invariant forall id :: id in remote <==> EverRemote(events, n, id)
      invariant forall h :: h in callbacks <==> h != "" && CallbackOpen(events, n, h)
      invariant matched == Proceeds(events, n, true) && unmatched == Proceeds(events, n, false)
      invariant unsafeSettings == Activations(events, n)
      invariant debugging <==> DebuggingOn(events, n)
    {
      var e := events[n];
      state, bridged, unsafeContent, remote := TrackInstance(state, bridged, unsafeContent, remote, e, events, n);
      callbacks, matched, unmatched := TrackSsl(callbacks, matched, unmatched, e, events, n);
      unsafeSettings := TrackSetting(unsafeSettings, e);
      debugging := if e.Debugging? then e.on else debugging;
    }
    forall id ensures EverBridged(events, |events|, id) <==>
                      exists n :: 0 <= n <= |events| && BridgeExposed(events[..n], id) {
      EverMeansSome(events, id);
    }
    forall id ensures EverUnsafe(events, |events|, id) <==>
                      exists n :: 0 <= n <= |events| && ContentUnsafe(events[..n], id) {
      EverMeansSome(events, id);
    }
    r := Report(bridged, unsafeContent, remote, unsafeSettings, debugging, matched, unmatched);
  }

  method TrackSetting(unsafeSettings: nat, e: Event) returns (unsafeSettings1: nat)
    ensures unsafeSettings1 == unsafeSettings + if ActivatesUnsafe(e) then 1 else 0
  {
    unsafeSettings1 := unsafeSettings;
    if e.Setting? && e.id != "" {
      if e.setting.MixedContent? {
        unsafeSettings1 := unsafeSettings + if e.mode == Some(ALWAYS_ALLOW) then 1 else 0;
      } else if e.setting in {FileUrlAccess, UniversalFileUrlAccess} && e.enabled {
        unsafeSettings1 := unsafeSettings + 1;
      }
    }
  }

  lemma EverMeansSome(t: seq<Event>, id: string)
    ensures EverBridged(t, |t|, id) <==> exists n :: 0 <= n <= |t| && BridgeExposed(t[..n], id)
    ensures EverUnsafe(t, |t|, id) <==> exists n :: 0 <= n <= |t| && ContentUnsafe(t[..n], id)
  {
    forall n | 0 <= n <= |t|
      ensures Bridged(After(t[..n], id)) <==> BridgeExposed(t[..n], id)
      ensures UnsafeNow(After(t[..n], id)) <==> ContentUnsafe(t[..n], id)
    {
      StateSaysWhatTraceSays(t[..n], id);
    }
  }

  // ---------------------------------------------------------------- the three rules

  datatype Rule = BridgeRemote | UnsafeSettings | SslErrorProceed

  datatype Finding = Confirmed | Potential | Inconclusive

  ghost predicate SomeBridge(t: seq<Event>) {
    exists id, n :: 0 <= n <= |t| && BridgeExposed(t[..n], id)
  }

  ghost predicate SomeUnsafeContent(t: seq<Event>) {
    exists id, n :: 0 <= n <= |t| && ContentUnsafe(t[..n], id)
  }

  ghost predicate SomeAnsweredProceed(t: seq<Event>, n: nat)
    requires n <= |t|
  {
    exists i :: 0 <= i < n && AnsweredProceed(t, i)
  }

  method Evaluate(rule: Rule, events: seq<Event>, staticProceed: bool) returns (f: Finding)
    ensures rule.BridgeRemote? ==> f == if SomeBridge(events) then Potential else Inconclusive
    ensures rule.UnsafeSettings? ==>
              f == if SomeUnsafeContent(events) || DebuggingOn(events, |events|) then Potential else Inconclusive
    ensures rule.SslErrorProceed? ==>
              f == if SomeAnsweredProceed(events, |events|) then Confirmed
                   else if staticProceed then Potential else Inconclusive
  {
    var r := Correlate(events);
    assert r.bridged != {} <==> SomeBridge(events) by {
      if r.bridged != {} {
        var id :| id in r.bridged;
      }
      if SomeBridge(events) {
        var id, n :| 0 <= n <= |events| && BridgeExposed(events[..n], id);
        assert id in r.bridged;
      }
    }
    assert r.unsafeContent != {} <==> SomeUnsafeContent(events) by {
      if r.unsafeContent != {} {
        var id :| id in r.unsafeContent;
      }
      if SomeUnsafeContent(events) {
        var id, n :| 0 <= n <= |events| && ContentUnsafe(events[..n], id);
        assert id in r.unsafeContent;
      }
    }
    SomeProceed(events, |events|);
    match rule {
      case BridgeRemote => f := if r.bridged != {} then Potential else Inconclusive;
      case UnsafeSettings => f := if r.unsafeContent != {} || r.debugging then Potential else Inconclusive;
      case SslErrorProceed =>
        f := if r.matched != [] then Confirmed else if staticProceed then Potential else Inconclusive;
    }
  }

  ghost predicate AnsweredProceed(t: seq<Event>, i: nat)
    requires i < |t|
  {
    t[i].SslProceed? && t[i].handler != "" && CallbackOpen(t, i, t[i].handler)
  }

  lemma {:induction false} SomeProceed(t: seq<Event>, n: nat)
    requires n <= |t|
    ensures Proceeds(t, n, true) != [] <==> SomeAnsweredProceed(t, n)
  {
    if n > 0 {
      SomeProceed(t, n - 1);
      assert SomeAnsweredProceed(t, n) <==> SomeAnsweredProceed(t, n - 1) || AnsweredProceed(t, n - 1);
    }
  }
}
