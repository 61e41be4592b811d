/** The device as session cleanup sees it: every call may find outside changes, fail, or be the last one. */
module CleanupWorld {
  import opened Common

  type Setting = Option<string>

  datatype Mapping = Mapping(remote: string, local: string)

  /** Whether a failing call took effect first, and whether the process survives it. */
  datatype Fault = NoFault | FailsBefore | FailsAfter | DiesBefore | DiesAfter

  /** What other actors leave behind before a call. */
  datatype Tamper = Untouched | Changed(proxy: Setting, reverses: seq<Mapping>)

  datatype Step = Step(tamper: Tamper, fault: Fault)

  /** What was read from and done to the device, in order. */
  datatype Event =
    | SawProxy(value: Setting)
    | WroteProxy(value: Setting)
    | SawReverses(mappings: seq<Mapping>)
    | RemovedReverse(remote: string)

  /** The script says how the coming calls behave; calls beyond it are undisturbed. */
  datatype World = World(proxy: Setting, reverses: seq<Mapping>, script: seq<Step>, trace: seq<Event>)

  datatype Reply<T> = Got(value: T) | Error | Dead

  /** `settings get` cannot tell an empty or "null" value from none. */
  function AsRead(s: Setting): Setting {
    if s == Some("") || s == Some("null") then None else s
  }

  function Now(w: World): Step {
    if w.script == [] then Step(Untouched, NoFault) else w.script[0]
  }

  function Entered(w: World): World {
    var rest := if w.script == [] then [] else w.script[1..];
    match Now(w).tamper
    case Untouched => w.(script := rest)
    case Changed(proxy, reverses) => World(proxy, reverses, rest, w.trace)
  }

  function Answer<T>(fault: Fault, value: T): Reply<T> {
    match fault
    case NoFault => Got(value)
    case FailsBefore => Error
    case FailsAfter => Error
    case DiesBefore => Dead
    case DiesAfter => Dead
  }

  predicate TakesEffect(fault: Fault) { !fault.FailsBefore? && !fault.DiesBefore? }

  function Probe(w: World): (Reply<()>, World) {
    (Answer(Now(w).fault, ()), Entered(w))
  }

  function GetProxy(w: World): (Reply<Setting>, World) {
    var e := Entered(w);
    var value := AsRead(e.proxy);
    (Answer(Now(w).fault, value), if Now(w).fault.NoFault? then e.(trace := e.trace + [SawProxy(value)]) else e)
  }

  function SetProxy(w: World, value: Setting): (Reply<()>, World) {
    var e := Entered(w);
    (Answer(Now(w).fault, ()),
     if TakesEffect(Now(w).fault) then e.(proxy := value, trace := e.trace + [WroteProxy(value)]) else e)
  }

  function ListReverse(w: World): (Reply<seq<Mapping>>, World) {
    var e := Entered(w);
    (Answer(Now(w).fault, e.reverses),
     if Now(w).fault.NoFault? then e.(trace := e.trace + [SawReverses(e.reverses)]) else e)
  }

  function Without(mappings: seq<Mapping>, remote: string): seq<Mapping> {
    if mappings == [] then []
    else (if mappings[0].remote == remote then [] else [mappings[0]]) + Without(mappings[1..], remote)
  }

  function RemoveReverse(w: World, remote: string): (Reply<()>, World) {
    var e := Entered(w);
    (Answer(Now(w).fault, ()),
     if TakesEffect(Now(w).fault)
     then e.(reverses := Without(e.reverses, remote), trace := e.trace + [RemovedReverse(remote)]) else e)
  }

  class Device {
    var proxy: Setting
    var reverses: seq<Mapping>
    var script: seq<Step>
    ghost var trace: seq<Event>

    ghost function View(): World
      reads this
    {
      World(proxy, reverses, script, trace)
    }

    constructor (w: World)
      ensures View() == w
    {
      proxy, reverses, script, trace := w.proxy, w.reverses, w.script, w.trace;
    }

    method Enter() returns (fault: Fault)
      modifies this
      ensures fault == old(Now(View())).fault && View() == old(Entered(View()))
    {
      fault := NoFault;
      if script != [] {
        fault := script[0].fault;
        match script[0].tamper {
          case Untouched =>
          case Changed(p, r) => proxy, reverses := p, r;
        }
        script := script[1..];
      }
    }

    method RequireAuthorized() returns (r: Reply<()>)
      modifies this
      ensures (r, View()) == old(Probe(View()))
    {
      var fault := Enter();
      r := Answer(fault, ());
    }

    method GetSetting() returns (r: Reply<Setting>)
      modifies this
      ensures (r, View()) == old(GetProxy(View()))
    {
      var fault := Enter();
      r := Answer(fault, AsRead(proxy));
      if fault.NoFault? {
        trace := trace + [SawProxy(AsRead(proxy))];
      }
    }

    method PutSetting(value: Setting) returns (r: Reply<()>)
      modifies this
      ensures (r, View()) == old(SetProxy(View(), value))
    {
      var fault := Enter();
      if TakesEffect(fault) {
        proxy := value;
        trace := trace + [WroteProxy(value)];
      }
      r := Answer(fault, ());
    }

    method Reverses() returns (r: Reply<seq<Mapping>>)
      modifies this
      ensures (r, View()) == old(ListReverse(View()))
    {
      var fault := Enter();
      r := Answer(fault, reverses);
      if fault.NoFault? {
        trace := trace + [SawReverses(reverses)];
      }
    }

    method DropReverse(remote: string) returns (r: Reply<()>)
      modifies this
      ensures (r, View()) == old(RemoveReverse(View(), remote))
    {
      var fault := Enter();
      if TakesEffect(fault) {
        reverses := Without(reverses, remote);
        trace := trace + [RemovedReverse(remote)];
      }
      r := Answer(fault, ());
    }
  }
}
