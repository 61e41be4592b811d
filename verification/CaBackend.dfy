/** The certificate slots of the device, shared with other actors and failing at will. */
module CaBackend {
  import opened Common

  /** A managed identity: the store and the certificate id. */
  type Key = (string, string)

  datatype Fault = NoFault | FailsBefore | FailsAfter

  /** Before a call another actor may have rewritten every slot. */
  datatype Step = Step(tamper: Option<map<Key, string>>, fault: Fault)

  /** What was put into a slot, and what a slot held when it was emptied. */
  datatype Event = Installed(key: Key, fingerprint: string) | Removed(key: Key, fingerprint: string)

  /** The script says how the coming calls behave; calls beyond it are undisturbed. */
  datatype World = World(slots: map<Key, string>, script: seq<Step>, trace: seq<Event>)

  datatype Reply<T> = Got(value: T) | Error

  function At(w: World, key: Key): Option<string> {
    if key in w.slots then Some(w.slots[key]) else None
  }

  function Now(w: World): Fault {
    if w.script == [] then NoFault else w.script[0].fault
  }

  function Entered(w: World): World {
    if w.script == [] then w
    else World(if w.script[0].tamper.Some? then w.script[0].tamper.value else w.slots, w.script[1..], w.trace)
  }

  function Read(w: World, key: Key): (Reply<Option<string>>, World) {
    (if Now(w).NoFault? then Got(At(Entered(w), key)) else Error, Entered(w))
  }

  function Install(w: World, key: Key, fingerprint: string): (Reply<()>, World) {
    var e := Entered(w);
    (if Now(w).NoFault? then Got(()) else Error,
     if Now(w).FailsBefore? then e
     else e.(slots := e.slots[key := fingerprint], trace := e.trace + [Installed(key, fingerprint)]))
  }

  /** Atomic compare-and-remove. */
  function Remove(w: World, key: Key, expected: string): (Reply<bool>, World) {
    var e := Entered(w);
    var matches := At(e, key) == Some(expected);
    (if Now(w).NoFault? then Got(matches) else Error,
     if Now(w).FailsBefore? || !matches then e
     else e.(slots := e.slots - {key}, trace := e.trace + [Removed(key, e.slots[key])]))
  }

  class Backend {
    var slots: map<Key, string>
    var script: seq<Step>
    ghost var trace: seq<Event>

    ghost function View(): World
      reads this
    {
      World(slots, script, trace)
    }

    constructor (w: World)
      ensures View() == w
    {
      slots, script, trace := w.slots, w.script, w.trace;
    }

    method Enter() returns (fault: Fault)
      modifies this
      ensures fault == old(Now(View())) && View() == old(Entered(View()))
    {
      fault := NoFault;
      if script != [] {
        fault := script[0].fault;
        slots := if script[0].tamper.Some? then script[0].tamper.value else slots;
        script := script[1..];
      }
    }

    method ReadCa(key: Key) returns (r: Reply<Option<string>>)
      modifies this
      ensures (r, View()) == Read(old(View()), key)
    {
      var fault := Enter();
      r := if !fault.NoFault? then Error else if key in slots then Got(Some(slots[key])) else Got(None);
    }

    method InstallCa(key: Key, fingerprint: string) returns (r: Reply<()>)
      modifies this
      ensures (r, View()) == Install(old(View()), key, fingerprint)
    {
      var fault := Enter();
      if !fault.FailsBefore? {
        slots := slots[key := fingerprint];
        trace := trace + [Installed(key, fingerprint)];
      }
      r := if fault.NoFault? then Got(()) else Error;
    }

    method RemoveCa(key: Key, expected: string) returns (r: Reply<bool>)
      modifies this
      ensures (r, View()) == Remove(old(View()), key, expected)
    {
      var fault := Enter();
      var matches := key in slots && slots[key] == expected;
      if matches && !fault.FailsBefore? {
        trace := trace + [Removed(key, slots[key])];
        slots := slots - {key};
      }
      r := if fault.NoFault? then Got(matches) else Error;
    }
  }
}
