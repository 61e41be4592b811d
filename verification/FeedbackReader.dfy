/** The incremental reader of live observer files: lines as they are completed, feedback as they are read. */
module FeedbackReader {
  import opened Common

  const MAX_STREAM := 10000000

  // ---------------------------------------------------------------- lines

  /** The newline-terminated lines of a text. */
  function Lines(text: string): seq<string> {
    if text == "" then []
    else
      var before := text[..|text| - 1];
      if text[|text| - 1] == '\n' then Lines(before) + [Tail(before)] else Lines(before)
  }

  /** What follows the last newline. */
  function Tail(text: string): string {
    if text == "" then ""
    else
      var before := text[..|text| - 1];
      if text[|text| - 1] == '\n' then "" else Tail(before) + [text[|text| - 1]]
  }

  /** `splitlines`: an unterminated last line counts as a line. */
  function SplitLines(text: string): seq<string> {
    Lines(text) + if Tail(text) == "" then [] else [Tail(text)]
  }

  lemma {:induction false} LinesJoin(a: string, b: string)
    ensures Lines(a + b) == Lines(a) + Lines(Tail(a) + b)
    ensures Tail(a + b) == Tail(Tail(a) + b)
  {
    if b == "" {
      assert a + b == a && Tail(a) + b == Tail(a);
      TailIsUnterminated(a);
    } else {
      var b0, c := b[..|b| - 1], b[|b| - 1];
      LinesJoin(a, b0);
      assert a + b == (a + b0) + [c] && Tail(a) + b == (Tail(a) + b0) + [c];
      assert (a + b)[..|a + b| - 1] == a + b0 && (Tail(a) + b)[..|Tail(a) + b| - 1] == Tail(a) + b0;
    }
  }

  lemma {:induction false} TailIsUnterminated(text: string)
    ensures Lines(Tail(text)) == [] && Tail(Tail(text)) == Tail(text)
  {
    if text != "" && text[|text| - 1] != '\n' {
      TailIsUnterminated(text[..|text| - 1]);
      assert Tail(text)[..|Tail(text)| - 1] == Tail(text[..|text| - 1]);
    }
  }

  function Joined(lines: seq<string>): string {
    if lines == [] then "" else Joined(lines[..|lines| - 1]) + lines[|lines| - 1] + "\n"
  }

  /** A text is its lines, each with its newline, and then its tail; neither contains another newline. */
  lemma {:induction false} TextIsItsLines(text: string)
    ensures text == Joined(Lines(text)) + Tail(text) && '\n' !in Tail(text)
    ensures forall line :: line in Lines(text) ==> '\n' !in line
  {
    if text != "" {
      var before, c := text[..|text| - 1], text[|text| - 1];
      TextIsItsLines(before);
      assert text == before + [c];
      if c == '\n' {
        assert Lines(text)[..|Lines(text)| - 1] == Lines(before);
      }
    }
  }

  // ---------------------------------------------------------------- one file

  /**
   * A file as one poll finds it: `size` when asked, `content` when read (more may have arrived), None if unreadable.
   */
  datatype File = Missing | NoSize | Present(size: nat, content: Option<string>)

  datatype Stream = Stream(position: nat, buffer: string)

  function Clip(n: nat, limit: nat): nat { if n < limit then n else limit }

  function ReadSpec(st: Stream, file: File): (seq<string>, Stream) {
    if !file.Present? || file.size > MAX_STREAM then ([], st)
    else
      var from := if file.size < st.position then Stream(0, "") else st;
      if file.content == None then ([], st.(buffer := from.buffer))
      else
        var content := file.content.value;
        var end := Clip(|content|, MAX_STREAM);
        if end <= from.position then ([], from)
        else
          var text := from.buffer + content[from.position..end];
          (Lines(text), Stream(end, Tail(text)))
  }

  /**
   * A file that has become shorter is read from the start again, and what was left of it is forgotten; one that is
   * missing or too long is left alone; one that cannot be read loses nothing but what was left of a longer one.
   */
  lemma OddFiles(st: Stream, file: File)
    ensures !file.Present? || file.size > MAX_STREAM ==> ReadSpec(st, file) == ([], st)
    ensures file.Present? && file.size <= MAX_STREAM && file.size < st.position && file.content.Some? ==>
              ReadSpec(st, file) == ReadSpec(Stream(0, ""), file)
    ensures file.Present? && file.size <= MAX_STREAM && file.content == None ==>
              ReadSpec(st, file) == ([], if file.size < st.position then Stream(st.position, "") else st)
  {
  }

  // ---------------------------------------------------------------- feedback

  datatype Parsed = NotAnEvent | Event(category: Option<string>, method_: Option<string>)

  datatype Feedback = Feedback(categories: set<string>, methods: set<string>, hosts: set<string>, events: nat)

  function Opt(o: Option<string>): set<string> { if o.Some? then {o.value} else {} }

  function AddEvent(f: Feedback, p: Parsed): Feedback {
    if p.NotAnEvent? then f
    else f.(categories := f.categories + Opt(p.category), methods := f.methods + Opt(p.method_), events := f.events + 1)
  }

  function AddEvents(f: Feedback, lines: seq<string>, parse: string -> Parsed): Feedback {
    if lines == [] then f else AddEvent(AddEvents(f, lines[..|lines| - 1], parse), parse(lines[|lines| - 1]))
  }

  function AddHosts(f: Feedback, lines: seq<string>, host: string -> Option<string>): Feedback {
    if lines == [] then f
    else
      var before := AddHosts(f, lines[..|lines| - 1], host);
      before.(hosts := before.hosts + Opt(host(lines[|lines| - 1])))
  }

  /** How many of the lines are events. */
  function CountEvents(lines: seq<string>, parse: string -> Parsed): nat {
    if lines == [] then 0
    else CountEvents(lines[..|lines| - 1], parse) + if parse(lines[|lines| - 1]).Event? then 1 else 0
  }

  /** The events add exactly their categories and methods, and count once each. */
  lemma {:induction false} EventsAdd(f: Feedback, lines: seq<string>, parse: string -> Parsed)
    ensures var g := AddEvents(f, lines, parse);
            && g.hosts == f.hosts && g.events == f.events + CountEvents(lines, parse)
            && (forall c :: c in g.categories <==>
                  c in f.categories || exists l :: l in lines && parse(l).Event? && parse(l).category == Some(c))
            && (forall m :: m in g.methods <==>
                  m in f.methods || exists l :: l in lines && parse(l).Event? && parse(l).method_ == Some(m))
  {
    if lines != [] {
      EventsAdd(f, lines[..|lines| - 1], parse);
      assert lines == lines[..|lines| - 1] + [lines[|lines| - 1]];
    }
  }

  /** The requests add exactly their hosts. */
  lemma {:induction false} RequestsAdd(f: Feedback, lines: seq<string>, host: string -> Option<string>)
    ensures var g := AddHosts(f, lines, host);
            && g.(hosts := f.hosts) == f
            && forall h :: h in g.hosts <==> h in f.hosts || exists l :: l in lines && host(l) == Some(h)
  {
    if lines != [] {
      RequestsAdd(f, lines[..|lines| - 1], host);
      assert lines == lines[..|lines| - 1] + [lines[|lines| - 1]];
    }
  }

  class RuntimeFeedbackCollector {
    var categories: set<string>
    var methods: set<string>
    var hosts: set<string>
    var eventCount: nat
    var positions: map<string, nat>
    var buffers: map<string, string>
    const parse: string -> Parsed
    const host: string -> Option<string>

    constructor (parse: string -> Parsed, host: string -> Option<string>)
      ensures this.parse == parse && this.host == host
      ensures Total() == Feedback({}, {}, {}, 0) && positions == map[] && buffers == map[]
    {
      this.parse, this.host := parse, host;
      categories, methods, hosts, eventCount, positions, buffers := {}, {}, {}, 0, map[], map[];
    }

    function Total(): Feedback
      reads `categories, `methods, `hosts, `eventCount
    {
      Feedback(categories, methods, hosts, eventCount)
    }

    function At(path: string): Stream
      reads `positions, `buffers
    {
      Stream(if path in positions then positions[path] else 0, if path in buffers then buffers[path] else "")
    }

    /** `_new_lines`. */
    method NewLines(path: string, file: File) returns (lines: seq<string>)
      modifies `positions, `buffers
      ensures lines == ReadSpec(old(At(path)), file).0 && At(path) == ReadSpec(old(At(path)), file).1
      ensures forall p :: p != path ==> At(p) == old(At(p))
    {
      if !file.Present? || file.size > MAX_STREAM {
        return [];
      }
      var offset := if path in positions then positions[path] else 0;
      if file.size < offset {
        offset := 0;
        buffers := buffers[path := ""];
      }
      if file.content == None {
        return [];
      }
      var content := file.content.value;
      var end := Clip(|content|, MAX_STREAM);
      var chunk := if end <= offset then "" else content[offset..end];
      positions := positions[path := offset + |chunk|];
      if chunk == "" {
        return [];
      }
      var text := (if path in buffers then buffers[path] else "") + chunk;
      var complete := text[|text| - 1] == '\n';
      lines := SplitLines(text);
      assert complete <==> Tail(text) == "";
      if complete || lines == [] {
        buffers := buffers[path := ""];
        assert lines == Lines(text);
      } else {
        buffers := buffers[path := lines[|lines| - 1]];
        lines := lines[..|lines| - 1];
        assert lines == Lines(text);
      }
    }

    /** What a poll makes of the feedback, given the lines each file yields. */
    function Grown(f: Feedback, events: seq<string>, requests: seq<string>): Feedback {
      AddHosts(AddEvents(f, events, parse), requests, host)
    }

    /** `poll`, with what it finds at the two paths. */
    method Poll(fridaPath: string, frida: File, trafficPath: string, traffic: File) returns (f: Feedback)
      requires fridaPath != trafficPath
      modifies this
      ensures f == Total()
      ensures At(fridaPath) == ReadSpec(old(At(fridaPath)), frida).1
      ensures At(trafficPath) == ReadSpec(old(At(trafficPath)), traffic).1
      ensures Total() == Grown(old(Total()), ReadSpec(old(At(fridaPath)), frida).0,
                               ReadSpec(old(At(trafficPath)), traffic).0)
    {
      var events := NewLines(fridaPath, frida);
      AddFridaLines(events);
      var requests := NewLines(trafficPath, traffic);
      AddTrafficLines(requests);
      f := Total();
    }

    method AddFridaLines(lines: seq<string>)
      modifies `categories, `methods, `eventCount
      ensures Total() == AddEvents(old(Total()), lines, parse)
    {
      for i := 0 to |lines|
        invariant Total() == AddEvents(old(Total()), lines[..i], parse)
      {
        assert lines[..i + 1][..i] == lines[..i];
        var p := parse(lines[i]);
        if p.Event? {
          categories := categories + Opt(p.category);
          methods := methods + Opt(p.method_);
          eventCount := eventCount + 1;
        }
      }
      assert lines[..|lines|] == lines;
    }

    method AddTrafficLines(lines: seq<string>)
      modifies `hosts
      ensures Total() == AddHosts(old(Total()), lines, host)
    {
      for i := 0 to |lines|
        invariant Total() == AddHosts(old(Total()), lines[..i], host)
      {
        assert lines[..i + 1][..i] == lines[..i];
        hosts := hosts + Opt(host(lines[i]));
      }
      assert lines[..|lines|] == lines;
    }
  }

  // ---------------------------------------------------------------- any schedule of polls

  /** The lines a sequence of polls of one file yields in all, and where it leaves the stream. */
  function ReadAll(st: Stream, finds: seq<File>): (seq<string>, Stream) {
    if finds == [] then ([], st)
    else
      var (lines, st1) := ReadAll(st, finds[..|finds| - 1]);
      var (more, st2) := ReadSpec(st1, finds[|finds| - 1]);
      (lines + more, st2)
  }

  /** What a poll of an append-only file within the size limit may find once `known` has been written. */
  ghost predicate Extends(known: string, file: File) {
    file.Present? ==>
      && |known| <= file.size <= MAX_STREAM
      && (file.content.Some? ==> known <= file.content.value && |file.content.value| <= MAX_STREAM)
  }

  function LastRead(finds: seq<File>): string {
    if finds == [] then ""
    else
      var file := finds[|finds| - 1];
      if file.Present? && file.content.Some? then file.content.value else LastRead(finds[..|finds| - 1])
  }

  /** Every poll finds the file unreadable or longer than every earlier poll did. */
  ghost predicate AppendOnly(finds: seq<File>) {
    finds == [] || (AppendOnly(finds[..|finds| - 1]) && Extends(LastRead(finds[..|finds| - 1]), finds[|finds| - 1]))
  }

  lemma ReadContinues(known: string, file: File)
    requires Extends(known, file) && |known| <= MAX_STREAM
    ensures var now := if file.Present? && file.content.Some? then file.content.value else known;
            var (lines, st) := ReadSpec(Stream(|known|, Tail(known)), file);
            Lines(now) == Lines(known) + lines && st == Stream(|now|, Tail(now))
  {
    if file.Present? && file.content.Some? {
      var now := file.content.value;
      var chunk := now[|known|..|now|];
      assert now == known + chunk;
      LinesJoin(known, chunk);
      if chunk == "" {
        assert known + chunk == known;
      }
    }
  }

  /**
   * However the polls of an append-only file fall, their lines are the file's complete lines and the buffer its tail.
   */
  lemma {:induction false} IncrementalIsBatch(finds: seq<File>)
    requires AppendOnly(finds)
    ensures ReadAll(Stream(0, ""), finds) == (Lines(LastRead(finds)), Stream(|LastRead(finds)|, Tail(LastRead(finds))))
    ensures |LastRead(finds)| <= MAX_STREAM
  {
    if finds != [] {
      IncrementalIsBatch(finds[..|finds| - 1]);
      ReadContinues(LastRead(finds[..|finds| - 1]), finds[|finds| - 1]);
    }
  }

  const NOTHING := Feedback({}, {}, {}, 0)

  /** The feedback and the two streams after a sequence of polls. */
  function PollAll(finds: seq<(File, File)>, parse: string -> Parsed, host: string -> Option<string>)
    : (Feedback, Stream, Stream)
  {
    if finds == [] then (NOTHING, Stream(0, ""), Stream(0, ""))
    else
      var (f, s, t) := PollAll(finds[..|finds| - 1], parse, host);
      var (events, s1) := ReadSpec(s, finds[|finds| - 1].0);
      var (requests, t1) := ReadSpec(t, finds[|finds| - 1].1);
      (AddHosts(AddEvents(f, events, parse), requests, host), s1, t1)
  }

  function Frida(finds: seq<(File, File)>): seq<File> { seq(|finds|, i requires 0 <= i < |finds| => finds[i].0) }

  function Traffic(finds: seq<(File, File)>): seq<File> { seq(|finds|, i requires 0 <= i < |finds| => finds[i].1) }

  lemma {:induction false} AddEventsJoin(f: Feedback, a: seq<string>, b: seq<string>, parse: string -> Parsed)
    ensures AddEvents(f, a + b, parse) == AddEvents(AddEvents(f, a, parse), b, parse)
  {
    if b == [] {
      assert a + b == a;
    } else {
      assert (a + b)[..|a + b| - 1] == a + b[..|b| - 1];
      AddEventsJoin(f, a, b[..|b| - 1], parse);
    }
  }

  lemma {:induction false} AddHostsJoin(f: Feedback, a: seq<string>, b: seq<string>, host: string -> Option<string>)
    ensures AddHosts(f, a + b, host) == AddHosts(AddHosts(f, a, host), b, host)
  {
    if b == [] {
      assert a + b == a;
    } else {
      assert (a + b)[..|a + b| - 1] == a + b[..|b| - 1];
      AddHostsJoin(f, a, b[..|b| - 1], host);
    }
  }

  /** Events and hosts go to different parts of the feedback, so their order does not matter. */
  lemma {:induction false} AddsCommute(f: Feedback, lines: seq<string>, requests: seq<string>, parse: string -> Parsed,
                                       host: string -> Option<string>)
    ensures AddEvents(AddHosts(f, requests, host), lines, parse) == AddHosts(AddEvents(f, lines, parse), requests, host)
  {
    if requests == [] {
    } else {
      AddsCommute(f, lines, requests[..|requests| - 1], parse, host);
      EventsKeepHosts(AddHosts(f, requests[..|requests| - 1], host), Opt(host(requests[|requests| - 1])), lines, parse);
    }
  }

  lemma {:induction false} EventsKeepHosts(f: Feedback, extra: set<string>, lines: seq<string>, parse: string -> Parsed)
    ensures var g := AddEvents(f, lines, parse);
            AddEvents(f.(hosts := f.hosts + extra), lines, parse) == g.(hosts := g.hosts + extra)
  {
    if lines != [] {
      EventsKeepHosts(f, extra, lines[..|lines| - 1], parse);
    }
  }

  /** After any polls of append-only files the feedback is that of one batch pass over the complete lines of both. */
  lemma {:induction false} FeedbackIsBatch(finds: seq<(File, File)>, parse: string -> Parsed,
                                           host: string -> Option<string>)
    requires AppendOnly(Frida(finds)) && AppendOnly(Traffic(finds))
    ensures var events, requests := Lines(LastRead(Frida(finds))), Lines(LastRead(Traffic(finds)));
            PollAll(finds, parse, host).0 == AddHosts(AddEvents(NOTHING, events, parse), requests, host)
    ensures PollAll(finds, parse, host).1 == ReadAll(Stream(0, ""), Frida(finds)).1
    ensures PollAll(finds, parse, host).2 == ReadAll(Stream(0, ""), Traffic(finds)).1
  {
    IncrementalIsBatch(Frida(finds));
    IncrementalIsBatch(Traffic(finds));
    if finds != [] {
      var before := finds[..|finds| - 1];
      assert Frida(finds)[..|finds| - 1] == Frida(before) && Traffic(finds)[..|finds| - 1] == Traffic(before);
      FeedbackIsBatch(before, parse, host);
      IncrementalIsBatch(Frida(before));
      IncrementalIsBatch(Traffic(before));
      var (f, s, t) := PollAll(before, parse, host);
      var e0, r0 := ReadAll(Stream(0, ""), Frida(before)).0, ReadAll(Stream(0, ""), Traffic(before)).0;
      var e1, r1 := ReadSpec(s, finds[|finds| - 1].0).0, ReadSpec(t, finds[|finds| - 1].1).0;
      BatchGrows(e0, e1, r0, r1, parse, host);
    }
  }

  lemma BatchGrows(e0: seq<string>, e1: seq<string>, r0: seq<string>, r1: seq<string>, parse: string -> Parsed,
                   host: string -> Option<string>)
    ensures AddHosts(AddEvents(AddHosts(AddEvents(NOTHING, e0, parse), r0, host), e1, parse), r1, host)
         == AddHosts(AddEvents(NOTHING, e0 + e1, parse), r0 + r1, host)
  {
    AddsCommute(AddEvents(NOTHING, e0, parse), e1, r0, parse, host);
    AddEventsJoin(NOTHING, e0, e1, parse);
    AddHostsJoin(AddEvents(NOTHING, e0 + e1, parse), r0, r1, host);
  }
}
