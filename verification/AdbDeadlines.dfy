/** How the explorer's backend shares deadlines among the commands it sends. Times are integer milliseconds. */
module AdbDeadlines {
  import opened Common

  datatype Refusal = DeadlineReached | TimedOut

  datatype Timeout = Granted(value: int) | Refused(reason: Refusal)

  /** Backend work: a command, an operation whose commands share a deadline, work whose timeouts are caught. */
  datatype Task = Command(requested: int) | Logical(timeout: int, body: seq<Task>) | Attempt(body: seq<Task>)

  /** When a command was sent and when it was over. */
  datatype Span = Span(start: int, end: int)

  /** The command is sent and over before the instant `limit`. */
  predicate Within(span: Span, from: int, limit: int) { from <= span.start < limit && span.start <= span.end <= limit }

  /** Every command from number `n` on runs between `from` and `limit`. */
  ghost predicate AllWithin(spans: seq<Span>, n: nat, from: int, limit: int) {
    forall i :: n <= i < |spans| ==> Within(spans[i], from, limit)
  }

  /** The commands that are sent if nothing is refused, those aside that an attempt may give up. */
  function Sure(tasks: seq<Task>): nat {
    if tasks == [] then 0 else Sure(tasks[..|tasks| - 1]) + SureOf(tasks[|tasks| - 1])
  }

  function SureOf(task: Task): nat {
    match task
    case Command(_) => 1
    case Logical(_, body) => Sure(body)
    case Attempt(_) => 0
  }

  /** No command runs over while another starts. */
  ghost predicate OneAtATime(spans: seq<Span>, now: int) {
    && (forall i :: 0 <= i < |spans| ==> spans[i].start <= spans[i].end <= now)
    && (forall i, j :: 0 <= i < j < |spans| ==> spans[i].end <= spans[j].start)
  }

  class AdbExplorerBackend {
    var deadline: Option<int>
    var logicalDeadlines: seq<int>
    var now: int
    ghost var spans: seq<Span>

    constructor (now: int)
      ensures this.now == now && deadline == None && logicalDeadlines == [] && spans == []
    {
      this.now := now;
      deadline, logicalDeadlines, spans := None, [], [];
    }

    method SetRuntimeBudget(seconds: nat)
      modifies this`deadline
      ensures deadline == Some(now + 1000 * seconds)
    {
      deadline := Some(now + 1000 * seconds);
    }

    /** `_bounded_timeout`: the largest timeout that oversteps neither the request nor a deadline. */
    method BoundedTimeout(requested: int) returns (r: Timeout)
      ensures r == Refused(DeadlineReached) <==> deadline.Some? && deadline.value <= now
      ensures r == Refused(TimedOut) <==>
                !(deadline.Some? && deadline.value <= now) && exists d :: d in logicalDeadlines && d <= now
      ensures r.Granted? ==> r.value <= requested
      ensures r.Granted? && deadline.Some? ==> now + r.value <= deadline.value
      ensures r.Granted? ==> forall d :: d in logicalDeadlines ==> now + r.value <= d
      ensures r.Granted? ==> || r.value == requested
                             || Some(now + r.value) == deadline
                             || now + r.value in logicalDeadlines
    {
      var least := requested;
      if deadline.Some? {
        var remaining := deadline.value - now;
        if remaining <= 0 {
          return Refused(DeadlineReached);
        }
        least := if remaining < least then remaining else least;
      }
      if logicalDeadlines != [] {
        var earliest := logicalDeadlines[0];
        for n := 1 to |logicalDeadlines|
          invariant earliest in logicalDeadlines
          invariant forall i :: 0 <= i < n ==> earliest <= logicalDeadlines[i]
        {
          earliest := if logicalDeadlines[n] < earliest then logicalDeadlines[n] else earliest;
        }
        var remaining := earliest - now;
        if remaining <= 0 {
          return Refused(TimedOut);
        }
        least := if remaining < least then remaining else least;
      }
      r := Granted(least);
    }

    /** Sends one command; it takes any time up to the timeout it is given. */
    method Send(requested: int) returns (refusal: Option<Refusal>)
      requires OneAtATime(spans, now)
      modifies this`now, this`spans
      ensures OneAtATime(spans, now) && now >= old(now)
      ensures |old(spans)| <= |spans| <= |old(spans)| + 1 && spans[..|old(spans)|] == old(spans)
      ensures forall d :: d in logicalDeadlines || deadline == Some(d) ==> AllWithin(spans, |old(spans)|, old(now), d)
      ensures refusal == None ==> |spans| == |old(spans)| + 1
      ensures |spans| == |old(spans)| <==>
                (deadline.Some? && deadline.value <= old(now)) || exists d :: d in logicalDeadlines && d <= old(now)
      ensures refusal == Some(DeadlineReached) ==> deadline.Some? && deadline.value <= now
    {
      var timeout := BoundedTimeout(requested);
      if timeout.Refused? {
        assert timeout == Refused(if timeout.reason.TimedOut? then TimedOut else DeadlineReached);
        return Some(timeout.reason);
      }
      var elapsed: int :| 0 <= elapsed && (elapsed == 0 || elapsed <= timeout.value);
      var expired: bool := *;
      spans := spans + [Span(now, now + elapsed)];
      now := now + elapsed;
      refusal := if expired then Some(TimedOut) else None;
    }

    /**
     * `logical_operation`: whatever happens inside, the deadlines are as before afterwards, and every command of the
     * operation runs within the time it was given.
     */
    method LogicalOperation(timeout: int, body: seq<Task>) returns (refusal: Option<Refusal>)
      requires OneAtATime(spans, now)
      modifies this`now, this`spans, this`logicalDeadlines
      decreases body, 1
      ensures logicalDeadlines == old(logicalDeadlines)
      ensures OneAtATime(spans, now) && now >= old(now)
      ensures |spans| >= |old(spans)| && spans[..|old(spans)|] == old(spans)
      ensures AllWithin(spans, |old(spans)|, old(now), old(now) + timeout)
      ensures forall d :: d in logicalDeadlines || deadline == Some(d) ==> AllWithin(spans, |old(spans)|, old(now), d)
      ensures refusal == Some(DeadlineReached) ==> deadline.Some? && deadline.value <= now
      ensures refusal == None ==> |spans| >= |old(spans)| + Sure(body)
    {
      logicalDeadlines := logicalDeadlines + [now + timeout];
      assert now + timeout in logicalDeadlines;
      refusal := Perform(body);
      logicalDeadlines := logicalDeadlines[..|logicalDeadlines| - 1];
    }

    /** Runs the tasks in order until one is refused; time may pass before each of them. */
    method Perform(tasks: seq<Task>) returns (refusal: Option<Refusal>)
      requires OneAtATime(spans, now)
      modifies this`now, this`spans, this`logicalDeadlines
      decreases tasks, 0
      ensures logicalDeadlines == old(logicalDeadlines)
      ensures OneAtATime(spans, now) && now >= old(now)
      ensures |spans| >= |old(spans)| && spans[..|old(spans)|] == old(spans)
      ensures forall d :: d in logicalDeadlines || deadline == Some(d) ==> AllWithin(spans, |old(spans)|, old(now), d)
      ensures refusal == Some(DeadlineReached) ==> deadline.Some? && deadline.value <= now
      ensures refusal == None ==> |spans| >= |old(spans)| + Sure(tasks)
    {
      refusal := None;
      for n := 0 to |tasks|
        invariant refusal == None && |spans| >= |old(spans)| + Sure(tasks[..n])
        invariant logicalDeadlines == old(logicalDeadlines)
        invariant OneAtATime(spans, now) && now >= old(now)
        invariant |spans| >= |old(spans)| && spans[..|old(spans)|] == old(spans)
        invariant forall d :: d in logicalDeadlines || deadline == Some(d) ==>
                  AllWithin(spans, |old(spans)|, old(now), d)
      {
        assert tasks[..n + 1][..n] == tasks[..n];
        var pause: int :| pause >= 0;
        now := now + pause;
        match tasks[n] {
          case Command(requested) =>
            refusal := Send(requested);
          case Logical(timeout, body) =>
            refusal := LogicalOperation(timeout, body);
          case Attempt(body) =>
            refusal := Perform(body);
            refusal := if refusal == Some(TimedOut) then None else refusal;
        }
        if refusal.Some? {
          return;
        }
      }
      assert tasks[..|tasks|] == tasks;
    }
  }
}
