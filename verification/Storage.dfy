/** The bounded private-storage inventory and the canary probe over it. */
module Storage {
  import opened Common

  datatype Root = Internal | External

  /** A line of the inventory command: not six fields, or a path with its other fields. */
  datatype Line = Malformed | Row(path: string, kind: string, details: seq<string>)

  datatype Entry = Entry(root: Root, relative: string, canonical: string, kind: string, details: seq<string>)

  datatype Limitation = MalformedEntry | PathOutsideRoots | InternalLimit | ExternalLimit | AggregateLimit

  predicate StartsWith(s: string, prefix: string) { |prefix| <= |s| && s[..|prefix|] == prefix }

  /** Where a line belongs: the entry it names, or None for the internal root itself and lines that name nothing. */
  function Place(line: Line, internal: string, external: string): Option<Entry> {
    if line.Malformed? then None
    else if StartsWith(line.path, internal) then
      var relative := line.path[|internal|..];
      if relative == "" then None else Some(Entry(Internal, relative, line.path, line.kind, line.details))
    else if StartsWith(line.path, external) then
      Some(Entry(External, "external/" + line.path[|external|..], line.path, line.kind, line.details))
    else None
  }

  predicate Outside(line: Line, internal: string, external: string) {
    line.Row? && !StartsWith(line.path, internal) && !StartsWith(line.path, external)
  }

  /** The entries of a root named by the first `n` lines, in order. */
  function Named(lines: seq<Line>, n: nat, root: Root, internal: string, external: string): seq<Entry>
    requires n <= |lines|
  {
    if n == 0 then []
    else
      var before, e := Named(lines, n - 1, root, internal, external), Place(lines[n - 1], internal, external);
      if e.Some? && e.value.root == root then before + [e.value] else before
  }

  /** The line names `e`: below the internal root by its path there, or below the external root only, marked as such. */
  ghost predicate Names(line: Line, e: Entry, internal: string, external: string) {
    && line.Row? && e.canonical == line.path && e.kind == line.kind && e.details == line.details
    && (|| (e.root.Internal? && e.relative != "" && line.path == internal + e.relative)
        || (&& e.root.External? && !StartsWith(line.path, internal)
            && exists rest: string :: line.path == external + rest && e.relative == "external/" + rest))
  }

  /** Outside are exactly the paths that go on from neither root. */
  lemma OutsideBothRoots(line: Line, internal: string, external: string)
    ensures Outside(line, internal, external) <==>
            line.Row? && forall rest: string :: line.path != internal + rest && line.path != external + rest
  {
    if line.Row? {
      if StartsWith(line.path, internal) {
        assert line.path == internal + line.path[|internal|..];
      }
      if StartsWith(line.path, external) {
        assert line.path == external + line.path[|external|..];
      }
      assert forall rest: string :: (internal + rest)[..|internal|] == internal;
      assert forall rest: string :: (external + rest)[..|external|] == external;
    }
  }

  /** The entries of a root are exactly what the lines name below it. */
  lemma {:induction false} NamedByLines(lines: seq<Line>, n: nat, root: Root, internal: string, external: string,
                                        e: Entry)
    requires n <= |lines|
    ensures e in Named(lines, n, root, internal, external) <==>
            e.root == root && exists i :: 0 <= i < n && Names(lines[i], e, internal, external)
  {
    if n > 0 {
      NamedByLines(lines, n - 1, root, internal, external, e);
      PlaceIsNamed(lines[n - 1], internal, external, e);
    }
  }

  lemma PlaceIsNamed(line: Line, internal: string, external: string, e: Entry)
    ensures Place(line, internal, external) == Some(e) <==> Names(line, e, internal, external)
  {
    if line.Row? {
      if StartsWith(line.path, internal) {
        assert line.path == internal + line.path[|internal|..];
        assert forall rest: string :: (internal + rest)[|internal|..] == rest;
      } else if StartsWith(line.path, external) {
        assert line.path == external + line.path[|external|..];
        assert forall rest: string :: (external + rest)[|external|..] == rest;
      }
      if Names(line, e, internal, external) {
        if e.root.Internal? {
          assert (internal + e.relative)[..|internal|] == internal;
        } else {
          var rest: string :| line.path == external + rest && e.relative == "external/" + rest;
          assert (external + rest)[..|external|] == external;
        }
      }
    }
  }

  // ---------------------------------------------------------------- round robin

  function At<T>(s: seq<T>, i: nat): seq<T> { if i < |s| then [s[i]] else [] }

  /** The first `n` rounds of taking one entry of each root in turn. */
  function Weave(a: seq<Entry>, b: seq<Entry>, n: nat): seq<Entry> {
    if n == 0 then [] else Weave(a, b, n - 1) + At(a, n - 1) + At(b, n - 1)
  }

  function Only(entries: seq<Entry>, root: Root): seq<Entry> {
    if entries == [] then []
    else Only(entries[..|entries| - 1], root)
         + if entries[|entries| - 1].root == root then [entries[|entries| - 1]] else []
  }

  predicate AllOf(entries: seq<Entry>, root: Root) {
    forall i :: 0 <= i < |entries| ==> entries[i].root == root
  }

  function Min(m: nat, n: nat): nat { if m < n then m else n }

  lemma OnlyAppend(entries: seq<Entry>, e: Entry, root: Root)
    ensures Only(entries + [e], root) == Only(entries, root) + if e.root == root then [e] else []
  {
    assert (entries + [e])[..|entries|] == entries;
  }

  lemma {:induction false} NamedAllOf(lines: seq<Line>, n: nat, root: Root, internal: string, external: string)
    requires n <= |lines|
    ensures AllOf(Named(lines, n, root, internal, external), root)
  {
    if n > 0 {
      NamedAllOf(lines, n - 1, root, internal, external);
    }
  }

  /** The prefix of length `k` of the rounds consists of prefixes of both roots, shared as evenly as they last. */
  ghost predicate Fair(a: seq<Entry>, b: seq<Entry>, out: seq<Entry>, i: nat, j: nat) {
    && i <= |a| && j <= |b| && i + j == |out|
    && Only(out, Internal) == a[..i] && Only(out, External) == b[..j]
    && i >= Min(|a|, (|out| + 1) / 2) && j >= Min(|b|, |out| / 2)
  }

  lemma FairAfterInternal(a: seq<Entry>, b: seq<Entry>, out: seq<Entry>, n: nat)
    requires AllOf(a, Internal) && AllOf(b, External) && Fair(a, b, out, Min(n, |a|), Min(n, |b|))
    ensures Fair(a, b, out + At(a, n), Min(n + 1, |a|), Min(n, |b|))
  {
    if n < |a| {
      OnlyAppend(out, a[n], Internal);
      OnlyAppend(out, a[n], External);
      assert a[..n + 1] == a[..n] + [a[n]];
    } else {
      assert out + At(a, n) == out;
    }
  }

  lemma FairAfterExternal(a: seq<Entry>, b: seq<Entry>, out: seq<Entry>, n: nat)
    requires AllOf(a, Internal) && AllOf(b, External) && Fair(a, b, out, Min(n + 1, |a|), Min(n, |b|))
    ensures Fair(a, b, out + At(b, n), Min(n + 1, |a|), Min(n + 1, |b|))
  {
    if n < |b| {
      OnlyAppend(out, b[n], Internal);
      OnlyAppend(out, b[n], External);
      assert b[..n + 1] == b[..n] + [b[n]];
    } else {
      assert out + At(b, n) == out;
    }
  }

  lemma {:induction false} WeaveIsFair(a: seq<Entry>, b: seq<Entry>, n: nat)
    requires AllOf(a, Internal) && AllOf(b, External)
    ensures Fair(a, b, Weave(a, b, n), Min(n, |a|), Min(n, |b|))
  {
    if n == 0 {
      NothingIsFair(a, b);
    } else {
      WeaveIsFair(a, b, n - 1);
      NextRoundIsFair(a, b, n - 1);
    }
  }

  lemma NextRoundIsFair(a: seq<Entry>, b: seq<Entry>, n: nat)
    requires AllOf(a, Internal) && AllOf(b, External) && Fair(a, b, Weave(a, b, n), Min(n, |a|), Min(n, |b|))
    ensures Fair(a, b, Weave(a, b, n + 1), Min(n + 1, |a|), Min(n + 1, |b|))
  {
    FairAfterRound(a, b, Weave(a, b, n), n);
  }

  lemma NothingIsFair(a: seq<Entry>, b: seq<Entry>)
    ensures Fair(a, b, Weave(a, b, 0), Min(0, |a|), Min(0, |b|))
  {
  }

  lemma FairAfterRound(a: seq<Entry>, b: seq<Entry>, out: seq<Entry>, n: nat)
    requires AllOf(a, Internal) && AllOf(b, External) && Fair(a, b, out, Min(n, |a|), Min(n, |b|))
    ensures Fair(a, b, out + At(a, n) + At(b, n), Min(n + 1, |a|), Min(n + 1, |b|))
  {
    FairAfterInternal(a, b, out, n);
    FairAfterExternal(a, b, out + At(a, n), n);
  }

  /** Cutting the rounds off anywhere stays fair. */
  lemma {:induction false} CutIsFair(a: seq<Entry>, b: seq<Entry>, n: nat, k: nat) returns (i: nat, j: nat)
    requires AllOf(a, Internal) && AllOf(b, External) && k <= |Weave(a, b, n)|
    ensures Fair(a, b, Weave(a, b, n)[..k], i, j)
  {
    if k == |Weave(a, b, n)| {
      WeaveIsFair(a, b, n);
      assert Weave(a, b, n)[..k] == Weave(a, b, n);
      i, j := Min(n, |a|), Min(n, |b|);
    } else if k <= |Weave(a, b, n - 1)| {
      i, j := CutIsFair(a, b, n - 1, k);
      WeaveCut(a, b, n - 1, k);
    } else {
      HalfRoundIsFair(a, b, n - 1, k);
      i, j := Min(n, |a|), Min(n - 1, |b|);
    }
  }

  lemma WeaveCut(a: seq<Entry>, b: seq<Entry>, n: nat, k: nat)
    requires k <= |Weave(a, b, n)|
    ensures k <= |Weave(a, b, n + 1)| && Weave(a, b, n + 1)[..k] == Weave(a, b, n)[..k]
  {
    PrefixOfJoin(Weave(a, b, n) + At(a, n), At(b, n), k);
    PrefixOfJoin(Weave(a, b, n), At(a, n), k);
  }

  /** Cut in the middle of a round, after the internal entry. */
  lemma HalfRoundIsFair(a: seq<Entry>, b: seq<Entry>, n: nat, k: nat)
    requires AllOf(a, Internal) && AllOf(b, External)
    requires |Weave(a, b, n)| < k < |Weave(a, b, n + 1)|
    ensures Fair(a, b, Weave(a, b, n + 1)[..k], Min(n + 1, |a|), Min(n, |b|))
  {
    var half := Weave(a, b, n) + At(a, n);
    WeaveIsFair(a, b, n);
    FairAfterInternal(a, b, Weave(a, b, n), n);
    PrefixOfJoin(half, At(b, n), k);
    assert half[..k] == half;
  }

  lemma PrefixOfJoin(x: seq<Entry>, y: seq<Entry>, k: nat)
    requires k <= |x|
    ensures (x + y)[..k] == x[..k]
  {
  }

  /** The capped rounds over the capped lists share the bound fairly between the whole lists. */
  lemma CappedIsFair(a: seq<Entry>, b: seq<Entry>, maxEntries: nat, out: seq<Entry>) returns (i: nat, j: nat)
    requires AllOf(a, Internal) && AllOf(b, External)
    requires var a1, b1 := a[..Min(|a|, maxEntries)], b[..Min(|b|, maxEntries)];
             out == Cut(Weave(a1, b1, Longest(a1, b1)), maxEntries)
    ensures i <= |a| && j <= |b| && i + j == |out| <= maxEntries
    ensures Only(out, Internal) == a[..i] && Only(out, External) == b[..j]
    ensures i >= Min(|a|, (maxEntries + 1) / 2) && j >= Min(|b|, maxEntries / 2)
    ensures |a| + |b| <= maxEntries <==> i == |a| && j == |b|
    ensures |out| == Min(maxEntries, Min(|a|, maxEntries) + Min(|b|, maxEntries))
  {
    var a1, b1 := a[..Min(|a|, maxEntries)], b[..Min(|b|, maxEntries)];
    WeaveTakesAll(a1, b1);
    i, j := CutIsFair(a1, b1, Longest(a1, b1), |out|);
    PrefixOfPrefix(a, i, Min(|a|, maxEntries));
    PrefixOfPrefix(b, j, Min(|b|, maxEntries));
    ShareArithmetic(|a|, |b|, |out|, maxEntries, i, j);
  }

  lemma WeaveTakesAll(a: seq<Entry>, b: seq<Entry>)
    requires AllOf(a, Internal) && AllOf(b, External)
    ensures |Weave(a, b, Longest(a, b))| == |a| + |b|
  {
    WeaveIsFair(a, b, Longest(a, b));
  }

  lemma PrefixOfPrefix(s: seq<Entry>, i: nat, n: nat)
    requires i <= n <= |s|
    ensures s[..n][..i] == s[..i]
  {
  }

  lemma ShareArithmetic(a: nat, b: nat, k: nat, maxEntries: nat, i: nat, j: nat)
    requires k == Min(maxEntries, Min(a, maxEntries) + Min(b, maxEntries)) && i + j == k
    requires i <= Min(a, maxEntries) && j <= Min(b, maxEntries)
    requires i >= Min(Min(a, maxEntries), (k + 1) / 2) && j >= Min(Min(b, maxEntries), k / 2)
    ensures i >= Min(a, (maxEntries + 1) / 2) && j >= Min(b, maxEntries / 2)
    ensures a + b <= maxEntries <==> i == a && j == b
  {
  }

  function Longest(a: seq<Entry>, b: seq<Entry>): nat { if |a| < |b| then |b| else |a| }

  lemma {:induction false} WeaveOfCapped(a: seq<Entry>, b: seq<Entry>, maxEntries: nat, n: nat)
    requires n <= maxEntries
    ensures Weave(a[..Min(|a|, maxEntries)], b[..Min(|b|, maxEntries)], n) == Weave(a, b, n)
  {
    if n > 0 {
      WeaveOfCapped(a, b, maxEntries, n - 1);
    }
  }

  lemma {:induction false} WeaveGrows(a: seq<Entry>, b: seq<Entry>, n: nat, m: nat)
    requires n <= m
    ensures Weave(a, b, n) <= Weave(a, b, m)
  {
    if n < m {
      WeaveGrows(a, b, n, m - 1);
    }
  }

  /** As long as one root lasts, every round takes at least one entry. */
  lemma {:induction false} WeaveLasts(a: seq<Entry>, b: seq<Entry>, n: nat)
    requires n <= Longest(a, b)
    ensures |Weave(a, b, n)| >= n
  {
    if n > 0 {
      WeaveLasts(a, b, n - 1);
    }
  }

  /** Cutting the lists off first does not change the rounds as far as they are kept. */
  lemma CappingIsHarmless(a: seq<Entry>, b: seq<Entry>, maxEntries: nat)
    ensures var a1, b1 := a[..Min(|a|, maxEntries)], b[..Min(|b|, maxEntries)];
            Cut(Weave(a1, b1, Longest(a1, b1)), maxEntries) == Cut(Weave(a, b, Longest(a, b)), maxEntries)
  {
    if Longest(a, b) <= maxEntries {
      NothingCapped(a, maxEntries);
      NothingCapped(b, maxEntries);
    } else {
      WeaveOfCapped(a, b, maxEntries, maxEntries);
      RoundsBeyond(a, b, maxEntries);
      LongestCapped(a, b, maxEntries);
    }
  }

  lemma NothingCapped(s: seq<Entry>, maxEntries: nat)
    requires |s| <= maxEntries
    ensures s[..Min(|s|, maxEntries)] == s
  {
  }

  lemma LongestCapped(a: seq<Entry>, b: seq<Entry>, maxEntries: nat)
    requires maxEntries < Longest(a, b)
    ensures Longest(a[..Min(|a|, maxEntries)], b[..Min(|b|, maxEntries)]) == maxEntries
  {
  }

  lemma RoundsBeyond(a: seq<Entry>, b: seq<Entry>, maxEntries: nat)
    requires maxEntries <= Longest(a, b)
    ensures Cut(Weave(a, b, maxEntries), maxEntries) == Cut(Weave(a, b, Longest(a, b)), maxEntries)
  {
    WeaveGrows(a, b, maxEntries, Longest(a, b));
    WeaveLasts(a, b, maxEntries);
    CutOfPrefix(Weave(a, b, maxEntries), Weave(a, b, Longest(a, b)), maxEntries);
  }

  lemma CutOfPrefix(x: seq<Entry>, y: seq<Entry>, n: nat)
    requires x <= y && n <= |x|
    ensures Cut(x, n) == Cut(y, n)
  {
  }

  // ---------------------------------------------------------------- the inventory

  /** Some of the first `n` lines is malformed (outside both roots). */
  predicate AnyMalformed(lines: seq<Line>, n: nat)
    requires n <= |lines|
  {
    exists i :: 0 <= i < n && lines[i].Malformed?
  }

  predicate AnyOutside(lines: seq<Line>, n: nat, internal: string, external: string)
    requires n <= |lines|
  {
    exists i :: 0 <= i < n && Outside(lines[i], internal, external)
  }

  method SortLines(lines: seq<Line>, internal: string, external: string)
    returns (a: seq<Entry>, b: seq<Entry>, limitations: seq<Limitation>)
    ensures a == Named(lines, |lines|, Internal, internal, external)
    ensures b == Named(lines, |lines|, External, internal, external)
    ensures MalformedEntry in limitations <==> AnyMalformed(lines, |lines|)
    ensures PathOutsideRoots in limitations <==> AnyOutside(lines, |lines|, internal, external)
    ensures limitations == [] <==> !AnyMalformed(lines, |lines|) && !AnyOutside(lines, |lines|, internal, external)
    ensures forall l :: l in limitations ==> l.MalformedEntry? || l.PathOutsideRoots?
  {
    a, b, limitations := [], [], [];
    for n := 0 to |lines|
      invariant a == Named(lines, n, Internal, internal, external)
      invariant b == Named(lines, n, External, internal, external)
      invariant MalformedEntry in limitations <==> AnyMalformed(lines, n)
      invariant PathOutsideRoots in limitations <==> AnyOutside(lines, n, internal, external)
      invariant forall l :: l in limitations ==> l.MalformedEntry? || l.PathOutsideRoots?
    {
      var line := lines[n];
      if line.Malformed? {
        if MalformedEntry !in limitations {
          limitations := limitations + [MalformedEntry];
        }
      } else if Outside(line, internal, external) {
        if PathOutsideRoots !in limitations {
          limitations := limitations + [PathOutsideRoots];
        }
      } else {
        var e := Place(line, internal, external);
        if e.Some? && e.value.root.Internal? {
          a := a + [e.value];
        } else if e.Some? {
          b := b + [e.value];
        }
      }
    }
    if limitations != [] {
      assert limitations[0] in limitations;
    }
  }

  function Cut(w: seq<Entry>, maxEntries: nat): seq<Entry> { w[..Min(maxEntries, |w|)] }

  lemma CutGrows(w: seq<Entry>, more: seq<Entry>, maxEntries: nat)
    requires |more| <= 1
    ensures Cut(w + more, maxEntries) == Cut(w, maxEntries) + if |Cut(w, maxEntries)| < maxEntries then more else []
  {
  }

  method RoundRobin(a: seq<Entry>, b: seq<Entry>, maxEntries: nat) returns (entries: seq<Entry>)
    ensures entries == Cut(Weave(a, b, Longest(a, b)), maxEntries)
  {
    entries := [];
    var longest := if |a| < |b| then |b| else |a|;
    for n := 0 to longest
      invariant entries == Cut(Weave(a, b, n), maxEntries)
    {
      ghost var w := Weave(a, b, n);
      CutGrows(w, At(a, n), maxEntries);
      CutGrows(w + At(a, n), At(b, n), maxEntries);
      if n < |a| && |entries| < maxEntries {
        entries := entries + [a[n]];
      }
      if n < |b| && |entries| < maxEntries {
        entries := entries + [b[n]];
      }
    }
  }

  predicate TooMany(a: seq<Entry>, b: seq<Entry>, maxEntries: nat) {
    Min(|a|, maxEntries) + Min(|b|, maxEntries) > maxEntries
  }

  /** What had to be left out of the entries of both roots. */
  function Bounds(a: seq<Entry>, b: seq<Entry>, maxEntries: nat): seq<Limitation> {
    (if |a| > maxEntries then [InternalLimit] else []) + (if |b| > maxEntries then [ExternalLimit] else [])
    + if TooMany(a, b, maxEntries) then [AggregateLimit] else []
  }

  /**
   * The cut of the round robin: the first `i` and `j` entries of the roots in their order, at least the half of the
   * bound that is theirs, and all of both exactly if they fit.
   */
  ghost predicate Shared(a: seq<Entry>, b: seq<Entry>, maxEntries: nat, entries: seq<Entry>, i: nat, j: nat) {
    && |entries| <= maxEntries && entries == Cut(Weave(a, b, Longest(a, b)), maxEntries)
    && i <= |a| && j <= |b| && Only(entries, Internal) == a[..i] && Only(entries, External) == b[..j]
    && i >= Min(|a|, (maxEntries + 1) / 2) && j >= Min(|b|, maxEntries / 2)
    && (|a| + |b| <= maxEntries <==> i == |a| && j == |b|)
  }

  /** The capped rounds over the capped lists are shared. */
  lemma CappedIsShared(a: seq<Entry>, b: seq<Entry>, maxEntries: nat, out: seq<Entry>) returns (i: nat, j: nat)
    requires AllOf(a, Internal) && AllOf(b, External)
    requires var a1, b1 := a[..Min(|a|, maxEntries)], b[..Min(|b|, maxEntries)];
             out == Cut(Weave(a1, b1, Longest(a1, b1)), maxEntries)
    ensures Shared(a, b, maxEntries, out, i, j)
    ensures |out| == Min(maxEntries, Min(|a|, maxEntries) + Min(|b|, maxEntries))
  {
    i, j := CappedIsFair(a, b, maxEntries, out);
    CappingIsHarmless(a, b, maxEntries);
  }

  method Cap(s: seq<Entry>, maxEntries: nat, l: Limitation) returns (capped: seq<Entry>, limitations: seq<Limitation>)
    ensures capped == s[..Min(|s|, maxEntries)] && limitations == if |s| > maxEntries then [l] else []
  {
    capped, limitations := s, [];
    if |s| > maxEntries {
      capped, limitations := s[..maxEntries], [l];
    }
  }

  /** The bounded inventory of the entries of both roots. */
  method Share(a: seq<Entry>, b: seq<Entry>, maxEntries: nat)
    returns (entries: seq<Entry>, limitations: seq<Limitation>, ghost i: nat, ghost j: nat)
    requires maxEntries >= 1 && AllOf(a, Internal) && AllOf(b, External)
    ensures Shared(a, b, maxEntries, entries, i, j) && limitations == Bounds(a, b, maxEntries)
  {
    var a1, early := Cap(a, maxEntries, InternalLimit);
    var b1, late := Cap(b, maxEntries, ExternalLimit);
    limitations := early + late;
    entries := RoundRobin(a1, b1, maxEntries);
    i, j := CappedIsShared(a, b, maxEntries, entries);
    if |a1| + |b1| > |entries| {
      limitations := limitations + [AggregateLimit];
    }
  }

  /** Which limitations a listing reports. */
  ghost predicate Reported(lines: seq<Line>, internal: string, external: string, maxEntries: nat, l: Limitation) {
    var a := Named(lines, |lines|, Internal, internal, external);
    var b := Named(lines, |lines|, External, internal, external);
    match l
    case MalformedEntry => AnyMalformed(lines, |lines|)
    case PathOutsideRoots => AnyOutside(lines, |lines|, internal, external)
    case InternalLimit => |a| > maxEntries
    case ExternalLimit => |b| > maxEntries
    case AggregateLimit => TooMany(a, b, maxEntries)
  }

  lemma EachIsReported(lines: seq<Line>, internal: string, external: string, maxEntries: nat, early: seq<Limitation>,
                       more: seq<Limitation>)
    requires MalformedEntry in early <==> AnyMalformed(lines, |lines|)
    requires PathOutsideRoots in early <==> AnyOutside(lines, |lines|, internal, external)
    requires forall l :: l in early ==> l.MalformedEntry? || l.PathOutsideRoots?
    requires more == Bounds(Named(lines, |lines|, Internal, internal, external),
                            Named(lines, |lines|, External, internal, external), maxEntries)
    ensures forall l :: l in early + more <==> Reported(lines, internal, external, maxEntries, l)
  {
  }

  /**
   * `list_storage` from the command's lines on: at most `maxEntries` rows, a fair order-preserving share of both roots,
   * each limitation reported exactly when it applies, and "completed" exactly when every line was understood and every
   * entry is listed.
   */
  method ListStorage(lines: seq<Line>, internal: string, external: string, maxEntries: nat)
    returns (entries: seq<Entry>, limitations: seq<Limitation>, completed: bool, ghost i: nat, ghost j: nat)
    requires 1 <= maxEntries <= 1000
    ensures var a := Named(lines, |lines|, Internal, internal, external);
            var b := Named(lines, |lines|, External, internal, external);
            && Shared(a, b, maxEntries, entries, i, j)
            && (completed <==>
                  && !AnyMalformed(lines, |lines|) && !AnyOutside(lines, |lines|, internal, external)
                  && |a| + |b| <= maxEntries)
    ensures completed <==> limitations == []
    ensures forall l :: l in limitations <==> Reported(lines, internal, external, maxEntries, l)
  {
    var a, b, more;
    a, b, limitations := SortLines(lines, internal, external);
    NamedAllOf(lines, |lines|, Internal, internal, external);
    NamedAllOf(lines, |lines|, External, internal, external);
    entries, more, i, j := Share(a, b, maxEntries);
    EachIsReported(lines, internal, external, maxEntries, limitations, more);
    limitations := limitations + more;
    completed := limitations == [];
  }

  // ---------------------------------------------------------------- the canary probe

  datatype Policy = Policy(maxFileSize: nat, maxEvidence: nat, maxTotalScan: nat, extensions: set<string>) {
    predicate Valid() {
      && 1 <= maxFileSize <= 50 * 1024 * 1024 && 1 <= maxEvidence <= 1000 && 1 <= maxTotalScan <= 50 * 1024 * 1024
    }
  }

  /** An inventory entry as the probe reads it; `plain` when its path is relative without dot components. */
  datatype Raw = Raw(path: string, plain: bool, kind: string, symlinked: bool, size: Option<int>, suffix: string)

  datatype Candidate = Candidate(path: string, size: nat)

  /** What happens when a candidate's turn comes: time left, the path accepted, the outcome of the search. */
  datatype Turn = Turn(expired: bool, accepted: bool, outcome: Outcome)

  datatype Outcome = Found | NotFound | TimedOut | CommandFailed

  datatype ProbeStatus = Completed | Partial | ProbeTimedOut | ProbeError

  datatype ProbeLimitation = EntryLimit | TimeBudget | ByteBudget | PathRejected | CommandTimedOut | SearchFailed

  /** `_canary_probe_candidate`. */
  function Eligible(raw: Raw, policy: Policy): Option<Candidate> {
    if raw.path == "" || !raw.plain || raw.kind !in {"file", "regular", "external"} || raw.symlinked then None
    else if raw.size == None || raw.size.value < 0 || raw.size.value > policy.maxFileSize then None
    else if raw.suffix !in policy.extensions then None
    else Some(Candidate(raw.path, raw.size.value))
  }

  function Candidates(entries: seq<Raw>, policy: Policy): seq<Candidate> {
    if entries == [] then []
    else
      var before, c := Candidates(entries[..|entries| - 1], policy), Eligible(entries[|entries| - 1], policy);
      if c.Some? then before + [c.value] else before
  }

  function Bytes(cs: seq<Candidate>): nat { if cs == [] then 0 else Bytes(cs[..|cs| - 1]) + cs[|cs| - 1].size }

  /** Some candidate with this path among the first `n` was searched with the given outcome. */
  ghost predicate Verdict(cs: seq<Candidate>, n: nat, turns: nat -> Turn, path: string, found: bool)
    requires n <= |cs|
  {
    exists i: nat :: i < n && cs[i].path == path && turns(i).outcome == (if found then Found else NotFound)
  }

  /** A turn that ends with an answer. */
  predicate Answered(turn: Turn) {
    !turn.expired && turn.accepted && (turn.outcome.Found? || turn.outcome.NotFound?)
  }

  lemma {:induction false} BytesGrow(cs: seq<Candidate>, n: nat)
    requires n <= |cs|
    ensures Bytes(cs[..n]) <= Bytes(cs)
    decreases |cs|
  {
    if n < |cs| {
      BytesGrow(cs[..|cs| - 1], n);
      assert cs[..|cs| - 1][..n] == cs[..n];
    } else {
      assert cs[..n] == cs;
    }
  }

  lemma BytesNext(cs: seq<Candidate>, i: nat)
    requires i < |cs|
    ensures Bytes(cs[..i + 1]) == Bytes(cs[..i]) + cs[i].size
  {
    assert cs[..i + 1][..i] == cs[..i];
  }

  /** A regular file below a root, not behind a link, of a size and a kind that may be searched. */
  predicate Searchable(raw: Raw, policy: Policy) {
    && raw.path != "" && raw.plain && !raw.symlinked
    && (raw.kind == "file" || raw.kind == "regular" || raw.kind == "external")
    && raw.size.Some? && 0 <= raw.size.value <= policy.maxFileSize && raw.suffix in policy.extensions
  }

  /** The candidates are the searchable entries. */
  lemma {:induction false} CandidatesAreSearchable(entries: seq<Raw>, policy: Policy, c: Candidate)
    ensures c in Candidates(entries, policy) <==>
            exists raw :: raw in entries && Searchable(raw, policy) && raw.path == c.path && raw.size == Some(c.size)
  {
    if entries != [] {
      CandidatesAreSearchable(entries[..|entries| - 1], policy, c);
      assert entries == entries[..|entries| - 1] + [entries[|entries| - 1]];
    }
  }

  /** What a probe tells so far: matches, status and limitations. */
  datatype Report = Report(matches: map<string, bool>, status: ProbeStatus, limitations: seq<ProbeLimitation>)

  /** What holds of every report: budgets kept, nothing but candidates searched, an honest status. */
  ghost predicate Honest(cs: seq<Candidate>, policy: Policy, turns: nat -> Turn, r: Report, probed: seq<Candidate>) {
    && Bytes(probed) <= policy.maxTotalScan && |probed| <= policy.maxEvidence && (forall c :: c in probed ==> c in cs)
    && (r.status.Completed? <==> r.limitations == [])
    && (forall path :: path in r.matches ==> Verdict(cs, |cs|, turns, path, r.matches[path]))
    && (EntryLimit in r.limitations <==> |cs| > policy.maxEvidence)
    && (r.status.ProbeTimedOut? <==> CommandTimedOut in r.limitations)
    && (r.status.ProbeError? <==> SearchFailed in r.limitations)
  }

  /** After `i` turns with the probe still going. */
  ghost predicate Going(cs: seq<Candidate>, policy: Policy, turns: nat -> Turn, r: Report, probed: seq<Candidate>,
                        i: nat) {
    && Honest(cs, policy, turns, r, probed) && |probed| <= i <= |cs| && (r.status.Completed? || r.status.Partial?)
    && (r.status.Completed? <==> |cs| <= policy.maxEvidence && forall k: nat :: k < i ==> Answered(turns(k)))
    && (r.status.Completed? ==> probed == cs[..i] && forall k: nat :: k < i ==> cs[k].path in r.matches)
  }

  /** All candidates fit into the budgets and every turn ends with an answer. */
  ghost predicate AllAnswered(cs: seq<Candidate>, policy: Policy, turns: nat -> Turn) {
    && |cs| <= policy.maxEvidence && Bytes(cs) <= policy.maxTotalScan
    && forall k: nat :: k < |cs| ==> Answered(turns(k))
  }

  function Limited(r: Report, status: ProbeStatus, l: ProbeLimitation): Report {
    r.(status := status, limitations := r.limitations + [l])
  }

  /** A limitation met while the probe was going is honestly reported. */
  lemma LimitationIsHonest(cs: seq<Candidate>, policy: Policy, turns: nat -> Turn, r: Report, probed: seq<Candidate>,
                           status: ProbeStatus, l: ProbeLimitation)
    requires Honest(cs, policy, turns, r, probed) && (r.status.Completed? || r.status.Partial?)
    requires !status.Completed? && l != EntryLimit
    requires (status.ProbeTimedOut? <==> l == CommandTimedOut) && (status.ProbeError? <==> l == SearchFailed)
    ensures Honest(cs, policy, turns, Limited(r, status, l), probed)
  {
    forall x ensures x in r.limitations + [l] <==> x in r.limitations || x == l {
    }
  }

  /** The turn of candidate `i`; `stop` when the probe ends with it. */
  method TakeTurn(cs: seq<Candidate>, policy: Policy, turns: nat -> Turn, r: Report, scanned: nat,
                  ghost probed: seq<Candidate>, i: nat)
    returns (r1: Report, scanned1: nat, ghost probed1: seq<Candidate>, stop: bool)
    requires Going(cs, policy, turns, r, probed, i) && i < |cs| && i < policy.maxEvidence && scanned == Bytes(probed)
    ensures scanned1 == Bytes(probed1)
    ensures if stop then
              Honest(cs, policy, turns, r1, probed1) && !r1.status.Completed? && !AllAnswered(cs, policy, turns)
            else Going(cs, policy, turns, r1, probed1, i + 1)
  {
    var c, turn := cs[i], turns(i);
    scanned1, probed1, stop := scanned, probed, true;
    if turn.expired {
      LimitationIsHonest(cs, policy, turns, r, probed, Partial, TimeBudget);
      r1 := Limited(r, Partial, TimeBudget);
    } else if scanned + c.size > policy.maxTotalScan {
      LimitationIsHonest(cs, policy, turns, r, probed, Partial, ByteBudget);
      r1 := Limited(r, Partial, ByteBudget);
      OverBudget(cs, policy, turns, r, probed, i);
    } else if !turn.accepted {
      LimitationIsHonest(cs, policy, turns, r, probed, Partial, PathRejected);
      r1, stop := Limited(r, Partial, PathRejected), false;
    } else {
      scanned1, probed1 := scanned + c.size, probed + [c];
      assert probed1[..|probed|] == probed;
      r1, stop := Search(cs, policy, turns, r, probed, i);
    }
  }

  lemma OverBudget(cs: seq<Candidate>, policy: Policy, turns: nat -> Turn, r: Report, probed: seq<Candidate>, i: nat)
    requires Going(cs, policy, turns, r, probed, i) && i < |cs| && Bytes(probed) + cs[i].size > policy.maxTotalScan
    ensures !AllAnswered(cs, policy, turns)
  {
    if r.status.Completed? {
      BytesNext(cs, i);
      BytesGrow(cs, i + 1);
    }
  }

  lemma SearchedIsHonest(cs: seq<Candidate>, policy: Policy, turns: nat -> Turn, r: Report, probed: seq<Candidate>,
                         i: nat)
    requires Going(cs, policy, turns, r, probed, i) && i < |cs| && i < policy.maxEvidence
    requires Bytes(probed) + cs[i].size <= policy.maxTotalScan
    ensures Honest(cs, policy, turns, r, probed + [cs[i]])
  {
    assert (probed + [cs[i]])[..|probed|] == probed;
  }

  /** The search itself, in file `i`. */
  method Search(cs: seq<Candidate>, policy: Policy, turns: nat -> Turn, r: Report, ghost probed: seq<Candidate>, i: nat)
    returns (r1: Report, stop: bool)
    requires Going(cs, policy, turns, r, probed, i) && i < |cs| && i < policy.maxEvidence
    requires !turns(i).expired && turns(i).accepted && Bytes(probed) + cs[i].size <= policy.maxTotalScan
    ensures if stop then
              && Honest(cs, policy, turns, r1, probed + [cs[i]])
              && !r1.status.Completed? && !AllAnswered(cs, policy, turns)
            else Going(cs, policy, turns, r1, probed + [cs[i]], i + 1)
  {
    var outcome := turns(i).outcome;
    stop := true;
    SearchedIsHonest(cs, policy, turns, r, probed, i);
    if outcome.TimedOut? {
      LimitationIsHonest(cs, policy, turns, r, probed + [cs[i]], ProbeTimedOut, CommandTimedOut);
      r1 := Limited(r, ProbeTimedOut, CommandTimedOut);
    } else if outcome.CommandFailed? {
      LimitationIsHonest(cs, policy, turns, r, probed + [cs[i]], ProbeError, SearchFailed);
      r1 := Limited(r, ProbeError, SearchFailed);
    } else {
      assert Verdict(cs, |cs|, turns, cs[i].path, outcome.Found?);
      r1 := r.(matches := r.matches[cs[i].path := outcome.Found?]);
      stop := false;
    }
  }

  /**
   * `probe_exact_canary`: the files searched stay within the byte and count budgets. It is completed exactly if all
   * candidates fit into the budgets and every turn ends with an answer, and then every candidate has a verdict.
   */
  method ProbeExactCanary(entries: seq<Raw>, policy: Policy, turns: nat -> Turn)
    returns (r: Report, ghost probed: seq<Candidate>)
    requires policy.Valid()
    ensures Honest(Candidates(entries, policy), policy, turns, r, probed)
    ensures r.status.Completed? <==> AllAnswered(Candidates(entries, policy), policy, turns)
    ensures r.status.Completed? ==>
              && probed == Candidates(entries, policy)
              && forall c :: c in Candidates(entries, policy) ==> c.path in r.matches
  {
    var cs := Candidates(entries, policy);
    r := if |cs| > policy.maxEvidence then Report(map[], Partial, [EntryLimit]) else Report(map[], Completed, []);
    probed := [];
    var scanned := 0;
    var i, stop := 0, false;
    while i < |cs| && i < policy.maxEvidence && !stop
      invariant scanned == Bytes(probed)
      invariant if stop then Honest(cs, policy, turns, r, probed) && !r.status.Completed? &&
                !AllAnswered(cs, policy, turns)
                else Going(cs, policy, turns, r, probed, i)
      decreases |cs| - i, !stop
    {
      r, scanned, probed, stop := TakeTurn(cs, policy, turns, r, scanned, probed, i);
      i := if stop then i else i + 1;
    }
    assert cs[..|cs|] == cs;
  }
}
