/** What the forest read from the lines is, and when printing a forest and parsing it returns it. */
module AaptForest {
  import opened AaptTree

  function RecOf(t: Tree): Rec { Rec(t.tag, t.indent, t.attrs) }

  function Preorder(forest: seq<Tree>): seq<Rec> {
    if forest == [] then []
    else [RecOf(forest[0])] + Preorder(forest[0].kids) + Preorder(forest[1..])
  }

  /** The element lines of `lo..hi` in order, each with the attributes it owns. */
  function Records(lines: seq<Line>, lo: nat, hi: nat): seq<Rec>
    requires lo <= hi <= |lines|
  {
    if lo == hi then []
    else Records(lines, lo, hi - 1)
         + if !lines[hi - 1].Elem? then []
           else [Rec(lines[hi - 1].tag, lines[hi - 1].indent, Attrs(lines, hi - 1, |lines|))]
  }

  lemma {:induction false} RecordsSplit(lines: seq<Line>, lo: nat, m: nat, hi: nat)
    requires lo <= m <= hi <= |lines|
    ensures Records(lines, lo, hi) == Records(lines, lo, m) + Records(lines, m, hi)
  {
    if m < hi {
      RecordsSplit(lines, lo, m, hi - 1);
    }
  }

  lemma PreorderCons(t: Tree, rest: seq<Tree>)
    ensures Preorder([t] + rest) == [RecOf(t)] + Preorder(t.kids) + Preorder(rest)
  {
    assert ([t] + rest)[1..] == rest;
  }

  lemma RecordsOfBlock(lines: seq<Line>, lo: nat, m: nat, hi: nat)
    requires lo < m <= hi <= |lines| && lines[lo].Elem?
    ensures Records(lines, lo, hi)
         == [Rec(lines[lo].tag, lines[lo].indent, Attrs(lines, lo, |lines|))]
            + Records(lines, lo + 1, m) + Records(lines, m, hi)
  {
    var first := [Rec(lines[lo].tag, lines[lo].indent, Attrs(lines, lo, |lines|))];
    assert Records(lines, lo, lo + 1) == first by {
      assert Records(lines, lo, lo) == [];
    }
    assert Records(lines, lo, m) == first + Records(lines, lo + 1, m) by {
      RecordsSplit(lines, lo, lo + 1, m);
    }
    assert Records(lines, lo, hi) == Records(lines, lo, m) + Records(lines, m, hi) by {
      RecordsSplit(lines, lo, m, hi);
    }
  }

  lemma {:induction false} NestPreorder(lines: seq<Line>, lo: nat, hi: nat)
    requires lo <= hi <= |lines|
    ensures Preorder(Nest(lines, lo, hi)) == Records(lines, lo, hi)
    decreases hi - lo
  {
    if lo < hi && lines[lo].Elem? {
      var m := BlockEnd(lines, lo + 1, hi, lines[lo].indent);
      NestPreorder(lines, lo + 1, m);
      NestPreorder(lines, m, hi);
      BlockPreorder(lines, lo, m, hi);
    } else if lo < hi {
      RecordsSplit(lines, lo, lo + 1, hi);
      NestPreorder(lines, lo + 1, hi);
    }
  }

  lemma BlockPreorder(lines: seq<Line>, lo: nat, m: nat, hi: nat)
    requires lo < hi <= |lines| && lines[lo].Elem? && m == BlockEnd(lines, lo + 1, hi, lines[lo].indent)
    requires Preorder(Nest(lines, lo + 1, m)) == Records(lines, lo + 1, m)
    requires Preorder(Nest(lines, m, hi)) == Records(lines, m, hi)
    ensures Preorder(Nest(lines, lo, hi)) == Records(lines, lo, hi)
  {
    var tree := Tree(lines[lo].tag, lines[lo].indent, Attrs(lines, lo, |lines|), Nest(lines, lo + 1, m));
    assert Nest(lines, lo, hi) == [tree] + Nest(lines, m, hi);
    PreorderCons(tree, Nest(lines, m, hi));
    RecordsOfBlock(lines, lo, m, hi);
  }

  /** The preorder of the parsed forest is the element lines in order, each with the attribute lines it owns. */
  lemma PreorderIsLineOrder(lines: seq<Line>)
    ensures Preorder(Parse(lines)) == Records(lines, 0, |lines|)
  {
    NestPreorder(lines, 0, |lines|);
  }

  // ---------------------------------------------------------------- well-formed forests

  predicate Deeper(forest: seq<Tree>, indent: int) {
    forall t :: t in forest ==> t.indent > indent
  }

  predicate NoDeeperThanPrevious(forest: seq<Tree>) {
    forall i, j :: 0 <= i < j < |forest| ==> forest[j].indent <= forest[i].indent
  }

  /** Children deeper than their parent, no sibling deeper than one before it, no attribute named twice. */
  predicate WellFormed(forest: seq<Tree>) {
    && NoDeeperThanPrevious(forest)
    && forall t :: t in forest ==> UniqueNames(t.attrs) && Deeper(t.kids, t.indent) && WellFormed(t.kids)
  }

  lemma {:induction false} AttrsUnique(lines: seq<Line>, p: int, n: nat)
    requires n <= |lines|
    ensures UniqueNames(Attrs(lines, p, n))
  {
    if n > 0 {
      AttrsUnique(lines, p, n - 1);
      if lines[n - 1].Attr? && Owner(lines, n - 1) == p {
        PutKeepsUnique(Attrs(lines, p, n - 1), lines[n - 1].name, lines[n - 1].value);
      }
    }
  }

  /** The first element line of the range, if there is one, is at most this deep. */
  ghost predicate StartsWithin(lines: seq<Line>, lo: nat, hi: nat, high: int)
    requires lo <= hi <= |lines|
    decreases hi - lo
  {
    lo < hi ==> if lines[lo].Elem? then lines[lo].indent <= high else StartsWithin(lines, lo + 1, hi, high)
  }

  lemma {:induction false} DeepestStarts(lines: seq<Line>, lo: nat, hi: nat, high: int)
    requires lo <= hi <= |lines| && forall j :: lo <= j < hi && lines[j].Elem? ==> lines[j].indent <= high
    ensures StartsWithin(lines, lo, hi, high)
    decreases hi - lo
  {
    if lo < hi {
      DeepestStarts(lines, lo + 1, hi, high);
    }
  }

  lemma WellFormedCons(t: Tree, rest: seq<Tree>)
    requires UniqueNames(t.attrs) && Deeper(t.kids, t.indent) && WellFormed(t.kids)
    requires WellFormed(rest) && forall r :: r in rest ==> r.indent <= t.indent
    ensures WellFormed([t] + rest)
  {
    var all := [t] + rest;
    forall i, j | 0 <= i < j < |all| ensures all[j].indent <= all[i].indent {
      assert all[j] == rest[j - 1] && rest[j - 1] in rest;
    }
  }

  lemma {:induction false} NestWellFormed(lines: seq<Line>, lo: nat, hi: nat, low: int, high: nat)
    requires lo <= hi <= |lines| && StartsWithin(lines, lo, hi, high)
    requires forall j :: lo <= j < hi && lines[j].Elem? ==> low < lines[j].indent
    ensures WellFormed(Nest(lines, lo, hi)) && Deeper(Nest(lines, lo, hi), low)
    ensures forall t :: t in Nest(lines, lo, hi) ==> t.indent <= high
    decreases hi - lo
  {
    if lo < hi {
      if lines[lo].Elem? {
        var indent := lines[lo].indent;
        var m := BlockEnd(lines, lo + 1, hi, indent);
        var deepest := Deepest(lines, lo + 1, m);
        DeepestStarts(lines, lo + 1, m, deepest);
        NestWellFormed(lines, lo + 1, m, indent, deepest);
        NestWellFormed(lines, m, hi, low, indent);
        AttrsUnique(lines, lo, |lines|);
        WellFormedCons(Tree(lines[lo].tag, indent, Attrs(lines, lo, |lines|), Nest(lines, lo + 1, m)),
                       Nest(lines, m, hi));
      } else {
        NestWellFormed(lines, lo + 1, hi, low, high);
      }
    }
  }

  ghost function Deepest(lines: seq<Line>, lo: nat, hi: nat): (r: nat)
    requires lo <= hi <= |lines|
    ensures forall j :: lo <= j < hi && lines[j].Elem? ==> lines[j].indent <= r
  {
    if lo == hi then 0
    else
      var r := Deepest(lines, lo, hi - 1);
      if lines[hi - 1].Elem? && lines[hi - 1].indent > r then lines[hi - 1].indent else r
  }

  /** Every parsed forest is well formed. */
  lemma ParsedIsWellFormed(lines: seq<Line>)
    ensures WellFormed(Parse(lines))
  {
    DeepestStarts(lines, 0, |lines|, Deepest(lines, 0, |lines|));
    NestWellFormed(lines, 0, |lines|, -1, Deepest(lines, 0, |lines|));
  }

  // ---------------------------------------------------------------- a preorder determines a well-formed forest

  lemma {:induction false} PreorderDeeper(forest: seq<Tree>, indent: int)
    requires WellFormed(forest) && Deeper(forest, indent)
    ensures forall r :: r in Preorder(forest) ==> r.indent > indent
  {
    if forest != [] {
      var t := forest[0];
      assert t in forest;
      PreorderDeeper(t.kids, t.indent);
      PreorderDeeper(forest[1..], indent);
    }
  }

  lemma SplitAtFirstNotDeeper(x: Rec, a: seq<Rec>, b: seq<Rec>, y: Rec, c: seq<Rec>, d: seq<Rec>)
    requires [x] + a + b == [y] + c + d
    requires forall r :: r in a ==> r.indent > x.indent
    requires forall r :: r in c ==> r.indent > y.indent
    requires b != [] ==> b[0].indent <= x.indent
    requires d != [] ==> d[0].indent <= y.indent
    ensures x == y && a == c && b == d
  {
    assert x == ([x] + a + b)[0] == ([y] + c + d)[0] == y;
    assert a + b == ([x] + a + b)[1..] == ([y] + c + d)[1..] == c + d;
    DescentIs(a, b, x.indent);
    DescentIs(c, d, y.indent);
    assert a == (a + b)[..|a|] && c == (c + d)[..|c|] && b == (a + b)[|a|..] && d == (c + d)[|c|..];
  }

  /** How many records in a row are deeper than `indent`. */
  ghost function Descent(recs: seq<Rec>, indent: nat): nat {
    if recs == [] || recs[0].indent <= indent then 0 else 1 + Descent(recs[1..], indent)
  }

  lemma {:induction false} DescentIs(a: seq<Rec>, b: seq<Rec>, indent: nat)
    requires forall r :: r in a ==> r.indent > indent
    requires b != [] ==> b[0].indent <= indent
    ensures Descent(a + b, indent) == |a|
  {
    if a == [] {
      assert a + b == b;
    } else {
      assert (a + b)[1..] == a[1..] + b;
      DescentIs(a[1..], b, indent);
    }
  }

  /** A well-formed forest is determined by its preorder with indents. */
  lemma {:induction false} PreorderDetermines(f: seq<Tree>, g: seq<Tree>)
    requires WellFormed(f) && WellFormed(g) && Preorder(f) == Preorder(g)
    ensures f == g
    decreases f
  {
    if f != [] && g != [] {
      var s, t := f[0], g[0];
      assert s in f && t in g;
      PreorderDeeper(s.kids, s.indent);
      PreorderDeeper(t.kids, t.indent);
      PreorderStart(f);
      PreorderStart(g);
      SplitAtFirstNotDeeper(RecOf(s), Preorder(s.kids), Preorder(f[1..]), RecOf(t), Preorder(t.kids), Preorder(g[1..]));
      PreorderDetermines(s.kids, t.kids);
      PreorderDetermines(f[1..], g[1..]);
      assert f == [s] + f[1..] && g == [t] + g[1..];
    }
  }

  lemma PreorderStart(f: seq<Tree>)
    requires f != [] && WellFormed(f)
    ensures WellFormed(f[1..])
    ensures Preorder(f[1..]) != [] ==> Preorder(f[1..])[0].indent <= f[0].indent
  {
    if |f| > 1 {
      assert Preorder(f[1..])[0] == RecOf(f[1]);
    }
  }

  // ---------------------------------------------------------------- printing

  /** For each element in order, by how many columns more than one each of its attributes is deeper; 0 if not listed. */
  type Layout = seq<seq<nat>>

  function Gap(layout: Layout, k: nat, i: nat): nat {
    if k < |layout| && i < |layout[k]| then layout[k][i] else 0
  }

  /** The first `n` attribute lines of the k-th element. */
  function FieldLines(r: Rec, layout: Layout, k: nat, n: nat): seq<Line>
    requires n <= |r.attrs|
  {
    if n == 0 then []
    else
      var f := r.attrs[n - 1];
      FieldLines(r, layout, k, n - 1) + [Attr(r.indent + 1 + Gap(layout, k, n - 1), f.name, f.value)]
  }

  function RecLines(r: Rec, layout: Layout, k: nat): seq<Line> {
    [Elem(r.indent, r.tag)] + FieldLines(r, layout, k, |r.attrs|)
  }

  /** The dump of a forest: each element, its attributes deeper, then its children. */
  function Print(forest: seq<Tree>, layout: Layout): seq<Line> { PrintFrom(forest, layout, 0) }

  /** The same for a forest whose first element is number `k`. */
  function PrintFrom(forest: seq<Tree>, layout: Layout, k: nat): seq<Line> {
    if forest == [] then []
    else
      RecLines(RecOf(forest[0]), layout, k) + PrintFrom(forest[0].kids, layout, k + 1)
      + PrintFrom(forest[1..], layout, k + 1 + |Preorder(forest[0].kids)|)
  }

  function PrintRecs(recs: seq<Rec>, layout: Layout, k: nat): seq<Line> {
    if recs == [] then [] else RecLines(recs[0], layout, k) + PrintRecs(recs[1..], layout, k + 1)
  }

  lemma {:induction false} PrintRecsAppend(a: seq<Rec>, b: seq<Rec>, layout: Layout, k: nat)
    ensures PrintRecs(a + b, layout, k) == PrintRecs(a, layout, k) + PrintRecs(b, layout, k + |a|)
  {
    if a == [] {
      assert a + b == b;
    } else {
      assert (a + b)[1..] == a[1..] + b;
      PrintRecsAppend(a[1..], b, layout, k + 1);
    }
  }

  lemma {:induction false} PrintIsPrintRecs(forest: seq<Tree>, layout: Layout, k: nat)
    ensures PrintFrom(forest, layout, k) == PrintRecs(Preorder(forest), layout, k)
  {
    if forest != [] {
      PrintIsPrintRecs(forest[0].kids, layout, k + 1);
      PrintIsPrintRecs(forest[1..], layout, k + 1 + |Preorder(forest[0].kids)|);
      PrintStep(forest, layout, k);
    }
  }

  lemma PrintStep(forest: seq<Tree>, layout: Layout, k: nat)
    requires forest != []
    requires PrintFrom(forest[0].kids, layout, k + 1) == PrintRecs(Preorder(forest[0].kids), layout, k + 1)
    requires var k1 := k + 1 + |Preorder(forest[0].kids)|;
             PrintFrom(forest[1..], layout, k1) == PrintRecs(Preorder(forest[1..]), layout, k1)
    ensures PrintFrom(forest, layout, k) == PrintRecs(Preorder(forest), layout, k)
  {
    PrintThree(RecOf(forest[0]), Preorder(forest[0].kids), Preorder(forest[1..]), layout, k);
  }

  lemma PrintThree(r: Rec, kids: seq<Rec>, rest: seq<Rec>, layout: Layout, k: nat)
    ensures PrintRecs([r] + kids + rest, layout, k)
         == RecLines(r, layout, k) + PrintRecs(kids, layout, k + 1) + PrintRecs(rest, layout, k + 1 + |kids|)
  {
    var recs := [r] + kids + rest;
    assert recs[0] == r && recs[1..] == kids + rest;
    PrintRecsAppend(kids, rest, layout, k + 1);
    JoinsAssociate(RecLines(r, layout, k), PrintRecs(kids, layout, k + 1), PrintRecs(rest, layout, k + 1 + |kids|));
  }

  lemma JoinsAssociate(x: seq<Line>, y: seq<Line>, z: seq<Line>)
    ensures x + y + z == x + (y + z)
  {
  }

  // ---------------------------------------------------------------- reading a print back

  lemma {:induction false} NearestPrefix(lines: seq<Line>, more: seq<Line>, k: nat, indent: nat)
    requires k <= |lines|
    ensures Nearest(lines + more, k, indent) == Nearest(lines, k, indent)
  {
    if k > 0 {
      NearestPrefix(lines, more, k - 1, indent);
    }
  }

  lemma {:induction false} AttrsPrefix(lines: seq<Line>, more: seq<Line>, p: int, n: nat)
    requires n <= |lines|
    ensures Attrs(lines + more, p, n) == Attrs(lines, p, n)
  {
    if n > 0 {
      AttrsPrefix(lines, more, p, n - 1);
      if !lines[n - 1].Other? {
        NearestPrefix(lines, more, n - 1, lines[n - 1].indent);
      }
    }
  }

  /** Line `k` is an element, and the lines after it are these fields, all of them deeper. */
  ghost predicate FieldsFollow(all: seq<Line>, k: nat, fields: seq<Field>) {
    && k + |fields| < |all| && all[k].Elem?
    && forall j :: k < j <= k + |fields| ==> IsField(all[j], fields[j - k - 1]) && all[j].indent > all[k].indent
  }

  predicate IsField(line: Line, f: Field) { line.Attr? && line.name == f.name && line.value == f.value }

  lemma FieldOwner(all: seq<Line>, k: nat, fields: seq<Field>, j: nat)
    requires FieldsFollow(all, k, fields) && k < j <= k + |fields|
    ensures IsField(all[j], fields[j - k - 1]) && Owner(all, j) == k
  {
    NearestSkips(all, k + 1, j, all[j].indent);
  }

  /** Fields go to the element they follow. */
  lemma {:induction false} FieldsGoAbove(all: seq<Line>, k: nat, fields: seq<Field>, n: nat)
    requires UniqueNames(fields) && n <= |fields| && FieldsFollow(all, k, fields)
    ensures Attrs(all, k, k + 1 + n) == fields[..n]
  {
    if n == 0 {
      NothingOwnedBefore(all, k, k + 1);
    } else {
      FieldsGoAbove(all, k, fields, n - 1);
      FieldOwner(all, k, fields, k + n);
      FieldStep(all, k, k + n);
      PutNext(fields, n - 1);
    }
  }

  /** They go to no other. */
  lemma {:induction false} FieldsPassBy(all: seq<Line>, k: nat, fields: seq<Field>, n: nat, p: int)
    requires n <= |fields| && FieldsFollow(all, k, fields) && p != k
    ensures Attrs(all, p, k + 1 + n) == Attrs(all, p, k)
  {
    if n > 0 {
      FieldsPassBy(all, k, fields, n - 1, p);
      FieldOwner(all, k, fields, k + n);
      FieldStep(all, p, k + n);
    }
  }

  lemma FieldStep(all: seq<Line>, p: int, j: nat)
    requires j < |all| && all[j].Attr?
    ensures Attrs(all, p, j + 1)
         == if Owner(all, j) == p then Put(Attrs(all, p, j), all[j].name, all[j].value) else Attrs(all, p, j)
  {
  }

  lemma PutNext(fields: seq<Field>, n: nat)
    requires UniqueNames(fields) && n < |fields|
    ensures Put(fields[..n], fields[n].name, fields[n].value) == fields[..n + 1]
  {
    PutNew(fields[..n], fields[n].name, fields[n].value);
  }

  lemma {:induction false} FieldLinesAt(r: Rec, layout: Layout, k: nat, n: nat)
    requires n <= |r.attrs|
    ensures |FieldLines(r, layout, k, n)| == n
    ensures forall i :: 0 <= i < n ==>
              IsField(FieldLines(r, layout, k, n)[i], r.attrs[i]) && FieldLines(r, layout, k, n)[i].indent > r.indent
  {
    if n > 0 {
      FieldLinesAt(r, layout, k, n - 1);
    }
  }

  lemma PrintedFieldsFollow(lines: seq<Line>, r: Rec, layout: Layout, k: nat)
    ensures |RecLines(r, layout, k)| == 1 + |r.attrs|
    ensures FieldsFollow(lines + RecLines(r, layout, k), |lines|, r.attrs)
  {
    var all, own := lines + RecLines(r, layout, k), FieldLines(r, layout, k, |r.attrs|);
    FieldLinesAt(r, layout, k, |r.attrs|);
    assert all[|lines|] == Elem(r.indent, r.tag);
    forall j | |lines| < j <= |lines| + |r.attrs|
      ensures IsField(all[j], r.attrs[j - |lines| - 1]) && all[j].indent > r.indent
    {
      assert all[j] == own[j - |lines| - 1];
    }
  }

  /** The attribute lines printed after an element go to that element and to no other. */
  lemma FieldsGoToTheirElement(lines: seq<Line>, r: Rec, layout: Layout, k: nat, p: int)
    requires UniqueNames(r.attrs)
    ensures var all := lines + RecLines(r, layout, k);
            Attrs(all, p, |all|) == if p == |lines| then r.attrs else Attrs(lines, p, |lines|)
  {
    PrintedFieldsFollow(lines, r, layout, k);
    if p == |lines| {
      FieldsGoAbove(lines + RecLines(r, layout, k), |lines|, r.attrs, |r.attrs|);
      assert r.attrs[..|r.attrs|] == r.attrs;
    } else {
      FieldsPassBy(lines + RecLines(r, layout, k), |lines|, r.attrs, |r.attrs|, p);
      AttrsPrefix(lines, RecLines(r, layout, k), p, |lines|);
    }
  }

  lemma {:induction false} PutNew(fields: seq<Field>, name: string, value: Value)
    requires forall f :: f in fields ==> f.name != name
    ensures Put(fields, name, value) == fields + [Field(name, value)]
  {
    if fields != [] {
      PutNew(fields[1..], name, value);
    }
  }

  lemma {:induction false} RecordsGrow(lines: seq<Line>, r: Rec, layout: Layout, k: nat, hi: nat)
    requires UniqueNames(r.attrs) && hi <= |lines|
    ensures Records(lines + RecLines(r, layout, k), 0, hi) == Records(lines, 0, hi)
  {
    if hi > 0 {
      RecordsGrow(lines, r, layout, k, hi - 1);
      FieldsGoToTheirElement(lines, r, layout, k, hi - 1);
    }
  }

  lemma {:induction false} FieldLinesMakeNoRecords(lines: seq<Line>, lo: nat, hi: nat)
    requires lo <= hi <= |lines| && forall j :: lo <= j < hi ==> !lines[j].Elem?
    ensures Records(lines, lo, hi) == []
  {
    if lo < hi {
      FieldLinesMakeNoRecords(lines, lo, hi - 1);
    }
  }

  lemma LoneElement(lines: seq<Line>, k: nat, r: Rec)
    requires k < |lines| && lines[k] == Elem(r.indent, r.tag) && Attrs(lines, k, |lines|) == r.attrs
    requires forall j :: k < j < |lines| ==> !lines[j].Elem?
    ensures Records(lines, k, |lines|) == [r]
  {
    RecordsOfBlock(lines, k, |lines|, |lines|);
    FieldLinesMakeNoRecords(lines, k + 1, |lines|);
  }

  lemma RecordsOfLast(lines: seq<Line>, r: Rec, layout: Layout, k: nat)
    requires UniqueNames(r.attrs)
    ensures var all := lines + RecLines(r, layout, k); Records(all, 0, |all|) == Records(lines, 0, |lines|) + [r]
  {
    var all := lines + RecLines(r, layout, k);
    RecordsSplit(all, 0, |lines|, |all|);
    RecordsGrow(lines, r, layout, k, |lines|);
    FieldsGoToTheirElement(lines, r, layout, k, |lines|);
    PrintedFieldsFollow(lines, r, layout, k);
    assert all[|lines|] == Elem(r.indent, r.tag);
    LoneElement(all, |lines|, r);
  }

  lemma RecordsWithLast(before: seq<Rec>, r: Rec, layout: Layout, k: nat)
    requires UniqueNames(r.attrs)
    requires var printed := PrintRecs(before, layout, k); Records(printed, 0, |printed|) == before
    ensures var printed := PrintRecs(before + [r], layout, k); Records(printed, 0, |printed|) == before + [r]
  {
    PrintRecsAppend(before, [r], layout, k);
    PrintOne(r, layout, k + |before|);
    RecordsOfLast(PrintRecs(before, layout, k), r, layout, k + |before|);
  }

  lemma PrintOne(r: Rec, layout: Layout, k: nat)
    ensures PrintRecs([r], layout, k) == RecLines(r, layout, k)
  {
    assert [r][1..] == [] && PrintRecs([r][1..], layout, k + 1) == [];
  }

  lemma {:induction false} RecordsOfPrint(recs: seq<Rec>, layout: Layout, k: nat)
    requires forall r :: r in recs ==> UniqueNames(r.attrs)
    ensures var printed := PrintRecs(recs, layout, k); Records(printed, 0, |printed|) == recs
  {
    if recs != [] {
      var before, r := recs[..|recs| - 1], recs[|recs| - 1];
      assert recs == before + [r];
      RecordsOfPrint(before, layout, k);
      RecordsWithLast(before, r, layout, k);
    }
  }

  lemma {:induction false} PreorderUnique(forest: seq<Tree>)
    requires WellFormed(forest)
    ensures forall r :: r in Preorder(forest) ==> UniqueNames(r.attrs)
  {
    if forest != [] {
      assert forest[0] in forest;
      PreorderUnique(forest[0].kids);
      PreorderUnique(forest[1..]);
    }
  }

  /** Wherever the attributes of each element are printed, the dump parses to a forest with the same preorder. */
  lemma PrintKeepsPreorder(forest: seq<Tree>, layout: Layout)
    requires forall r :: r in Preorder(forest) ==> UniqueNames(r.attrs)
    ensures Preorder(Parse(Print(forest, layout))) == Preorder(forest)
  {
    PrintIsPrintRecs(forest, layout, 0);
    RecordsOfPrint(Preorder(forest), layout, 0);
    PreorderIsLineOrder(Print(forest, layout));
  }

  /**
   * Printing a forest, with every attribute at any distance from its element, and parsing the dump returns the forest
   * exactly when the forest is well formed.
   */
  lemma RoundTrip(forest: seq<Tree>, layout: Layout)
    ensures Parse(Print(forest, layout)) == forest <==> WellFormed(forest)
  {
    ParsedIsWellFormed(Print(forest, layout));
    if WellFormed(forest) {
      PreorderUnique(forest);
      PrintKeepsPreorder(forest, layout);
      PreorderDetermines(forest, Parse(Print(forest, layout)));
    }
  }

  /** In general the dump parses to the one well-formed forest with the same preorder. */
  lemma PrintParsesToWellFormedTwin(forest: seq<Tree>, layout: Layout)
    requires forall r :: r in Preorder(forest) ==> UniqueNames(r.attrs)
    ensures var twin := Parse(Print(forest, layout));
            && WellFormed(twin) && Preorder(twin) == Preorder(forest)
            && forall other :: WellFormed(other) && Preorder(other) == Preorder(forest) ==> other == twin
  {
    var twin := Parse(Print(forest, layout));
    ParsedIsWellFormed(Print(forest, layout));
    PrintKeepsPreorder(forest, layout);
    forall other | WellFormed(other) && Preorder(other) == Preorder(forest) ensures other == twin {
      PreorderDetermines(other, twin);
    }
  }

  const A := Tree("a", 2, [], [])
  const B := Tree("b", 4, [], [])
  const A_WITH_B := Tree("a", 2, [], [B])

  lemma SiblingOrChild()
    ensures Preorder([A, B]) == [RecOf(A), RecOf(B)] && Preorder([A_WITH_B]) == [RecOf(A), RecOf(B)]
  {
    assert [A, B] == [A] + [B] && [B] == [B] + [] && [A_WITH_B] == [A_WITH_B] + [];
    PreorderCons(A, [B]);
    PreorderCons(B, []);
    PreorderCons(A_WITH_B, []);
  }

  /** Deeper children alone are not enough: a sibling deeper than the one before it becomes its child. */
  lemma DeeperSiblingIsAdopted(layout: Layout)
    ensures Parse(Print([A, B], layout)) == [A_WITH_B]
  {
    SiblingOrChild();
    PrintParsesToWellFormedTwin([A, B], layout);
    assert WellFormed([A_WITH_B]);
  }
}
