/** The AAPT2 `dump xmltree` parser: one pass over indented lines with a stack of open nodes. */
module AaptTree {
  import opened Common

  datatype Value = Text(text: string) | Flag(flag: bool) | Number(number: int)

  /** A line after lexing: an element, an attribute, or anything else. */
  datatype Line = Elem(indent: nat, tag: string) | Attr(indent: nat, name: string, value: Value) | Other

  /** A dictionary entry; dictionaries keep insertion order. */
  datatype Field = Field(name: string, value: Value)

  datatype Tree = Tree(tag: string, indent: nat, attrs: seq<Field>, kids: seq<Tree>)

  datatype Rec = Rec(tag: string, indent: nat, attrs: seq<Field>)

  class ManifestNode {
    const tag: string
    const indent: nat
    ghost const line: nat
    var attributes: seq<Field>
    var children: seq<ManifestNode>

    constructor (tag: string, indent: nat, ghost line: nat)
      ensures this.tag == tag && this.indent == indent && this.line == line && attributes == [] && children == []
    {
      this.tag, this.indent, this.line, attributes, children := tag, indent, line, [], [];
    }
  }

  // ---------------------------------------------------------------- dictionaries

  predicate UniqueNames(fields: seq<Field>) {
    forall i, j :: 0 <= i < j < |fields| ==> fields[i].name != fields[j].name
  }

  /** `fields[name] = value` on an insertion-ordered dictionary. */
  function Put(fields: seq<Field>, name: string, value: Value): seq<Field> {
    if fields == [] then [Field(name, value)]
    else if fields[0].name == name then [Field(name, value)] + fields[1..]
    else [fields[0]] + Put(fields[1..], name, value)
  }

  lemma {:induction false} PutKeepsUnique(fields: seq<Field>, name: string, value: Value)
    requires UniqueNames(fields)
    ensures UniqueNames(Put(fields, name, value))
    ensures forall f :: f in Put(fields, name, value) <==> f == Field(name, value) || (f in fields && f.name != name)
  {
    if fields != [] {
      PutKeepsUnique(fields[1..], name, value);
    }
  }

  // ---------------------------------------------------------------- who owns a line

  /** The nearest element line before `k` whose indent is strictly below `indent`, or -1. */
  function Nearest(lines: seq<Line>, k: nat, indent: nat): (r: int)
    requires k <= |lines|
    ensures -1 <= r < k
    ensures r >= 0 ==> lines[r].Elem? && lines[r].indent < indent
  {
    if k == 0 then -1
    else if lines[k - 1].Elem? && lines[k - 1].indent < indent then k - 1
    else Nearest(lines, k - 1, indent)
  }

  function Owner(lines: seq<Line>, k: nat): int
    requires k < |lines| && !lines[k].Other?
  {
    Nearest(lines, k, lines[k].indent)
  }

  /** Element lines below `n`, from `lo` on, owned by `p`. */
  function Kids(lines: seq<Line>, p: int, lo: nat, n: nat): seq<nat>
    requires lo <= n <= |lines|
  {
    if n == lo then []
    else if lines[n - 1].Elem? && Owner(lines, n - 1) == p then Kids(lines, p, lo, n - 1) + [n - 1]
    else Kids(lines, p, lo, n - 1)
  }

  /** The dictionary that the attribute lines below `n` owned by `p` leave behind. */
  function Attrs(lines: seq<Line>, p: int, n: nat): seq<Field>
    requires n <= |lines|
  {
    if n == 0 then []
    else if lines[n - 1].Attr? && Owner(lines, n - 1) == p
    then Put(Attrs(lines, p, n - 1), lines[n - 1].name, lines[n - 1].value)
    else Attrs(lines, p, n - 1)
  }

  lemma {:induction false} NearestIsNearest(lines: seq<Line>, k: nat, indent: nat)
    requires k <= |lines|
    ensures forall j :: Nearest(lines, k, indent) < j < k && lines[j].Elem? ==> lines[j].indent >= indent
  {
    if k > 0 {
      NearestIsNearest(lines, k - 1, indent);
    }
  }

  lemma {:induction false} NearestSkips(lines: seq<Line>, lo: nat, hi: nat, indent: nat)
    requires lo <= hi <= |lines|
    requires forall j :: lo <= j < hi && lines[j].Elem? ==> lines[j].indent >= indent
    ensures Nearest(lines, hi, indent) == Nearest(lines, lo, indent)
  {
    if lo < hi {
      NearestSkips(lines, lo, hi - 1, indent);
    }
  }

  /** Popping a node at least as deep as the line moves the search on to that node's own parent. */
  lemma NearestPastPopped(lines: seq<Line>, j: nat, indent: nat)
    requires j < |lines| && lines[j].Elem? && lines[j].indent >= indent
    ensures Nearest(lines, j + 1, indent) == Nearest(lines, Owner(lines, j) + 1, indent)
  {
    NearestIsNearest(lines, j, lines[j].indent);
    NearestSkips(lines, Owner(lines, j) + 1, j + 1, indent);
  }

  // ---------------------------------------------------------------- the parser

  /** `nodes` are the nodes made for lines `ks`, in order. */
  ghost predicate Picked(made: map<nat, ManifestNode>, ks: seq<nat>, nodes: seq<ManifestNode>) {
    |nodes| == |ks| && forall i :: 0 <= i < |ks| ==> ks[i] in made && made[ks[i]] == nodes[i]
  }

  /** `nodes` are the nodes made for the element lines below `n` that `p` owns, in order. */
  ghost predicate Listed(lines: seq<Line>, n: nat, made: map<nat, ManifestNode>, p: int, nodes: seq<ManifestNode>)
    requires n <= |lines|
  {
    Picked(made, Kids(lines, p, 0, n), nodes)
  }

  /** The stack holds the last element line and, below each entry, that entry's owner. */
  ghost predicate OnSpine(lines: seq<Line>, made: map<nat, ManifestNode>, stack: seq<ManifestNode>, at: seq<nat>)
  {
    && |at| == |stack|
    && (forall i :: 0 <= i < |at| ==>
          && at[i] < |lines| && lines[at[i]].Elem? && at[i] in made && made[at[i]] == stack[i]
          && stack[i].indent == lines[at[i]].indent)
    && (forall i {:trigger Owner(lines, at[i])} :: 0 <= i < |at| ==> Owner(lines, at[i]) == Top(at, i))
  }

  /** The line on top of the lowest `depth` stack entries, -1 for none. */
  ghost function Top(at: seq<nat>, depth: nat): int
    requires depth <= |at|
  {
    if depth == 0 then -1 else at[depth - 1]
  }

  /** The node for line `k` carries what the first `n` lines say it owns. */
  ghost predicate Carries(lines: seq<Line>, n: nat, made: map<nat, ManifestNode>, k: nat, node: ManifestNode)
    requires n <= |lines|
    reads node
  {
    && k < n && lines[k].Elem?
    && node.line == k && node.tag == lines[k].tag && node.indent == lines[k].indent
    && node.attributes == Attrs(lines, k, n)
    && Listed(lines, n, made, k, node.children)
  }

  /** After `n` lines every node made so far carries exactly what the lines say it owns. */
  ghost predicate Built(lines: seq<Line>, n: nat, made: map<nat, ManifestNode>, roots: seq<ManifestNode>)
    requires n <= |lines|
    reads made.Values
  {
    && (forall k: nat :: k < n && lines[k].Elem? ==> k in made)
    && AllCarry(lines, n, made, made)
    && Listed(lines, n, made, -1, roots)
  }

  /** The stack describes the spine that ends at the last element line before `n`. */
  ghost predicate Open(lines: seq<Line>, n: nat, made: map<nat, ManifestNode>, stack: seq<ManifestNode>, at: seq<nat>)
    requires n <= |lines|
  {
    OnSpine(lines, made, stack, at) && Top(at, |at|) < n && forall j :: Top(at, |at|) < j < n ==> !lines[j].Elem?
  }

  method OwnerOnStack(lines: seq<Line>, n: nat, ghost made: map<nat, ManifestNode>,
                      stack: seq<ManifestNode>, ghost at: seq<nat>) returns (depth: nat)
    requires n < |lines| && !lines[n].Other?
    requires Open(lines, n, made, stack, at)
    ensures depth <= |stack| && Owner(lines, n) == Top(at, depth)
  {
    NearestSkips(lines, Top(at, |at|) + 1, n, lines[n].indent);
    depth := |stack|;
    while depth > 0 && stack[depth - 1].indent >= lines[n].indent
      invariant depth <= |stack|
      invariant Owner(lines, n) == Nearest(lines, Top(at, depth) + 1, lines[n].indent)
    {
      NearestPastPopped(lines, at[depth - 1], lines[n].indent);
      depth := depth - 1;
    }
  }

  method AddElement(lines: seq<Line>, n: nat, ghost made: map<nat, ManifestNode>, roots: seq<ManifestNode>,
                    stack: seq<ManifestNode>, ghost at: seq<nat>)
    returns (ghost made': map<nat, ManifestNode>, roots': seq<ManifestNode>, stack': seq<ManifestNode>,
             ghost at': seq<nat>)
    requires n < |lines| && lines[n].Elem?
    requires Built(lines, n, made, roots) && Open(lines, n, made, stack, at)
    modifies made.Values
    ensures fresh(made'.Values - made.Values)
    ensures Built(lines, n + 1, made', roots') && Open(lines, n + 1, made', stack', at')
  {
    var depth := OwnerOnStack(lines, n, made, stack, at);
    var node := new ManifestNode(lines[n].tag, lines[n].indent, n);
    roots', stack', at', made' := roots, stack[..depth] + [node], at[..depth] + [n], made[n := node];
    SpineGrows(lines, n, made, node, stack, at, depth);
    if depth > 0 {
      Attach(lines, n, made, stack[depth - 1], at[depth - 1], node);
    } else {
      roots' := roots + [node];
      NothingAttached(lines, n, made, node);
    }
    BuiltGrows(lines, n, made, node, roots);
  }

  /** With the new node in its place everything is built as far as its line. */
  lemma BuiltGrows(lines: seq<Line>, n: nat, made: map<nat, ManifestNode>, node: ManifestNode, roots: seq<ManifestNode>)
    requires n < |lines| && lines[n].Elem? && n !in made
    requires forall k: nat :: k < n && lines[k].Elem? ==> k in made
    requires Listed(lines, n, made, -1, roots) && AllCarry(lines, n + 1, made[n := node], made)
    requires node.line == n && node.tag == lines[n].tag && node.indent == lines[n].indent
    requires node.attributes == [] && node.children == []
    ensures Built(lines, n + 1, made[n := node], if Owner(lines, n) == -1 then roots + [node] else roots)
  {
    var made' := made[n := node];
    ListedExtends(lines, n, made, node, -1, roots);
    NothingOwnedBefore(lines, n, n + 1);
    forall k | k in made' ensures Carries(lines, n + 1, made', k, made'[k]) {
      assert k in made ==> Carries(lines, n + 1, made', k, made[k]);
    }
  }

  /** All the nodes of `nodes` carry what the lines say, with `made` telling which node stands for a line. */
  ghost predicate AllCarry(lines: seq<Line>, n: nat, made: map<nat, ManifestNode>, nodes: map<nat, ManifestNode>)
    requires n <= |lines|
    reads nodes.Values
  {
    forall k | k in nodes :: Carries(lines, n, made, k, nodes[k])
  }

  /** The new node becomes a child of the node made for line `p`. */
  method Attach(lines: seq<Line>, n: nat, ghost made: map<nat, ManifestNode>, parent: ManifestNode, ghost p: nat,
                node: ManifestNode)
    requires n < |lines| && lines[n].Elem? && AllCarry(lines, n, made, made)
    requires p in made && made[p] == parent && Owner(lines, n) == p && node !in made.Values
    modifies parent`children
    ensures AllCarry(lines, n + 1, made[n := node], made)
  {
    parent.children := parent.children + [node];
    assert old(Carries(lines, n, made, p, parent));
    forall k | k in made ensures Carries(lines, n + 1, made[n := node], k, made[k]) {
      assert old(Carries(lines, n, made, k, made[k]));
      ListedExtends(lines, n, made, node, k, old(made[k].children));
    }
  }

  lemma NothingAttached(lines: seq<Line>, n: nat, made: map<nat, ManifestNode>, node: ManifestNode)
    requires n < |lines| && lines[n].Elem? && AllCarry(lines, n, made, made) && Owner(lines, n) == -1
    ensures AllCarry(lines, n + 1, made[n := node], made)
  {
    forall k | k in made ensures Carries(lines, n + 1, made[n := node], k, made[k]) {
      assert Carries(lines, n, made, k, made[k]);
      ListedExtends(lines, n, made, node, k, made[k].children);
    }
  }

  lemma SpineGrows(lines: seq<Line>, n: nat, made: map<nat, ManifestNode>, node: ManifestNode,
                   stack: seq<ManifestNode>, at: seq<nat>, depth: nat)
    requires n < |lines| && lines[n].Elem? && n !in made && node.indent == lines[n].indent
    requires Open(lines, n, made, stack, at)
    requires depth <= |stack| && Owner(lines, n) == Top(at, depth)
    ensures Open(lines, n + 1, made[n := node], stack[..depth] + [node], at[..depth] + [n])
  {
    var at' := at[..depth] + [n];
    forall i {:trigger Owner(lines, at'[i])} | 0 <= i < |at'| ensures Owner(lines, at'[i]) == Top(at', i) {
      if i < depth {
        assert Owner(lines, at[i]) == Top(at, i);
      }
    }
  }

  lemma ListedExtends(lines: seq<Line>, n: nat, made: map<nat, ManifestNode>, node: ManifestNode, p: int,
                      nodes: seq<ManifestNode>)
    requires n < |lines| && lines[n].Elem? && n !in made
    requires Listed(lines, n, made, p, nodes)
    ensures Listed(lines, n + 1, made[n := node], p, if Owner(lines, n) == p then nodes + [node] else nodes)
  {
  }

  method AddAttribute(lines: seq<Line>, n: nat, ghost made: map<nat, ManifestNode>, ghost roots: seq<ManifestNode>,
                      stack: seq<ManifestNode>, ghost at: seq<nat>)
    requires n < |lines| && lines[n].Attr?
    requires Built(lines, n, made, roots) && Open(lines, n, made, stack, at)
    modifies made.Values
    ensures Built(lines, n + 1, made, roots)
  {
    var depth := OwnerOnStack(lines, n, made, stack, at);
    if depth > 0 {
      var owner := stack[depth - 1];
      owner.attributes := Put(owner.attributes, lines[n].name, lines[n].value);
    }
    forall k | k in made ensures Carries(lines, n + 1, made, k, made[k]) {
      assert old(Carries(lines, n, made, k, made[k]));
      assert depth > 0 ==> old(Carries(lines, n, made, at[depth - 1], stack[depth - 1]));
    }
  }

  method ParseXmlTree(lines: seq<Line>) returns (roots: seq<ManifestNode>, ghost made: map<nat, ManifestNode>)
    ensures fresh(made.Values)
    ensures Built(lines, |lines|, made, roots)
    ensures DepictsAll(made.Values, roots, Parse(lines))
  {
    roots, made := [], map[];
    var stack: seq<ManifestNode> := [];
    ghost var at: seq<nat> := [];
    for n := 0 to |lines|
      invariant fresh(made.Values)
      invariant Built(lines, n, made, roots) && Open(lines, n, made, stack, at)
    {
      match lines[n]
      case Elem(_, _) => made, roots, stack, at := AddElement(lines, n, made, roots, stack, at);
      case Attr(_, _, _) => AddAttribute(lines, n, made, roots, stack, at);
      case Other =>
    }
    BuiltDepicts(lines, made, roots);
  }

  lemma NothingOwnedBefore(lines: seq<Line>, p: nat, n: nat)
    requires n <= |lines| && n <= p + 1
    ensures Kids(lines, p, 0, n) == [] && Attrs(lines, p, n) == []
  {
    if n > 0 {
      NothingOwnedBefore(lines, p, n - 1);
    }
  }

  // ---------------------------------------------------------------- the forest

  /** The first element line at or after `k` that is not deeper than `indent`, or `hi`. */
  function BlockEnd(lines: seq<Line>, k: nat, hi: nat, indent: nat): (r: nat)
    requires k <= hi <= |lines|
    ensures k <= r <= hi
    ensures r < hi ==> lines[r].Elem? && lines[r].indent <= indent
    ensures forall j :: k <= j < r && lines[j].Elem? ==> lines[j].indent > indent
    decreases hi - k
  {
    if k == hi || (lines[k].Elem? && lines[k].indent <= indent) then k else BlockEnd(lines, k + 1, hi, indent)
  }

  /** Reads lines `lo..hi` by recursive descent: an element, the deeper block after it, the rest. */
  function Nest(lines: seq<Line>, lo: nat, hi: nat): seq<Tree>
    requires lo <= hi <= |lines|
    decreases hi - lo
  {
    if lo == hi then []
    else if !lines[lo].Elem? then Nest(lines, lo + 1, hi)
    else
      var m := BlockEnd(lines, lo + 1, hi, lines[lo].indent);
      [Tree(lines[lo].tag, lines[lo].indent, Attrs(lines, lo, |lines|), Nest(lines, lo + 1, m))] + Nest(lines, m, hi)
  }

  /** The forest the parser returns, read off its nodes. */
  function Parse(lines: seq<Line>): seq<Tree> { Nest(lines, 0, |lines|) }

  ghost predicate Depicts(nodes: set<ManifestNode>, node: ManifestNode, tree: Tree)
    reads nodes
    decreases tree
  {
    && node in nodes && node.tag == tree.tag && node.indent == tree.indent && node.attributes == tree.attrs
    && |node.children| == |tree.kids|
    && forall i :: 0 <= i < |tree.kids| ==> Depicts(nodes, node.children[i], tree.kids[i])
  }

  ghost predicate DepictsAll(nodes: set<ManifestNode>, roots: seq<ManifestNode>, forest: seq<Tree>)
    reads nodes
  {
    |roots| == |forest| && forall i :: 0 <= i < |roots| ==> Depicts(nodes, roots[i], forest[i])
  }

  /** No line of `lo..hi` is owned from outside the range except by `p`. */
  ghost predicate ClosedUnder(lines: seq<Line>, p: int, lo: nat, hi: nat)
    requires lo <= hi <= |lines|
  {
    p < lo && forall j :: lo <= j < hi && lines[j].Elem? ==> Owner(lines, j) == p || lo <= Owner(lines, j)
  }

  lemma {:induction false} KidsSplit(lines: seq<Line>, p: int, lo: nat, m: nat, hi: nat)
    requires lo <= m <= hi <= |lines|
    ensures Kids(lines, p, lo, hi) == Kids(lines, p, lo, m) + Kids(lines, p, m, hi)
  {
    if m < hi {
      KidsSplit(lines, p, lo, m, hi - 1);
    }
  }

  lemma {:induction false} NoKids(lines: seq<Line>, p: int, lo: nat, hi: nat)
    requires lo <= hi <= |lines|
    requires forall j :: lo <= j < hi && lines[j].Elem? ==> Owner(lines, j) != p
    ensures Kids(lines, p, lo, hi) == []
  {
    if lo < hi {
      NoKids(lines, p, lo, hi - 1);
    }
  }

  /** Lines of a block belong to its element or to one another. */
  lemma BlockClosed(lines: seq<Line>, p: int, lo: nat, hi: nat, m: nat)
    requires lo < hi <= |lines| && lines[lo].Elem? && ClosedUnder(lines, p, lo, hi)
    requires m == BlockEnd(lines, lo + 1, hi, lines[lo].indent)
    ensures Owner(lines, lo) == p
    ensures ClosedUnder(lines, lo, lo + 1, m) && ClosedUnder(lines, p, m, hi)
    ensures forall j :: m <= j < hi && lines[j].Elem? ==> Owner(lines, j) != lo
  {
    forall j | lo < j < m && lines[j].Elem? ensures Owner(lines, j) >= lo {
      NearestIsNearest(lines, j, lines[j].indent);
    }
    forall j | m <= j < hi && lines[j].Elem? ensures Owner(lines, j) == p || m <= Owner(lines, j) {
      NearestIsNearest(lines, j, lines[j].indent);
      if Owner(lines, j) < m {
        assert m == j || lines[m].indent >= lines[j].indent;
        assert lines[m].Elem? && lines[m].indent <= lines[lo].indent;
      }
    }
  }

  /** The range is ended by the end of the input or by an element no deeper than any in it. */
  ghost predicate Fenced(lines: seq<Line>, lo: nat, hi: nat)
    requires lo <= hi <= |lines|
  {
    hi < |lines| ==> lines[hi].Elem? && forall j :: lo <= j < hi && lines[j].Elem? ==>
        lines[j].indent >= lines[hi].indent
  }

  lemma LaterLinesNotOwned(lines: seq<Line>, p: nat, m: nat)
    requires p < m <= |lines| && lines[p].Elem?
    requires m < |lines| ==> lines[m].Elem? && lines[m].indent <= lines[p].indent
    ensures Kids(lines, p, m, |lines|) == []
  {
    forall j | m <= j < |lines| && lines[j].Elem? ensures Owner(lines, j) != p {
      NearestIsNearest(lines, j, lines[j].indent);
    }
    NoKids(lines, p, m, |lines|);
  }

  /** Everything a block's element owns lies inside its block. */
  lemma KidsOfBlock(lines: seq<Line>, p: int, lo: nat, hi: nat, m: nat)
    requires lo < hi <= |lines| && lines[lo].Elem? && ClosedUnder(lines, p, lo, hi) && Fenced(lines, lo, hi)
    requires m == BlockEnd(lines, lo + 1, hi, lines[lo].indent)
    ensures Kids(lines, lo, 0, |lines|) == Kids(lines, lo, lo + 1, m)
    ensures Kids(lines, p, lo, hi) == [lo] + Kids(lines, p, m, hi)
    ensures Fenced(lines, lo + 1, m) && Fenced(lines, m, hi)
  {
    BlockClosed(lines, p, lo, hi, m);
    KidsSplit(lines, p, lo, lo + 1, hi);
    KidsSplit(lines, p, lo + 1, m, hi);
    NoKids(lines, p, lo + 1, m);
    KidsSplit(lines, lo, 0, lo + 1, |lines|);
    KidsSplit(lines, lo, lo + 1, m, |lines|);
    NothingOwnedBefore(lines, lo, lo + 1);
    LaterLinesNotOwned(lines, lo, m);
  }

  lemma SkipLine(lines: seq<Line>, p: int, lo: nat, hi: nat)
    requires lo < hi <= |lines| && !lines[lo].Elem? && ClosedUnder(lines, p, lo, hi)
    ensures ClosedUnder(lines, p, lo + 1, hi) && Kids(lines, p, lo, hi) == Kids(lines, p, lo + 1, hi)
  {
    KidsSplit(lines, p, lo, lo + 1, hi);
    forall j | lo < j < hi && lines[j].Elem? ensures Owner(lines, j) != lo {
    }
  }

  lemma DepictsCons(all: set<ManifestNode>, nodes: seq<ManifestNode>, tree: Tree, forest: seq<Tree>)
    requires nodes != [] && Depicts(all, nodes[0], tree) && DepictsAll(all, nodes[1..], forest)
    ensures DepictsAll(all, nodes, [tree] + forest)
  {
    assert nodes == [nodes[0]] + nodes[1..];
  }

  lemma {:induction false} KidsAreNested(lines: seq<Line>, made: map<nat, ManifestNode>, roots: seq<ManifestNode>,
                                        p: int, lo: nat, hi: nat, nodes: seq<ManifestNode>)
    requires lo <= hi <= |lines| && Built(lines, |lines|, made, roots)
    requires ClosedUnder(lines, p, lo, hi) && Fenced(lines, lo, hi)
    requires Picked(made, Kids(lines, p, lo, hi), nodes)
    ensures DepictsAll(made.Values, nodes, Nest(lines, lo, hi))
    decreases hi - lo
  {
    if lo == hi {
    } else if !lines[lo].Elem? {
      SkipLine(lines, p, lo, hi);
      KidsAreNested(lines, made, roots, p, lo + 1, hi, nodes);
    } else {
      var m := BlockEnd(lines, lo + 1, hi, lines[lo].indent);
      BlockSplits(lines, made, roots, p, lo, hi, m, nodes);
      KidsAreNested(lines, made, roots, lo, lo + 1, m, made[lo].children);
      KidsAreNested(lines, made, roots, p, m, hi, nodes[1..]);
      BlockDepicted(lines, made, roots, lo, m, nodes, Nest(lines, m, hi));
    }
  }

  /** The first node stands for the block's element, the others for what follows the block. */
  lemma BlockSplits(lines: seq<Line>, made: map<nat, ManifestNode>, roots: seq<ManifestNode>,
                    p: int, lo: nat, hi: nat, m: nat, nodes: seq<ManifestNode>)
    requires lo < hi <= |lines| && lines[lo].Elem? && m == BlockEnd(lines, lo + 1, hi, lines[lo].indent)
    requires Built(lines, |lines|, made, roots)
    requires ClosedUnder(lines, p, lo, hi) && Fenced(lines, lo, hi)
    requires Picked(made, Kids(lines, p, lo, hi), nodes)
    ensures lo in made && nodes != [] && nodes[0] == made[lo]
    ensures ClosedUnder(lines, lo, lo + 1, m) && Fenced(lines, lo + 1, m)
    ensures Picked(made, Kids(lines, lo, lo + 1, m), made[lo].children)
    ensures ClosedUnder(lines, p, m, hi) && Fenced(lines, m, hi)
    ensures Picked(made, Kids(lines, p, m, hi), nodes[1..])
  {
    KidsOfBlock(lines, p, lo, hi, m);
    BlockClosed(lines, p, lo, hi, m);
    assert Carries(lines, |lines|, made, lo, made[lo]);
    PickedTail(made, lo, Kids(lines, p, m, hi), nodes);
  }

  lemma PickedTail(made: map<nat, ManifestNode>, k: nat, ks: seq<nat>, nodes: seq<ManifestNode>)
    requires Picked(made, [k] + ks, nodes)
    ensures k in made && nodes != [] && nodes[0] == made[k] && Picked(made, ks, nodes[1..])
  {
    assert ([k] + ks)[0] == k;
    forall i | 0 <= i < |ks| ensures ks[i] in made && made[ks[i]] == nodes[1..][i] {
      assert ([k] + ks)[i + 1] == ks[i];
    }
  }

  lemma BlockDepicted(lines: seq<Line>, made: map<nat, ManifestNode>, roots: seq<ManifestNode>,
                      lo: nat, m: nat, nodes: seq<ManifestNode>, rest: seq<Tree>)
    requires lo < m <= |lines| && lines[lo].Elem? && Built(lines, |lines|, made, roots)
    requires lo in made && nodes != [] && nodes[0] == made[lo]
    requires DepictsAll(made.Values, made[lo].children, Nest(lines, lo + 1, m))
    requires DepictsAll(made.Values, nodes[1..], rest)
    ensures DepictsAll(made.Values, nodes,
                       [Tree(lines[lo].tag, lines[lo].indent, Attrs(lines, lo, |lines|),
                             Nest(lines, lo + 1, m))] + rest)
  {
    assert Carries(lines, |lines|, made, lo, made[lo]);
    var tree := Tree(lines[lo].tag, lines[lo].indent, Attrs(lines, lo, |lines|), Nest(lines, lo + 1, m));
    DepictsCons(made.Values, nodes, tree, rest);
  }

  lemma {:induction false} BuiltDepicts(lines: seq<Line>, made: map<nat, ManifestNode>, roots: seq<ManifestNode>)
    requires Built(lines, |lines|, made, roots)
    ensures DepictsAll(made.Values, roots, Parse(lines))
  {
    KidsAreNested(lines, made, roots, -1, 0, |lines|, roots);
  }
}
