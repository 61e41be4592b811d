/** Expansion of browsable intent filters into deep links, bounded in number. */
module DeepLinks {
  import opened Common

  const MAX_COMBINATIONS := 256

  datatype Paths = Paths(
    path: Option<string>, prefix: Option<string>, pattern: Option<string>, suffix: Option<string>,
    advanced: Option<string>)

  type Authority = (Option<string>, Option<string>)

  datatype Data = Data(scheme: Option<string>, host: Option<string>, port: Option<string>, paths: Paths)

  datatype Filter = Filter(actions: seq<string>, categories: seq<string>, data: seq<Data>, autoVerify: bool)

  datatype Component = Component(name: string, kind: string, permission: Option<string>, filters: seq<Filter>)

  datatype Link = Link(
    component: string, kind: string, filterIndex: nat, scheme: string, authority: Authority, paths: Paths,
    autoVerify: bool, permission: Option<string>)

  const NO_PATHS := Paths(None, None, None, None, None)

  // ---------------------------------------------------------------- the cartesian product

  type Triple = (nat, nat, nat)

  predicate Before(a: Triple, b: Triple) {
    a.0 < b.0 || (a.0 == b.0 && (a.1 < b.1 || (a.1 == b.1 && a.2 < b.2)))
  }

  /** The first `n` blocks, one after the other. */
  function Flat(n: nat, block: nat -> seq<Triple>): seq<Triple> {
    if n == 0 then [] else Flat(n - 1, block) + block(n - 1)
  }

  function Cell(i: nat, j: nat): nat -> seq<Triple> { k => [(i, j, k)] }

  function Row(i: nat, l: nat): nat -> seq<Triple> { j => Flat(l, Cell(i, j)) }

  function Sheet(m: nat, l: nat): nat -> seq<Triple> { i => Flat(m, Row(i, l)) }

  /** Index triples in the order `itertools.product` visits them. */
  function Triples(n: nat, m: nat, l: nat): seq<Triple> { Flat(n, Sheet(m, l)) }

  predicate Ascending(ts: seq<Triple>) { forall a, b :: 0 <= a < b < |ts| ==> Before(ts[a], ts[b]) }

  predicate Precedes(a: seq<Triple>, b: seq<Triple>) { forall x, y :: x in a && y in b ==> Before(x, y) }

  lemma AscendingJoin(a: seq<Triple>, b: seq<Triple>)
    requires Ascending(a) && Ascending(b) && Precedes(a, b)
    ensures Ascending(a + b)
  {
    forall i, j | 0 <= i < j < |a + b| ensures Before((a + b)[i], (a + b)[j]) {
      if i < |a| <= j {
        assert (a + b)[i] in a && (a + b)[j] in b;
      }
    }
  }

  lemma {:induction false} FlatHolds(n: nat, block: nat -> seq<Triple>, t: Triple)
    ensures t in Flat(n, block) <==> exists i: nat :: i < n && t in block(i)
  {
    if n > 0 {
      FlatHolds(n - 1, block, t);
    }
  }

  lemma {:induction false} FlatAscends(n: nat, block: nat -> seq<Triple>)
    requires forall i: nat :: i < n ==> Ascending(block(i))
    requires forall i: nat, j: nat :: i < j < n ==> Precedes(block(i), block(j))
    ensures Ascending(Flat(n, block))
  {
    if n > 0 {
      FlatAscends(n - 1, block);
      forall x, y | x in Flat(n - 1, block) && y in block(n - 1) ensures Before(x, y) {
        FlatHolds(n - 1, block, x);
      }
      AscendingJoin(Flat(n - 1, block), block(n - 1));
    }
  }

  lemma CellsHold(i: nat, j: nat, l: nat, t: Triple)
    ensures t in Flat(l, Cell(i, j)) <==> t.0 == i && t.1 == j && t.2 < l
  {
    FlatHolds(l, Cell(i, j), t);
    assert t == (i, j, t.2) ==> t in Cell(i, j)(t.2);
  }

  lemma RowsHold(i: nat, m: nat, l: nat, t: Triple)
    ensures t in Flat(m, Row(i, l)) <==> t.0 == i && t.1 < m && t.2 < l
  {
    FlatHolds(m, Row(i, l), t);
    forall j: nat ensures t in Row(i, l)(j) <==> t.0 == i && t.1 == j && t.2 < l {
      CellsHold(i, j, l, t);
    }
    assert t in Row(i, l)(t.1) <==> t.0 == i && t.2 < l;
  }

  lemma TriplesHold(n: nat, m: nat, l: nat, t: Triple)
    ensures t in Triples(n, m, l) <==> t.0 < n && t.1 < m && t.2 < l
  {
    FlatHolds(n, Sheet(m, l), t);
    forall i: nat ensures t in Sheet(m, l)(i) <==> t.0 == i && t.1 < m && t.2 < l {
      RowsHold(i, m, l, t);
    }
    assert t in Sheet(m, l)(t.0) <==> t.1 < m && t.2 < l;
  }

  lemma RowsAscend(i: nat, m: nat, l: nat)
    ensures Ascending(Flat(m, Row(i, l)))
  {
    forall j: nat | j < m ensures Ascending(Row(i, l)(j)) {
      FlatAscends(l, Cell(i, j));
    }
    forall j: nat, k: nat | j < k < m ensures Precedes(Row(i, l)(j), Row(i, l)(k)) {
      forall x, y | x in Row(i, l)(j) && y in Row(i, l)(k) ensures Before(x, y) {
        CellsHold(i, j, l, x);
        CellsHold(i, k, l, y);
      }
    }
    FlatAscends(m, Row(i, l));
  }

  lemma TriplesAscend(n: nat, m: nat, l: nat)
    ensures Ascending(Triples(n, m, l))
  {
    forall i: nat | i < n ensures Ascending(Sheet(m, l)(i)) {
      RowsAscend(i, m, l);
    }
    forall i: nat, k: nat | i < k < n ensures Precedes(Sheet(m, l)(i), Sheet(m, l)(k)) {
      forall x, y | x in Sheet(m, l)(i) && y in Sheet(m, l)(k) ensures Before(x, y) {
        RowsHold(i, m, l, x);
        RowsHold(k, m, l, y);
      }
    }
    FlatAscends(n, Sheet(m, l));
  }

  /** Exactly the triples in range, each once, in lexicographic order. */
  lemma TriplesAreExact(n: nat, m: nat, l: nat)
    ensures Ascending(Triples(n, m, l)) && forall t :: t in Triples(n, m, l) <==> t.0 < n && t.1 < m && t.2 < l
  {
    TriplesAscend(n, m, l);
    forall t ensures t in Triples(n, m, l) <==> t.0 < n && t.1 < m && t.2 < l {
      TriplesHold(n, m, l, t);
    }
  }

  // ---------------------------------------------------------------- one filter

  function Pick<T>(data: seq<Data>, choose: Data -> Option<T>): seq<T> {
    if data == [] then []
    else
      var before, x := Pick(data[..|data| - 1], choose), choose(data[|data| - 1]);
      if x.Some? then before + [x.value] else before
  }

  function Schemes(f: Filter): seq<string> { Unique(Pick(f.data, (d: Data) => d.scheme)) }

  function Authorities(f: Filter): seq<Authority> {
    var found := Unique(Pick(f.data, (d: Data) => if d.host.Some? then Some((d.host, d.port)) else None));
    if found == [] then [(None, None)] else found
  }

  function PathValues(f: Filter): seq<Paths> {
    var found := Unique(Pick(f.data, (d: Data) => if d.paths != NO_PATHS then Some(d.paths) else None));
    if found == [] then [NO_PATHS] else found
  }

  /** Aliases answer for their own permission only; other components fall back to the application's. */
  function LinkPermission(c: Component, application: Option<string>): Option<string> {
    if c.kind == "activity-alias" then c.permission
    else if c.permission != None && c.permission != Some("") then c.permission else application
  }

  /** An eligible filter of a component. */
  datatype Job = Job(component: Component, index: nat, filter: Filter)

  function LinkFor(job: Job, application: Option<string>, t: Triple): Link
    requires t.0 < |Schemes(job.filter)| && t.1 < |Authorities(job.filter)| && t.2 < |PathValues(job.filter)|
  {
    Link(job.component.name, job.component.kind, job.index, Schemes(job.filter)[t.0], Authorities(job.filter)[t.1],
         PathValues(job.filter)[t.2], job.filter.autoVerify, LinkPermission(job.component, application))
  }

  function Combinations(f: Filter): seq<Triple> {
    Triples(|Schemes(f)|, |Authorities(f)|, |PathValues(f)|)
  }

  ghost predicate InRange(ts: seq<Triple>, f: Filter) {
    forall t :: t in ts ==> t.0 < |Schemes(f)| && t.1 < |Authorities(f)| && t.2 < |PathValues(f)|
  }

  function LinksFor(job: Job, application: Option<string>, ts: seq<Triple>): seq<Link>
    requires InRange(ts, job.filter)
  {
    seq(|ts|, i requires 0 <= i < |ts| => assert ts[i] in ts; LinkFor(job, application, ts[i]))
  }

  /** Every combination of the filter's schemes, authorities and paths. */
  function FilterLinks(job: Job, application: Option<string>): seq<Link> {
    TriplesAreExact(|Schemes(job.filter)|, |Authorities(job.filter)|, |PathValues(job.filter)|);
    LinksFor(job, application, Combinations(job.filter))
  }

  /** The links of one filter are pairwise different and are all the combinations there are. */
  lemma FilterLinksAreTheProduct(job: Job, application: Option<string>)
    ensures NoRepeats(FilterLinks(job, application))
    ensures forall s, a, p ::
              (exists link ::
                 link in FilterLinks(job, application) && link.scheme == s && link.authority == a && link.paths == p)
              <==> s in Schemes(job.filter) && a in Authorities(job.filter) && p in PathValues(job.filter)
  {
    var f := job.filter;
    var links, ts := FilterLinks(job, application), Combinations(f);
    var ss, aa, pp := Schemes(f), Authorities(f), PathValues(f);
    TriplesAreExact(|ss|, |aa|, |pp|);
    PartsDoNotRepeat(f);
    forall i, j | 0 <= i < j < |links| ensures links[i] != links[j] {
      assert Before(ts[i], ts[j]) && ts[i] in ts && ts[j] in ts;
    }
    forall s, a, p | s in ss && a in aa && p in pp
      ensures exists link :: link in links && link.scheme == s && link.authority == a && link.paths == p
    {
      var t := (First(ss, s), First(aa, a), First(pp, p));
      assert t in ts;
      var i :| 0 <= i < |ts| && ts[i] == t;
      assert links[i] == LinkFor(job, application, t);
    }
    forall link | link in links ensures link.scheme in ss && link.authority in aa && link.paths in pp {
      var i :| 0 <= i < |links| && links[i] == link;
      assert ts[i] in ts;
    }
  }

  /** The link is one that filter `n` of the component declares: each field, and what opening it takes. */
  ghost predicate Declares(c: Component, n: nat, f: Filter, application: Option<string>, link: Link) {
    && link.component == c.name && link.kind == c.kind && link.filterIndex == n && link.autoVerify == f.autoVerify
    && (c.kind == "activity-alias" || c.permission !in {None, Some("")} ==> link.permission == c.permission)
    && (c.kind != "activity-alias" && c.permission in {None, Some("")} ==> link.permission == application)
    && (exists d :: d in f.data && d.scheme == Some(link.scheme))
    && (|| (exists d :: d in f.data && d.host.Some? && link.authority == (d.host, d.port))
        || (link.authority == (None, None) && forall d :: d in f.data ==> d.host == None))
    && (|| (exists d :: d in f.data && d.paths != NO_PATHS && link.paths == d.paths)
        || (link.paths == NO_PATHS && forall d :: d in f.data ==> d.paths == NO_PATHS))
  }

  lemma {:induction false} Picked<T>(data: seq<Data>, choose: Data -> Option<T>, x: T)
    ensures x in Pick(data, choose) <==> exists d :: d in data && choose(d) == Some(x)
    ensures Pick(data, choose) == [] <==> forall d :: d in data ==> choose(d) == None
  {
    if data != [] {
      Picked(data[..|data| - 1], choose, x);
      assert data == data[..|data| - 1] + [data[|data| - 1]];
    }
  }

  /** What the parts of a link may be. */
  lemma PartsOnFields(f: Filter, s: string, a: Authority, p: Paths)
    ensures s in Schemes(f) <==> exists d :: d in f.data && d.scheme == Some(s)
    ensures a in Authorities(f) <==>
            || (exists d :: d in f.data && d.host.Some? && a == (d.host, d.port))
            || (a == (None, None) && forall d :: d in f.data ==> d.host == None)
    ensures p in PathValues(f) <==>
            || (exists d :: d in f.data && d.paths != NO_PATHS && p == d.paths)
            || (p == NO_PATHS && forall d :: d in f.data ==> d.paths == NO_PATHS)
  {
    var scheme := (d: Data) => d.scheme;
    var authority := (d: Data) => if d.host.Some? then Some((d.host, d.port)) else None;
    var paths := (d: Data) => if d.paths != NO_PATHS then Some(d.paths) else None;
    UniqueKeepsFirsts(Pick(f.data, scheme));
    UniqueKeepsFirsts(Pick(f.data, authority));
    UniqueKeepsFirsts(Pick(f.data, paths));
    Picked(f.data, scheme, s);
    Picked(f.data, authority, a);
    Picked(f.data, paths, p);
  }

  /** The link goes with this filter of this component. */
  ghost predicate Headed(job: Job, application: Option<string>, link: Link) {
    && link.component == job.component.name && link.kind == job.component.kind && link.filterIndex == job.index
    && link.autoVerify == job.filter.autoVerify && link.permission == LinkPermission(job.component, application)
  }

  lemma FilterLinksHold(job: Job, application: Option<string>, link: Link)
    ensures link in FilterLinks(job, application) <==>
            && link.scheme in Schemes(job.filter) && link.authority in Authorities(job.filter)
            && link.paths in PathValues(job.filter) && Headed(job, application, link)
  {
    var f, links, ts := job.filter, FilterLinks(job, application), Combinations(job.filter);
    var ss, aa, pp := Schemes(f), Authorities(f), PathValues(f);
    TriplesAreExact(|ss|, |aa|, |pp|);
    if link in links {
      var i :| 0 <= i < |links| && links[i] == link;
      assert ts[i] in ts && link == LinkFor(job, application, ts[i]);
    }
    if link.scheme in ss && link.authority in aa && link.paths in pp && Headed(job, application, link) {
      var t := (First(ss, link.scheme), First(aa, link.authority), First(pp, link.paths));
      assert t in ts;
      var i :| 0 <= i < |ts| && ts[i] == t;
      assert links[i] == LinkFor(job, application, t) == link;
    }
  }

  /** The links of a filter are exactly those that it declares. */
  lemma FilterLinksAreDeclared(job: Job, application: Option<string>, link: Link)
    ensures link in FilterLinks(job, application) <==>
            Declares(job.component, job.index, job.filter, application, link)
  {
    FilterLinksHold(job, application, link);
    PartsOnFields(job.filter, link.scheme, link.authority, link.paths);
  }

  lemma PartsDoNotRepeat(f: Filter)
    ensures NoRepeats(Schemes(f)) && NoRepeats(Authorities(f)) && NoRepeats(PathValues(f))
  {
    UniqueKeepsFirsts(Pick(f.data, (d: Data) => d.scheme));
    UniqueKeepsFirsts(Pick(f.data, (d: Data) => if d.host.Some? then Some((d.host, d.port)) else None));
    UniqueKeepsFirsts(Pick(f.data, (d: Data) => if d.paths != NO_PATHS then Some(d.paths) else None));
  }

  /** `_deep_links_for_filter`. */
  method DeepLinksForFilter(job: Job, application: Option<string>, remaining: int)
    returns (links: seq<Link>, truncated: bool)
    ensures remaining <= 0 ==> links == [] && truncated
    ensures remaining > 0 ==>
              var all := FilterLinks(job, application);
              (truncated <==> |all| > remaining) && links == FirstOf(all, remaining)
  {
    links, truncated := [], false;
    if remaining <= 0 {
      return [], true;
    }
    var schemes := Schemes(job.filter);
    if schemes == [] {
      assert Combinations(job.filter) == [];
      return [], false;
    }
    ghost var all := FilterLinks(job, application);
    TriplesAreExact(|schemes|, |Authorities(job.filter)|, |PathValues(job.filter)|);
    var combinations := Combinations(job.filter);
    var i := 0;
    while i < |combinations|
      invariant 0 <= i <= |combinations| && i <= remaining
      invariant !truncated && links == all[..i]
    {
      if |links| >= remaining {
        truncated := true;
        break;
      }
      assert combinations[i] in combinations;
      links := links + [LinkFor(job, application, combinations[i])];
      i := i + 1;
    }
  }

  // ---------------------------------------------------------------- the whole manifest

  predicate Browsable(c: Component, f: Filter) {
    && c.kind in {"activity", "activity-alias"}
    && "android.intent.action.VIEW" in f.actions
    && "android.intent.category.BROWSABLE" in f.categories && "android.intent.category.DEFAULT" in f.categories
  }

  /** The browsable ones of the first `m` filters of a component. */
  function JobsOf(c: Component, m: nat): seq<Job>
    requires m <= |c.filters|
  {
    if m == 0 then []
    else JobsOf(c, m - 1) + if Browsable(c, c.filters[m - 1]) then [Job(c, m - 1, c.filters[m - 1])] else []
  }

  function Jobs(components: seq<Component>): seq<Job> {
    if components == [] then []
    else
      var c := components[|components| - 1];
      Jobs(components[..|components| - 1]) + JobsOf(c, |c.filters|)
  }

  /** The links of all the filters, one filter after the other. */
  function AllLinks(jobs: seq<Job>, application: Option<string>): seq<Link> { Collected(jobs, LinksIn(application)) }

  function LinksIn(application: Option<string>): Job -> seq<Link> { (job: Job) => FilterLinks(job, application) }

  function Collected(jobs: seq<Job>, links: Job -> seq<Link>): seq<Link> {
    if jobs == [] then [] else Collected(jobs[..|jobs| - 1], links) + links(jobs[|jobs| - 1])
  }

  lemma {:induction false} CollectedHold(jobs: seq<Job>, links: Job -> seq<Link>, link: Link)
    ensures link in Collected(jobs, links) <==> exists job :: job in jobs && link in links(job)
  {
    if jobs != [] {
      CollectedHold(jobs[..|jobs| - 1], links, link);
      assert jobs == jobs[..|jobs| - 1] + [jobs[|jobs| - 1]];
    }
  }

  lemma {:induction false} JobsOfHold(c: Component, m: nat, job: Job)
    requires m <= |c.filters|
    ensures job in JobsOf(c, m) <==>
            job.component == c && job.index < m && job.filter == c.filters[job.index] && Browsable(c, job.filter)
  {
    if m > 0 {
      JobsOfHold(c, m - 1, job);
    }
  }

  lemma {:induction false} JobsHold(components: seq<Component>, job: Job)
    ensures job in Jobs(components) <==>
            && job.component in components && job.index < |job.component.filters|
            && job.filter == job.component.filters[job.index] && Browsable(job.component, job.filter)
  {
    if components != [] {
      var c := components[|components| - 1];
      JobsHold(components[..|components| - 1], job);
      JobsOfHold(c, |c.filters|, job);
      assert components == components[..|components| - 1] + [c];
    }
  }

  /** Some activity or alias declares the link in a filter for viewing that is browsable and default. */
  ghost predicate Offered(components: seq<Component>, application: Option<string>, link: Link) {
    exists c, n: nat :: c in components && n < |c.filters| && Offers(c, n, application, link)
  }

  ghost predicate Offers(c: Component, n: nat, application: Option<string>, link: Link)
    requires n < |c.filters|
  {
    && (c.kind == "activity" || c.kind == "activity-alias")
    && "android.intent.action.VIEW" in c.filters[n].actions
    && "android.intent.category.DEFAULT" in c.filters[n].categories
    && "android.intent.category.BROWSABLE" in c.filters[n].categories
    && Declares(c, n, c.filters[n], application, link)
  }

  /** On the fields of the manifest: all links of all eligible filters are exactly the links offered. */
  lemma LinksAreOffered(components: seq<Component>, application: Option<string>, link: Link)
    ensures link in AllLinks(Jobs(components), application) <==> Offered(components, application, link)
  {
    CollectedHold(Jobs(components), LinksIn(application), link);
    if link in AllLinks(Jobs(components), application) {
      var job :| job in Jobs(components) && link in LinksIn(application)(job);
      JobsHold(components, job);
      FilterLinksAreDeclared(job, application, link);
      assert Offers(job.component, job.index, application, link);
    }
    if Offered(components, application, link) {
      var c, n: nat :| c in components && n < |c.filters| && Offers(c, n, application, link);
      var job := Job(c, n, c.filters[n]);
      JobsHold(components, job);
      FilterLinksAreDeclared(job, application, link);
      assert link in LinksIn(application)(job);
    }
  }

  /** Some filter comes up when the bound is already reached, or goes beyond it. */
  ghost predicate Overflows(jobs: seq<Job>, application: Option<string>) {
    exists n :: 0 <= n < |jobs| && OverflowsAt(jobs, application, n)
  }

  ghost predicate OverflowsAt(jobs: seq<Job>, application: Option<string>, n: nat)
    requires n < |jobs|
  {
    || |AllLinks(jobs[..n], application)| >= MAX_COMBINATIONS
    || |AllLinks(jobs[..n + 1], application)| > MAX_COMBINATIONS
  }

  function FirstOf(links: seq<Link>, n: nat): seq<Link> { if |links| <= n then links else links[..n] }

  lemma FirstOfJoin(a: seq<Link>, b: seq<Link>, n: nat)
    ensures FirstOf(a + b, n) == FirstOf(a, n) + if |FirstOf(a, n)| < n then FirstOf(b, n - |FirstOf(a, n)|) else []
  {
  }

  /** The links found are the first ones of all links; the flag says whether some filter met the bound. */
  ghost predicate Expanded(jobs: seq<Job>, application: Option<string>, links: seq<Link>, truncated: bool) {
    var all := AllLinks(jobs, application);
    && links == FirstOf(all, MAX_COMBINATIONS)
    && (truncated <==> Overflows(jobs, application))
  }

  lemma OverflowNext(jobs: seq<Job>, job: Job, application: Option<string>)
    ensures Overflows(jobs + [job], application) <==>
              || Overflows(jobs, application)
              || |AllLinks(jobs, application)| >= MAX_COMBINATIONS
              || |AllLinks(jobs + [job], application)| > MAX_COMBINATIONS
    ensures AllLinks(jobs + [job], application) == AllLinks(jobs, application) + FilterLinks(job, application)
  {
    var more := jobs + [job];
    AllLinksAppend(jobs, job, application);
    assert more[..|jobs|] == jobs && more[..|jobs| + 1] == more;
    forall n | 0 <= n < |jobs| ensures OverflowsAt(more, application, n) <==> OverflowsAt(jobs, application, n) {
      SamePrefixes(jobs, job, application, n);
    }
    if n :| 0 <= n < |jobs| && OverflowsAt(jobs, application, n) {
      assert OverflowsAt(more, application, n);
    }
    assert OverflowsAt(more, application, |jobs|) <==>
             |AllLinks(jobs, application)| >= MAX_COMBINATIONS || |AllLinks(more, application)| > MAX_COMBINATIONS;
  }

  lemma AllLinksAppend(jobs: seq<Job>, job: Job, application: Option<string>)
    ensures AllLinks(jobs + [job], application) == AllLinks(jobs, application) + FilterLinks(job, application)
  {
    assert (jobs + [job])[..|jobs|] == jobs;
  }

  lemma SamePrefixes(jobs: seq<Job>, job: Job, application: Option<string>, n: nat)
    requires n < |jobs|
    ensures OverflowsAt(jobs + [job], application, n) <==> OverflowsAt(jobs, application, n)
  {
    assert (jobs + [job])[..n] == jobs[..n] && (jobs + [job])[..n + 1] == jobs[..n + 1];
  }

  lemma ExpandedNext(jobs: seq<Job>, job: Job, application: Option<string>, links: seq<Link>, truncated: bool,
                     more: seq<Link>, cut: bool)
    requires Expanded(jobs, application, links, truncated)
    requires var remaining := MAX_COMBINATIONS - |links|;
             var all := FilterLinks(job, application);
             if remaining <= 0 then more == [] && cut
             else (cut <==> |all| > remaining) && more == FirstOf(all, remaining)
    ensures Expanded(jobs + [job], application, links + more, truncated || cut)
  {
    OverflowNext(jobs, job, application);
    FirstOfJoin(AllLinks(jobs, application), FilterLinks(job, application), MAX_COMBINATIONS);
  }

  method ExpandComponent(c: Component, application: Option<string>, ghost jobs: seq<Job>, links: seq<Link>,
                         truncated: bool)
    returns (links1: seq<Link>, truncated1: bool)
    requires Expanded(jobs, application, links, truncated)
    ensures Expanded(jobs + JobsOf(c, |c.filters|), application, links1, truncated1)
  {
    links1, truncated1 := links, truncated;
    ghost var done := jobs;
    for m := 0 to |c.filters|
      invariant done == jobs + JobsOf(c, m)
      invariant Expanded(done, application, links1, truncated1)
    {
      JobsNext(jobs, c, m);
      links1, truncated1, done := TakeFilter(c, m, application, done, links1, truncated1);
    }
  }

  method TakeFilter(c: Component, m: nat, application: Option<string>, ghost jobs: seq<Job>, links: seq<Link>,
                    truncated: bool)
    returns (links1: seq<Link>, truncated1: bool, ghost done: seq<Job>)
    requires m < |c.filters| && Expanded(jobs, application, links, truncated)
    ensures done == jobs + if Browsable(c, c.filters[m]) then [Job(c, m, c.filters[m])] else []
    ensures Expanded(done, application, links1, truncated1)
  {
    links1, truncated1, done := links, truncated, jobs;
    var eligible := IsBrowsable(c, c.filters[m]);
    if eligible {
      links1, truncated1 := ExpandFilter(Job(c, m, c.filters[m]), application, jobs, links, truncated);
      done := jobs + [Job(c, m, c.filters[m])];
    }
  }

  lemma JobsNext(jobs: seq<Job>, c: Component, m: nat)
    requires m < |c.filters|
    ensures jobs + JobsOf(c, m + 1)
         == (jobs + JobsOf(c, m)) + if Browsable(c, c.filters[m]) then [Job(c, m, c.filters[m])] else []
  {
  }

  method IsBrowsable(c: Component, filter: Filter) returns (eligible: bool)
    ensures eligible == Browsable(c, filter)
  {
    if c.kind !in {"activity", "activity-alias"} {
      return false;
    }
    var isView := "android.intent.action.VIEW" in filter.actions;
    var isBrowsable := "android.intent.category.BROWSABLE" in filter.categories;
    var isDefault := "android.intent.category.DEFAULT" in filter.categories;
    eligible := isView && isBrowsable && isDefault;
  }

  method ExpandFilter(job: Job, application: Option<string>, ghost jobs: seq<Job>, links: seq<Link>, truncated: bool)
    returns (links1: seq<Link>, truncated1: bool)
    requires Expanded(jobs, application, links, truncated)
    ensures Expanded(jobs + [job], application, links1, truncated1)
  {
    var more, cut := DeepLinksForFilter(job, application, MAX_COMBINATIONS - |links|);
    ExpandedNext(jobs, job, application, links, truncated, more, cut);
    links1, truncated1 := links + more, truncated || cut;
  }

  lemma JobsAppend(components: seq<Component>, n: nat)
    requires n < |components|
    ensures Jobs(components[..n + 1]) == Jobs(components[..n]) + JobsOf(components[n], |components[n].filters|)
  {
    assert components[..n + 1][..n] == components[..n];
  }

  /**
   * The deep-link loop of the inspection: never more than the bound, always the first links in order, and complete
   * when the flag is not raised.
   */
  method CollectDeepLinks(components: seq<Component>, application: Option<string>)
    returns (links: seq<Link>, truncated: bool)
    ensures |links| <= MAX_COMBINATIONS
    ensures Expanded(Jobs(components), application, links, truncated)
  {
    links, truncated := [], false;
    for n := 0 to |components|
      invariant Expanded(Jobs(components[..n]), application, links, truncated)
    {
      JobsAppend(components, n);
      links, truncated := ExpandComponent(components[n], application, Jobs(components[..n]), links, truncated);
    }
    assert components[..|components|] == components;
  }

  /** Without the flag the list is all the links; with it the bound was reached. */
  lemma FlagMeansBoundReached(jobs: seq<Job>, application: Option<string>, links: seq<Link>, truncated: bool)
    requires Expanded(jobs, application, links, truncated)
    ensures !truncated ==> links == AllLinks(jobs, application)
    ensures truncated ==> |links| == MAX_COMBINATIONS
  {
    if truncated {
      var n :| 0 <= n < |jobs| && OverflowsAt(jobs, application, n);
      OverflowReachesBound(jobs, application, n);
    } else {
      WithinBound(jobs, application);
    }
  }

  lemma OverflowReachesBound(jobs: seq<Job>, application: Option<string>, n: nat)
    requires n < |jobs| && OverflowsAt(jobs, application, n)
    ensures |AllLinks(jobs, application)| >= MAX_COMBINATIONS
  {
    PrefixIsShorter(jobs, LinksIn(application), n);
    PrefixIsShorter(jobs, LinksIn(application), n + 1);
  }

  lemma PrefixIsShorter(jobs: seq<Job>, links: Job -> seq<Link>, n: nat)
    requires n <= |jobs|
    ensures |Collected(jobs[..n], links)| <= |Collected(jobs, links)|
  {
    CollectedGrows(jobs[..n], jobs[n..], links);
    assert jobs[..n] + jobs[n..] == jobs;
  }

  lemma {:induction false} CollectedGrows(jobs: seq<Job>, more: seq<Job>, links: Job -> seq<Link>)
    ensures |Collected(jobs, links)| <= |Collected(jobs + more, links)|
  {
    if more == [] {
      assert jobs + more == jobs;
    } else {
      CollectedGrows(jobs, more[..|more| - 1], links);
      assert (jobs + more)[..|jobs + more| - 1] == jobs + more[..|more| - 1];
    }
  }

  lemma WithinBound(jobs: seq<Job>, application: Option<string>)
    requires !Overflows(jobs, application)
    ensures |AllLinks(jobs, application)| <= MAX_COMBINATIONS
  {
    if jobs != [] {
      var n := |jobs| - 1;
      assert jobs[..n + 1] == jobs && !OverflowsAt(jobs, application, n);
    }
  }

  /** With exactly the bound reached, a further filter without schemes raises the flag and loses nothing. */
  lemma FlagRaisedAtBound(jobs: seq<Job>, job: Job, application: Option<string>)
    requires |AllLinks(jobs, application)| == MAX_COMBINATIONS && Schemes(job.filter) == []
    ensures Expanded(jobs + [job], application, AllLinks(jobs + [job], application), true)
  {
    OverflowNext(jobs, job, application);
    assert FilterLinks(job, application) == [];
  }

  // ---------------------------------------------------------------- a manifest that raises the flag for nothing

  function Name(n: nat): string { if n == 0 then "s" else Name(n - 1) + "s" }

  function Names(n: nat): seq<string> { if n == 0 then [] else Names(n - 1) + [Name(n - 1)] }

  function SchemesOnly(n: nat): seq<Data> {
    if n == 0 then [] else SchemesOnly(n - 1) + [Data(Some(Name(n - 1)), None, None, NO_PATHS)]
  }

  const DEFAULT_CATEGORIES := ["android.intent.category.BROWSABLE", "android.intent.category.DEFAULT"]

  /** An activity with a filter of `n` schemes and a second filter without any. */
  function Example(n: nat): Component {
    Component("Main", "activity", None,
              [Filter(["android.intent.action.VIEW"], DEFAULT_CATEGORIES, SchemesOnly(n), false),
               Filter(["android.intent.action.VIEW"], DEFAULT_CATEGORIES, [], false)])
  }

  lemma {:induction false} NameLength(n: nat)
    ensures |Name(n)| == n + 1
  {
    if n > 0 {
      NameLength(n - 1);
    }
  }

  lemma {:induction false} NamesAreShort(n: nat, name: string)
    requires name in Names(n)
    ensures |name| <= n
  {
    if name in Names(n - 1) {
      NamesAreShort(n - 1, name);
    } else {
      NameLength(n - 1);
    }
  }

  lemma {:induction false} NamesAreUnique(n: nat)
    ensures Unique(Names(n)) == Names(n) && |Names(n)| == n
  {
    if n > 0 {
      NamesAreUnique(n - 1);
      NameLength(n - 1);
      if Name(n - 1) in Names(n - 1) {
        NamesAreShort(n - 1, Name(n - 1));
      }
      assert Names(n)[..|Names(n)| - 1] == Names(n - 1);
    }
  }

  lemma {:induction false} PickSchemes(n: nat, choose: Data -> Option<string>)
    requires forall d: Data :: choose(d) == d.scheme
    ensures Pick(SchemesOnly(n), choose) == Names(n)
  {
    if n > 0 {
      PickSchemes(n - 1, choose);
      assert SchemesOnly(n)[..|SchemesOnly(n)| - 1] == SchemesOnly(n - 1);
    }
  }

  lemma {:induction false} PickNothing<T>(n: nat, choose: Data -> Option<T>)
    requires forall d: Data :: d.host == None && d.paths == NO_PATHS ==> choose(d) == None
    ensures Pick(SchemesOnly(n), choose) == []
  {
    if n > 0 {
      PickNothing(n - 1, choose);
      assert SchemesOnly(n)[..|SchemesOnly(n)| - 1] == SchemesOnly(n - 1);
    }
  }

  lemma {:induction false} FlatLength(n: nat, block: nat -> seq<Triple>)
    requires forall i: nat :: |block(i)| == 1
    ensures |Flat(n, block)| == n
  {
    if n > 0 {
      FlatLength(n - 1, block);
    }
  }

  lemma OneColumn(n: nat)
    ensures |Triples(n, 1, 1)| == n
  {
    forall i: nat ensures |Sheet(1, 1)(i)| == 1 {
      forall j: nat ensures |Row(i, 1)(j)| == 1 {
        FlatLength(1, Cell(i, j));
      }
      FlatLength(1, Row(i, 1));
    }
    FlatLength(n, Sheet(1, 1));
  }

  lemma ExampleParts(n: nat)
    ensures var f := Example(n).filters[0];
            Schemes(f) == Names(n) && |Schemes(f)| == n && Authorities(f) == [(None, None)] &&
                PathValues(f) == [NO_PATHS]
  {
    NamesAreUnique(n);
    PickSchemes(n, (d: Data) => d.scheme);
    PickNothing(n, (d: Data) => if d.host.Some? then Some((d.host, d.port)) else None);
    PickNothing(n, (d: Data) => if d.paths != NO_PATHS then Some(d.paths) else None);
  }

  lemma ExampleJobs(n: nat)
    ensures var c := Example(n); Jobs([c]) == [Job(c, 0, c.filters[0])] + [Job(c, 1, c.filters[1])]
  {
    var c := Example(n);
    assert JobsOf(c, 1) == JobsOf(c, 0) + [Job(c, 0, c.filters[0])];
    assert JobsOf(c, 2) == JobsOf(c, 1) + [Job(c, 1, c.filters[1])];
    assert [c][..0] == [];
  }

  /** The flag is cautious: this one activity raises it although all its links are there. */
  lemma FlagMayBeRaisedForNothing(n: nat)
    requires n == MAX_COMBINATIONS
    ensures var jobs := Jobs([Example(n)]); Expanded(jobs, None, AllLinks(jobs, None), true)
  {
    var c := Example(n);
    ExampleParts(n);
    ExampleJobs(n);
    OneColumn(n);
    var first, second := Job(c, 0, c.filters[0]), Job(c, 1, c.filters[1]);
    assert [first][..0] == [] && AllLinks([first], None) == AllLinks([], None) + FilterLinks(first, None);
    assert Schemes(second.filter) == [];
    FlagRaisedAtBound([first], second, None);
  }
}
