/** Which exported components a manifest leaves open. */
module ManifestPolicy {
  import opened Common
  import opened Protection

  /** A manifest value where a permission is expected: missing or null, text, or something else. */
  datatype Field = Absent | Text(text: string) | Other

  datatype Tri = Yes | No | Unclear

  /** A permission, none at all, or a value that is not one. */
  datatype Guard = Granted(permission: string) | NoGuard | BadGuard

  datatype PathItem = NotAnItem | PathItem(permission: Field, read: Field, write: Field)

  datatype PathList = NotAList | PathList(items: seq<PathItem>)

  datatype Component = Component(
    kind: string, name: string, sourceApk: string, enabled: Tri, launcher: bool, exported: Tri,
    permission: Field, read: Field, write: Field, paths: PathList, rest: string)

  datatype Operation = Invoke | Read | Write | PathRead | PathWrite | PathUnknown

  datatype Boundary = Boundary(operation: Operation, guard: Guard)

  // ---------------------------------------------------------------- what guards an operation

  /** The first value present in a chain of fallbacks decides, even when it is not a permission. */
  function Resolve(chain: seq<Field>): Guard {
    if chain == [] then NoGuard
    else
      match chain[0]
      case Absent => Resolve(chain[1..])
      case Text(p) => if p == "" then BadGuard else Granted(p)
      case Other => BadGuard
  }

  /** The operations open to a caller of the component and what each one asks for. */
  function Doors(c: Component, application: Field): seq<Boundary> {
    if c.kind == "provider" then
      [Boundary(Read, Resolve([c.read, c.permission, application])),
       Boundary(Write, Resolve([c.write, c.permission, application]))] +
      if c.paths.NotAList? then [Boundary(PathUnknown, BadGuard)] else PathDoors(c, application, |c.paths.items|)
    else if c.kind == "activity-alias" then [Boundary(Invoke, Resolve([c.permission]))]
    else [Boundary(Invoke, Resolve([c.permission, application]))]
  }

  /** A path permission answers for reading and writing before the provider's own permissions do. */
  function PathDoors(c: Component, application: Field, n: nat): seq<Boundary>
    requires c.paths.PathList? && n <= |c.paths.items|
  {
    if n == 0 then []
    else PathDoors(c, application, n - 1) + PathDoor(c, application, c.paths.items[n - 1])
  }

  function PathDoor(c: Component, application: Field, item: PathItem): seq<Boundary> {
    match item
    case NotAnItem => [Boundary(PathUnknown, BadGuard)]
    case PathItem(permission, read, write) =>
      [Boundary(PathRead, Resolve([read, permission, c.read, c.permission, application])),
       Boundary(PathWrite, Resolve([write, permission, c.write, c.permission, application]))]
  }

  // ---------------------------------------------------------------- the same, as computed

  /** `_permission_value`. */
  function PermissionValue(value: Field, fallback: Guard): (g: Guard)
    ensures forall chain :: fallback == Resolve(chain) ==> g == Resolve([value] + chain)
  {
    match value
    case Text(p) => if p == "" then BadGuard else Granted(p)
    case Absent =>
      assert forall chain: seq<Field> :: ([value] + chain)[1..] == chain;
      fallback
    case Other => BadGuard
  }

  lemma ResolveSkips(a: seq<Field>, b: seq<Field>)
    requires Resolve(a) == NoGuard
    ensures Resolve(a + b) == Resolve(b)
  {
    if a == [] {
      assert a + b == b;
    } else {
      assert (a + b)[1..] == a[1..] + b;
      ResolveSkips(a[1..], b);
    }
  }

  lemma ResolveStops(a: seq<Field>, b: seq<Field>)
    requires Resolve(a) != NoGuard
    ensures Resolve(a + b) == Resolve(a)
  {
    if a != [] && a[0].Absent? {
      assert (a + b)[1..] == a[1..] + b;
      ResolveStops(a[1..], b);
    }
  }

  /** `_component_boundaries`. */
  method ComponentBoundaries(c: Component, application: Field) returns (output: seq<Boundary>)
    ensures output == Doors(c, application)
  {
    var app := PermissionValue(application, NoGuard);
    var generic := PermissionValue(c.permission, if c.kind == "activity-alias" then NoGuard else app);
    if c.kind != "provider" {
      assert Resolve([]) == NoGuard && [application] + [] == [application] && [c.permission] + [] == [c.permission];
      assert [c.permission] + [application] == [c.permission, application];
      return [Boundary(Invoke, generic)];
    }
    assert Resolve([]) == NoGuard && [application] + [] == [application];
    assert [c.permission] + [application] == [c.permission, application];
    var read := PermissionValue(c.read, generic);
    var write := PermissionValue(c.write, generic);
    assert [c.read] + [c.permission, application] == [c.read, c.permission, application];
    assert [c.write] + [c.permission, application] == [c.write, c.permission, application];
    output := [Boundary(Read, read), Boundary(Write, write)];
    if c.paths.NotAList? {
      return output + [Boundary(PathUnknown, BadGuard)];
    }
    ghost var base := output;
    for n := 0 to |c.paths.items|
      invariant output == base + PathDoors(c, application, n)
    {
      var item := c.paths.items[n];
      match item {
        case NotAnItem =>
          output := output + [Boundary(PathUnknown, BadGuard)];
        case PathItem(permission, r, w) =>
          var pathGeneric := PermissionValue(permission, NoGuard);
          var pathRead := PermissionValue(r, if pathGeneric.NoGuard? then read else pathGeneric);
          var pathWrite := PermissionValue(w, if pathGeneric.NoGuard? then write else pathGeneric);
          PathChain(r, permission, [c.read, c.permission, application]);
          PathChain(w, permission, [c.write, c.permission, application]);
          assert [r, permission] + [c.read, c.permission, application]
              == [r, permission, c.read, c.permission, application];
          assert [w, permission] + [c.write, c.permission, application]
              == [w, permission, c.write, c.permission, application];
          output := output + [Boundary(PathRead, pathRead), Boundary(PathWrite, pathWrite)];
      }
    }
  }

  /** Falling back to the provider only when the path has no permission of its own is one chain of fallbacks. */
  lemma PathChain(first: Field, second: Field, rest: seq<Field>)
    ensures var g := PermissionValue(second, NoGuard);
            PermissionValue(first, if g.NoGuard? then Resolve(rest) else g) == Resolve([first, second] + rest)
  {
    assert [second] + [] == [second] && Resolve([]) == NoGuard;
    assert [first, second] + rest == [first] + ([second] + rest);
    if Resolve([second]) == NoGuard {
      ResolveSkips([second], rest);
    } else {
      ResolveStops([second], rest);
    }
  }

  // ---------------------------------------------------------------- one category

  datatype Status = Pass | Potential | Inconclusive

  datatype Manifest = Manifest(
    components: Option<seq<Component>>, application: Field, applicationEnabled: Tri, definitions: seq<Definition>,
    limitationsAreList: bool, limitations: nat, complete: Tri)

  predicate InCategory(c: Component, category: string) {
    c.kind == category || (category == "activity" && c.kind == "activity-alias")
  }

  function KeyOf(c: Component): (string, string) { (c.kind, c.name) }

  /** A definition without the archive it came from. */
  function Strip(c: Component): Component { c.(sourceApk := "") }

  /** `d` is one of the ways the first `n` rows describe the component `key`. */
  ghost predicate Describes(rows: seq<Component>, n: nat, key: (string, string), d: Component)
    requires n <= |rows|
  {
    exists i :: 0 <= i < n && KeyOf(rows[i]) == key && Strip(rows[i]) == d
  }

  /** The component `key` is described in more than one way. */
  ghost predicate Conflicted(rows: seq<Component>, key: (string, string)) {
    exists d, e :: Describes(rows, |rows|, key, d) && Describes(rows, |rows|, key, e) && d != e
  }

  predicate Relevant(m: Manifest, c: Component, category: string) {
    !c.enabled.No? && !(category == "activity" && c.launcher) && !m.applicationEnabled.No?
  }

  function ClassOfGuard(g: Guard, custom: map<string, Option<string>>, lex: string -> Level): Classification {
    match g
    case BadGuard => Malformed
    case NoGuard => ClassOf(None, custom, lex)
    case Granted(p) => ClassOf(Some(p), custom, lex)
  }

  /** Some operation is open to anyone or behind a permission anyone can get. */
  predicate Open(doors: seq<Boundary>, custom: map<string, Option<string>>, lex: string -> Level) {
    exists d :: d in doors && ClassOfGuard(d.guard, custom, lex) in {MissingPermission, Weak}
  }

  predicate Sealed(doors: seq<Boundary>, custom: map<string, Option<string>>, lex: string -> Level) {
    forall d :: d in doors ==> ClassOfGuard(d.guard, custom, lex).SignatureOnly?
  }

  method Rows(components: seq<Component>, category: string) returns (rows: seq<Component>)
    ensures forall c :: c in rows <==> c in components && InCategory(c, category)
  {
    rows := [];
    for n := 0 to |components|
      invariant forall c :: c in rows <==> c in components[..n] && InCategory(c, category)
    {
      if InCategory(components[n], category) {
        rows := rows + [components[n]];
      }
    }
  }

  method ConflictingNames(rows: seq<Component>) returns (names: set<(string, string)>)
    ensures forall key :: key in names <==> Conflicted(rows, key)
  {
    var grouped: map<(string, string), set<Component>> := map[];
    for n := 0 to |rows|
      invariant Groups(grouped, rows, n)
    {
      var key, d := KeyOf(rows[n]), Strip(rows[n]);
      GroupsNext(grouped, rows, n);
      grouped := grouped[key := (if key in grouped then grouped[key] else {}) + {d}];
    }
    names := set key | key in grouped && |grouped[key]| > 1;
    forall key ensures key in names <==> Conflicted(rows, key) {
      assert forall d :: Grouped(grouped, key, d) <==> Describes(rows, |rows|, key, d);
      if key in grouped {
        SeveralMembers(grouped[key]);
        assert forall d :: d in grouped[key] <==> Grouped(grouped, key, d);
      }
    }
  }

  /** Every way the first `n` rows describe a component is kept under its name, and nothing else is. */
  ghost predicate Groups(grouped: map<(string, string), set<Component>>, rows: seq<Component>, n: nat)
    requires n <= |rows|
  {
    forall key, d :: Grouped(grouped, key, d) <==> Describes(rows, n, key, d)
  }

  predicate Grouped(grouped: map<(string, string), set<Component>>, key: (string, string), d: Component) {
    key in grouped && d in grouped[key]
  }

  lemma GroupsNext(grouped: map<(string, string), set<Component>>, rows: seq<Component>, n: nat)
    requires n < |rows| && Groups(grouped, rows, n)
    ensures var key := KeyOf(rows[n]);
            Groups(grouped[key := (if key in grouped then grouped[key] else {}) + {Strip(rows[n])}], rows, n + 1)
  {
    var key := KeyOf(rows[n]);
    var after := grouped[key := (if key in grouped then grouped[key] else {}) + {Strip(rows[n])}];
    forall k, e ensures Grouped(after, k, e) <==> Describes(rows, n + 1, k, e) {
      DescribesNext(rows, n, k, e);
      assert Grouped(grouped, k, e) <==> Describes(rows, n, k, e);
      assert Grouped(after, k, e) <==> Grouped(grouped, k, e) || (k == key && e == Strip(rows[n]));
    }
  }

  lemma DescribesNext(rows: seq<Component>, n: nat, key: (string, string), d: Component)
    requires n < |rows|
    ensures Describes(rows, n + 1, key, d) <==>
            Describes(rows, n, key, d) || (KeyOf(rows[n]) == key && Strip(rows[n]) == d)
  {
  }

  // ---------------------------------------------------------------- the verdict

  /** A component that counts: enabled, not the launcher, described in one way only. */
  ghost predicate Counts(m: Manifest, rows: seq<Component>, c: Component, category: string) {
    c in rows && Relevant(m, c, category) && !Conflicted(rows, KeyOf(c))
  }

  ghost predicate LeftOpen(m: Manifest, rows: seq<Component>, c: Component, category: string,
                           custom: map<string, Option<string>>, lex: string -> Level) {
    Counts(m, rows, c, category) && c.exported.Yes? && Open(Doors(c, m.application), custom, lex)
  }

  ghost predicate Doubtful(m: Manifest, rows: seq<Component>, c: Component, category: string,
                           custom: map<string, Option<string>>, lex: string -> Level) {
    && Counts(m, rows, c, category)
    && (|| c.exported.Unclear?
        || (&& c.exported.Yes? && !Open(Doors(c, m.application), custom, lex)
            && !Sealed(Doors(c, m.application), custom, lex)))
  }

  ghost function Verdict(m: Manifest, rows: seq<Component>, category: string,
                         custom: map<string, Option<string>>, lex: string -> Level): Status {
    if exists c :: LeftOpen(m, rows, c, category, custom, lex) then Potential
    else if (exists key :: Conflicted(rows, key)) || (exists c :: Doubtful(m, rows, c, category, custom, lex)) then
      Inconclusive
    else Pass
  }

  method Classes(doors: seq<Boundary>, custom: map<string, Option<string>>, lex: string -> Level)
    returns (classes: seq<Classification>)
    ensures |classes| == |doors|
    ensures forall i :: 0 <= i < |doors| ==> classes[i] == ClassOfGuard(doors[i].guard, custom, lex)
  {
    classes := [];
    for n := 0 to |doors|
      invariant |classes| == n
      invariant forall i :: 0 <= i < n ==> classes[i] == ClassOfGuard(doors[i].guard, custom, lex)
    {
      var g := doors[n].guard;
      if g.BadGuard? {
        classes := classes + [Malformed];
      } else {
        var d := ProtectionDetails(if g.Granted? then Some(g.permission) else None, custom, lex);
        classes := classes + [d.classification];
      }
    }
  }

  /** What one component adds to the verdict. */
  method Judge(m: Manifest, ghost rows: seq<Component>, c: Component, category: string,
               conflicting: set<(string, string)>,
               custom: map<string, Option<string>>, lex: string -> Level)
    returns (open: bool, doubtful: bool)
    requires c in rows && forall key :: key in conflicting <==> Conflicted(rows, key)
    ensures open <==> LeftOpen(m, rows, c, category, custom, lex)
    ensures doubtful <==> Doubtful(m, rows, c, category, custom, lex)
  {
    if !Relevant(m, c, category) || KeyOf(c) in conflicting || c.exported.No? {
      return false, false;
    }
    if c.exported.Unclear? {
      return false, true;
    }
    var doors := ComponentBoundaries(c, m.application);
    var classes := Classes(doors, custom, lex);
    open := MissingPermission in classes || Weak in classes;
    doubtful := !open && (ExternalUnknown in classes || LegacyRestricted in classes || Malformed in classes);
    assert open <==> Open(doors, custom, lex) by {
      if open {
        var i :| 0 <= i < |classes| && classes[i] in {MissingPermission, Weak};
        assert doors[i] in doors;
      }
    }
    assert !open ==> (doubtful <==> !Sealed(doors, custom, lex)) by {
      if !open && doubtful {
        var i :| 0 <= i < |classes| && classes[i] in {ExternalUnknown, LegacyRestricted, Malformed};
        assert doors[i] in doors;
      }
      if !open && !Sealed(doors, custom, lex) {
        var i :| 0 <= i < |doors| && !ClassOfGuard(doors[i].guard, custom, lex).SignatureOnly?;
        assert classes[i] in classes;
      }
    }
  }

  /** One exported-component category, before the coverage of the manifest is taken into account. */
  method EvaluateCategory(m: Manifest, rows: seq<Component>, category: string, custom: map<string, Option<string>>,
                          lex: string -> Level)
    returns (status: Status)
    ensures status == Verdict(m, rows, category, custom, lex)
  {
    var conflicting := ConflictingNames(rows);
    var unsafe, unknown := false, false;
    for n := 0 to |rows|
      invariant unsafe <==> OpenBefore(m, rows, n, category, custom, lex)
      invariant unknown <==> DoubtfulBefore(m, rows, n, category, custom, lex)
    {
      var open, doubtful := Judge(m, rows, rows[n], category, conflicting, custom, lex);
      unsafe, unknown := unsafe || open, unknown || doubtful;
    }
    assert conflicting != {} <==> exists key :: Conflicted(rows, key) by {
      if conflicting != {} {
        var key :| key in conflicting;
      }
    }
    SomeRow(m, rows, category, custom, lex);
    status := if unsafe then Potential else if unknown || conflicting != {} then Inconclusive else Pass;
  }

  ghost predicate OpenBefore(m: Manifest, rows: seq<Component>, n: nat, category: string,
                             custom: map<string, Option<string>>, lex: string -> Level)
    requires n <= |rows|
  {
    n > 0 && (OpenBefore(m, rows, n - 1, category, custom, lex) ||
              LeftOpen(m, rows, rows[n - 1], category, custom, lex))
  }

  ghost predicate DoubtfulBefore(m: Manifest, rows: seq<Component>, n: nat, category: string,
                                 custom: map<string, Option<string>>, lex: string -> Level)
    requires n <= |rows|
  {
    n > 0 && (DoubtfulBefore(m, rows, n - 1, category, custom, lex) ||
              Doubtful(m, rows, rows[n - 1], category, custom, lex))
  }

  lemma OpenIsSomeRow(m: Manifest, rows: seq<Component>, n: nat, category: string,
                      custom: map<string, Option<string>>, lex: string -> Level)
    requires n <= |rows|
    ensures OpenBefore(m, rows, n, category, custom, lex) <==>
            exists i :: 0 <= i < n && LeftOpen(m, rows, rows[i], category, custom, lex)
  {
  }

  lemma DoubtIsSomeRow(m: Manifest, rows: seq<Component>, n: nat, category: string,
                       custom: map<string, Option<string>>, lex: string -> Level)
    requires n <= |rows|
    ensures DoubtfulBefore(m, rows, n, category, custom, lex) <==>
            exists i :: 0 <= i < n && Doubtful(m, rows, rows[i], category, custom, lex)
  {
  }

  /** Looking at every row is looking at every component. */
  lemma SomeRow(m: Manifest, rows: seq<Component>, category: string,
                custom: map<string, Option<string>>, lex: string -> Level)
    ensures OpenBefore(m, rows, |rows|, category, custom, lex) <==>
            exists c :: LeftOpen(m, rows, c, category, custom, lex)
    ensures DoubtfulBefore(m, rows, |rows|, category, custom, lex) <==>
            exists c :: Doubtful(m, rows, c, category, custom, lex)
  {
    OpenIsSomeRow(m, rows, |rows|, category, custom, lex);
    DoubtIsSomeRow(m, rows, |rows|, category, custom, lex);
  }

  predicate CoverageLimited(m: Manifest) {
    !m.limitationsAreList || m.limitations > 0 || m.complete.No?
  }

  /** `custom` holds the agreed level of every defined name, or the conflict marker. */
  ghost predicate Merged(defs: seq<Definition>, custom: map<string, Option<string>>) {
    && (forall name :: name in custom <==> name != "" && Defined(defs, |defs|, name))
    && (forall name :: name in custom ==>
          AllSay(defs, |defs|, name, custom[name]) || (custom[name] == Some(CONFLICT) && Disagree(defs, |defs|, name)))
  }

  // ---------------------------------------------------------------- the verdict on the fields of the components

  /** The value that decides a chain of fallbacks: the first one present. */
  ghost predicate Decides(chain: seq<Field>, k: int) {
    0 <= k < |chain| && !chain[k].Absent? && forall j :: 0 <= j < k ==> chain[j].Absent?
  }

  /** All definitions of the permission by the application give this level, and there is one. */
  ghost predicate Agreed(defs: seq<Definition>, permission: string, level: Option<string>) {
    && (exists i :: 0 <= i < |defs| && defs[i].name == permission)
    && (forall i :: 0 <= i < |defs| && defs[i].name == permission ==> defs[i].level == level)
  }

  ghost predicate SignatureLevel(defs: seq<Definition>, permission: string, lex: string -> Level) {
    exists level :: Agreed(defs, permission, Some(level)) && SaysSignature(lex(level))
  }

  /** Anyone can get the permission: no level, normal or dangerous. */
  ghost predicate WeakLevel(defs: seq<Definition>, permission: string, lex: string -> Level) {
    exists level ::
      && Agreed(defs, permission, level)
      && (level == None || SaysWeak(lex(level.value)))
  }

  /** The first value present is a permission that all its definitions make signature-only. */
  ghost predicate Guarded(m: Manifest, chain: seq<Field>, lex: string -> Level) {
    exists k ::
      Decides(chain, k) && chain[k].Text? && chain[k].text != "" && SignatureLevel(m.definitions, chain[k].text, lex)
  }

  /** No value is present, or the first one is a permission anyone can get. */
  ghost predicate Unguarded(m: Manifest, chain: seq<Field>, lex: string -> Level) {
    || (forall f :: f in chain ==> f.Absent?)
    || exists k ::
         Decides(chain, k) && chain[k].Text? && chain[k].text != "" && WeakLevel(m.definitions, chain[k].text, lex)
  }

  ghost predicate ItemProtected(m: Manifest, c: Component, item: PathItem, lex: string -> Level) {
    && item.PathItem?
    && Guarded(m, [item.read, item.permission, c.read, c.permission, m.application], lex)
    && Guarded(m, [item.write, item.permission, c.write, c.permission, m.application], lex)
  }

  ghost predicate ItemExposed(m: Manifest, c: Component, item: PathItem, lex: string -> Level) {
    && item.PathItem?
    && (|| Unguarded(m, [item.read, item.permission, c.read, c.permission, m.application], lex)
        || Unguarded(m, [item.write, item.permission, c.write, c.permission, m.application], lex))
  }

  /** Reading, writing and every path of a provider, or the invocation of another component, is guarded. */
  ghost predicate Protected(m: Manifest, c: Component, lex: string -> Level) {
    var p, app := c.permission, m.application;
    if c.kind == "provider" then
      && Guarded(m, [c.read, p, app], lex) && Guarded(m, [c.write, p, app], lex)
      && c.paths.PathList?
      && forall i :: 0 <= i < |c.paths.items| ==> ItemProtected(m, c, c.paths.items[i], lex)
    else if c.kind == "activity-alias" then Guarded(m, [p], lex)
    else Guarded(m, [p, app], lex)
  }

  /** Some of these is open to anyone. */
  ghost predicate Exposed(m: Manifest, c: Component, lex: string -> Level) {
    var p, app := c.permission, m.application;
    if c.kind == "provider" then
      || Unguarded(m, [c.read, p, app], lex) || Unguarded(m, [c.write, p, app], lex)
      || (&& c.paths.PathList?
          && exists i :: 0 <= i < |c.paths.items| && ItemExposed(m, c, c.paths.items[i], lex))
    else if c.kind == "activity-alias" then Unguarded(m, [p], lex)
    else Unguarded(m, [p, app], lex)
  }

  ghost predicate Reading(m: Manifest, custom: map<string, Option<string>>, lex: string -> Level) {
    Merged(m.definitions, custom) && BaseOf(lex(CONFLICT)) == None
  }

  lemma {:induction false} ResolveDecides(chain: seq<Field>)
    ensures Resolve(chain).NoGuard? <==> forall f :: f in chain ==> f.Absent?
    ensures forall k :: Decides(chain, k) ==>
              Resolve(chain) == if chain[k].Text? && chain[k].text != "" then Granted(chain[k].text) else BadGuard
    ensures !Resolve(chain).NoGuard? ==> exists k :: Decides(chain, k)
  {
    if chain != [] {
      assert chain == [chain[0]] + chain[1..];
      if chain[0].Absent? {
        ResolveDecides(chain[1..]);
        forall k | Decides(chain, k) ensures k > 0 && Decides(chain[1..], k - 1) {
        }
        if k :| Decides(chain[1..], k) {
          assert Decides(chain, k + 1);
        }
      } else {
        assert Decides(chain, 0);
        assert forall k :: Decides(chain, k) ==> k == 0;
      }
    }
  }

  /** What the merged definitions say of a permission is what all its definitions say. */
  lemma MergedLevels(m: Manifest, permission: string, custom: map<string, Option<string>>, lex: string -> Level)
    requires Reading(m, custom, lex) && permission != ""
    ensures ClassOf(Some(permission), custom, lex).SignatureOnly? <==> SignatureLevel(m.definitions, permission, lex)
    ensures ClassOf(Some(permission), custom, lex).Weak? <==> WeakLevel(m.definitions, permission, lex)
    ensures !ClassOf(Some(permission), custom, lex).MissingPermission?
  {
    if permission in custom {
      var level := custom[permission];
      if AllSay(m.definitions, |m.definitions|, permission, level) {
        OnlyLevel(m.definitions, permission, level);
      } else {
        NoLevel(m.definitions, permission);
      }
    } else {
      assert !Defined(m.definitions, |m.definitions|, permission);
    }
  }

  lemma OnlyLevel(defs: seq<Definition>, permission: string, level: Option<string>)
    requires Defined(defs, |defs|, permission) && AllSay(defs, |defs|, permission, level)
    ensures Agreed(defs, permission, level) && forall other :: Agreed(defs, permission, other) ==> other == level
  {
  }

  lemma NoLevel(defs: seq<Definition>, permission: string)
    requires Disagree(defs, |defs|, permission)
    ensures forall level :: !Agreed(defs, permission, level)
  {
  }

  /** The class of what guards an operation, on the chain of fallbacks itself. */
  lemma GuardOfChain(m: Manifest, chain: seq<Field>, custom: map<string, Option<string>>, lex: string -> Level)
    requires Reading(m, custom, lex)
    ensures ClassOfGuard(Resolve(chain), custom, lex).SignatureOnly? <==> Guarded(m, chain, lex)
    ensures ClassOfGuard(Resolve(chain), custom, lex) in {MissingPermission, Weak} <==> Unguarded(m, chain, lex)
  {
    ResolveDecides(chain);
    if k :| Decides(chain, k) {
      assert forall other :: Decides(chain, other) ==> other == k;
      if chain[k].Text? && chain[k].text != "" {
        MergedLevels(m, chain[k].text, custom, lex);
      }
    }
  }

  predicate Shut(g: Guard, custom: map<string, Option<string>>, lex: string -> Level) {
    ClassOfGuard(g, custom, lex).SignatureOnly?
  }

  predicate Ajar(g: Guard, custom: map<string, Option<string>>, lex: string -> Level) {
    ClassOfGuard(g, custom, lex) in {MissingPermission, Weak}
  }

  /** Both operations of a path item are shut, and one is ajar. */
  predicate PathShut(c: Component, app: Field, item: PathItem, custom: map<string, Option<string>>,
                     lex: string -> Level) {
    && item.PathItem?
    && Shut(Resolve([item.read, item.permission, c.read, c.permission, app]), custom, lex)
    && Shut(Resolve([item.write, item.permission, c.write, c.permission, app]), custom, lex)
  }

  predicate PathAjar(c: Component, app: Field, item: PathItem, custom: map<string, Option<string>>,
                     lex: string -> Level) {
    && item.PathItem?
    && (|| Ajar(Resolve([item.read, item.permission, c.read, c.permission, app]), custom, lex)
        || Ajar(Resolve([item.write, item.permission, c.write, c.permission, app]), custom, lex))
  }

  lemma ItemDoors(c: Component, app: Field, item: PathItem, custom: map<string, Option<string>>, lex: string -> Level)
    ensures Sealed(PathDoor(c, app, item), custom, lex) <==> PathShut(c, app, item, custom, lex)
    ensures Open(PathDoor(c, app, item), custom, lex) <==> PathAjar(c, app, item, custom, lex)
  {
    var doors := PathDoor(c, app, item);
    if item.PathItem? {
      assert doors[0] in doors && doors[1] in doors;
    } else {
      assert doors[0] in doors;
    }
  }

  lemma JoinedDoors(a: seq<Boundary>, b: seq<Boundary>, custom: map<string, Option<string>>, lex: string -> Level)
    ensures Sealed(a + b, custom, lex) <==> Sealed(a, custom, lex) && Sealed(b, custom, lex)
    ensures Open(a + b, custom, lex) <==> Open(a, custom, lex) || Open(b, custom, lex)
  {
    assert forall d :: d in a + b <==> d in a || d in b;
  }

  lemma {:induction false} PathDoorsHold(c: Component, app: Field, n: nat, d: Boundary)
    requires c.paths.PathList? && n <= |c.paths.items|
    ensures d in PathDoors(c, app, n) <==> exists i :: 0 <= i < n && d in PathDoor(c, app, c.paths.items[i])
  {
    if n > 0 {
      PathDoorsHold(c, app, n - 1, d);
    }
  }

  lemma PathsShut(c: Component, app: Field, n: nat, custom: map<string, Option<string>>, lex: string -> Level)
    requires c.paths.PathList? && n <= |c.paths.items|
    ensures Sealed(PathDoors(c, app, n), custom, lex) <==>
            forall i :: 0 <= i < n ==> PathShut(c, app, c.paths.items[i], custom, lex)
    ensures Open(PathDoors(c, app, n), custom, lex) <==>
            exists i :: 0 <= i < n && PathAjar(c, app, c.paths.items[i], custom, lex)
  {
    forall d ensures d in PathDoors(c, app, n) <==> exists i :: 0 <= i < n && d in PathDoor(c, app, c.paths.items[i]) {
      PathDoorsHold(c, app, n, d);
    }
    forall i | 0 <= i < n
      ensures Sealed(PathDoor(c, app, c.paths.items[i]), custom, lex) <==>
              PathShut(c, app, c.paths.items[i], custom, lex)
      ensures Open(PathDoor(c, app, c.paths.items[i]), custom, lex) <==> PathAjar(c, app, c.paths.items[i], custom, lex)
    {
      ItemDoors(c, app, c.paths.items[i], custom, lex);
    }
  }

  lemma OneDoor(d: Boundary, custom: map<string, Option<string>>, lex: string -> Level)
    ensures Sealed([d], custom, lex) <==> Shut(d.guard, custom, lex)
    ensures Open([d], custom, lex) <==> Ajar(d.guard, custom, lex)
  {
    assert [d][0] in [d];
  }

  /** The doors of a provider: reading, writing, and its paths. */
  lemma ProviderDoors(c: Component, app: Field, custom: map<string, Option<string>>, lex: string -> Level)
    requires c.kind == "provider"
    ensures Sealed(Doors(c, app), custom, lex) <==>
              && Shut(Resolve([c.read, c.permission, app]), custom, lex)
              && Shut(Resolve([c.write, c.permission, app]), custom, lex)
              && c.paths.PathList?
              && forall i :: 0 <= i < |c.paths.items| ==> PathShut(c, app, c.paths.items[i], custom, lex)
    ensures Open(Doors(c, app), custom, lex) <==>
              || Ajar(Resolve([c.read, c.permission, app]), custom, lex)
              || Ajar(Resolve([c.write, c.permission, app]), custom, lex)
              || (&& c.paths.PathList?
                  && exists i :: 0 <= i < |c.paths.items| && PathAjar(c, app, c.paths.items[i], custom, lex))
  {
    var read := Boundary(Read, Resolve([c.read, c.permission, app]));
    var write := Boundary(Write, Resolve([c.write, c.permission, app]));
    var paths := if c.paths.NotAList? then [Boundary(PathUnknown, BadGuard)] else PathDoors(c, app, |c.paths.items|);
    assert Doors(c, app) == [read] + [write] + paths;
    OneDoor(read, custom, lex);
    OneDoor(write, custom, lex);
    JoinedDoors([read], [write], custom, lex);
    JoinedDoors([read] + [write], paths, custom, lex);
    if c.paths.NotAList? {
      OneDoor(Boundary(PathUnknown, BadGuard), custom, lex);
    } else {
      PathsShut(c, app, |c.paths.items|, custom, lex);
    }
  }

  lemma SealedMeansProtected(m: Manifest, c: Component, custom: map<string, Option<string>>, lex: string -> Level)
    requires Reading(m, custom, lex)
    ensures Sealed(Doors(c, m.application), custom, lex) <==> Protected(m, c, lex)
    ensures Open(Doors(c, m.application), custom, lex) <==> Exposed(m, c, lex)
  {
    var p, app := c.permission, m.application;
    if c.kind == "provider" {
      ProviderDoors(c, app, custom, lex);
      GuardOfChain(m, [c.read, p, app], custom, lex);
      GuardOfChain(m, [c.write, p, app], custom, lex);
      if c.paths.PathList? {
        forall i | 0 <= i < |c.paths.items|
          ensures PathShut(c, app, c.paths.items[i], custom, lex) <==> ItemProtected(m, c, c.paths.items[i], lex)
          ensures PathAjar(c, app, c.paths.items[i], custom, lex) <==> ItemExposed(m, c, c.paths.items[i], lex)
        {
          ItemOnFields(m, c, c.paths.items[i], custom, lex);
        }
      }
    } else if c.kind == "activity-alias" {
      GuardOfChain(m, [p], custom, lex);
      OneDoor(Boundary(Invoke, Resolve([p])), custom, lex);
    } else {
      GuardOfChain(m, [p, app], custom, lex);
      OneDoor(Boundary(Invoke, Resolve([p, app])), custom, lex);
    }
  }

  lemma ItemOnFields(m: Manifest, c: Component, item: PathItem, custom: map<string, Option<string>>,
                     lex: string -> Level)
    requires Reading(m, custom, lex)
    ensures PathShut(c, m.application, item, custom, lex) <==> ItemProtected(m, c, item, lex)
    ensures PathAjar(c, m.application, item, custom, lex) <==> ItemExposed(m, c, item, lex)
  {
    if item.PathItem? {
      GuardOfChain(m, [item.read, item.permission, c.read, c.permission, m.application], custom, lex);
      GuardOfChain(m, [item.write, item.permission, c.write, c.permission, m.application], custom, lex);
    }
  }

  // ---------------------------------------------------------------- what the verdict means

  /** A component of the category that is switched on, with the application, and is not the launcher. */
  ghost predicate Matters(m: Manifest, c: Component, category: string) {
    && m.components.Some? && c in m.components.value
    && (c.kind == category || (category == "activity" && c.kind == "activity-alias"))
    && !c.enabled.No? && !m.applicationEnabled.No? && !(category == "activity" && c.launcher)
  }

  /** Another component of the category has the same kind and name and is not described in the same way. */
  ghost predicate Contradicted(m: Manifest, c: Component, category: string) {
    && m.components.Some? && c in m.components.value
    && (c.kind == category || (category == "activity" && c.kind == "activity-alias"))
    && exists d ::
         d in m.components.value && d.kind == c.kind && d.name == c.name && d != c.(sourceApk := d.sourceApk)
  }

  lemma ContradictedMeansConflicted(m: Manifest, rows: seq<Component>, category: string, c: Component)
    requires RowsOf(m, rows, category)
    ensures Contradicted(m, c, category) <==> c in rows && Conflicted(rows, KeyOf(c))
  {
    if Contradicted(m, c, category) {
      var d :| d in m.components.value && d.kind == c.kind && d.name == c.name && d != c.(sourceApk := d.sourceApk);
      var i :| 0 <= i < |rows| && rows[i] == c;
      var j :| 0 <= j < |rows| && rows[j] == d;
      assert Describes(rows, |rows|, KeyOf(c), Strip(c)) && Describes(rows, |rows|, KeyOf(c), Strip(d));
      assert Strip(c) != Strip(d);
    }
    if c in rows && Conflicted(rows, KeyOf(c)) {
      var x, y :| Describes(rows, |rows|, KeyOf(c), x) && Describes(rows, |rows|, KeyOf(c), y) && x != y;
      var z := if x != Strip(c) then x else y;
      var i :| 0 <= i < |rows| && KeyOf(rows[i]) == KeyOf(c) && Strip(rows[i]) == z;
      assert rows[i] in rows && Strip(c.(sourceApk := rows[i].sourceApk)) == Strip(c);
    }
  }

  ghost predicate RowsOf(m: Manifest, rows: seq<Component>, category: string) {
    m.components.Some? && forall c :: c in rows <==> c in m.components.value && InCategory(c, category)
  }

  /**
   * The verdict on a category, on the fields of its components alone. It is open exactly if an uncontradicted exported
   * component that matters lets anyone in. It passes exactly if nothing is contradicted and each component that matters
   * is not exported, or is exported with every operation behind a permission that is signature-only by agreement.
   */
  lemma VerdictOnFields(m: Manifest, rows: seq<Component>, category: string, custom: map<string, Option<string>>,
                        lex: string -> Level)
    requires Reading(m, custom, lex) && RowsOf(m, rows, category)
    ensures Verdict(m, rows, category, custom, lex).Potential? <==>
            exists c :: Matters(m, c, category) && !Contradicted(m, c, category) && c.exported.Yes? &&
                Exposed(m, c, lex)
    ensures Verdict(m, rows, category, custom, lex).Pass? <==>
              && (forall c :: !Contradicted(m, c, category))
              && forall c :: Matters(m, c, category) ==> c.exported.No? || (c.exported.Yes? && Protected(m, c, lex))
  {
    forall c
      ensures LeftOpen(m, rows, c, category, custom, lex) <==>
              Matters(m, c, category) && !Contradicted(m, c, category) && c.exported.Yes? && Exposed(m, c, lex)
      ensures Doubtful(m, rows, c, category, custom, lex) <==>
              && Matters(m, c, category) && !Contradicted(m, c, category)
              && (c.exported.Unclear? || (c.exported.Yes? && !Exposed(m, c, lex) && !Protected(m, c, lex)))
    {
      ContradictedMeansConflicted(m, rows, category, c);
      SealedMeansProtected(m, c, custom, lex);
    }
    SomeContradiction(m, rows, category);
    forall c ensures !(Exposed(m, c, lex) && Protected(m, c, lex)) {
      SealedMeansProtected(m, c, custom, lex);
      ShutIsNotAjar(Doors(c, m.application), custom, lex);
    }
  }

  lemma SomeContradiction(m: Manifest, rows: seq<Component>, category: string)
    requires RowsOf(m, rows, category)
    ensures (exists key :: Conflicted(rows, key)) <==> exists c :: Contradicted(m, c, category)
  {
    if key :| Conflicted(rows, key) {
      var d, e :| Describes(rows, |rows|, key, d) && Describes(rows, |rows|, key, e) && d != e;
      var i :| 0 <= i < |rows| && KeyOf(rows[i]) == key && Strip(rows[i]) == d;
      ContradictedMeansConflicted(m, rows, category, rows[i]);
    }
    if c :| Contradicted(m, c, category) {
      ContradictedMeansConflicted(m, rows, category, c);
    }
  }

  lemma ShutIsNotAjar(doors: seq<Boundary>, custom: map<string, Option<string>>, lex: string -> Level)
    requires doors != []
    ensures !(Sealed(doors, custom, lex) && Open(doors, custom, lex))
  {
  }

  // ---------------------------------------------------------------- the analysis

  /**
   * The status of one exported-component category: open or not is said whatever the coverage, a pass only with all of
   * it, and without a component inventory nothing.
   */
  method Analyze(m: Manifest, category: string, lex: string -> Level) returns (status: Status)
    ensures m.components == None ==> status.Inconclusive?
    ensures status.Pass? ==> m.limitationsAreList && m.limitations == 0 && !m.complete.No?
    ensures BaseOf(lex(CONFLICT)) == None ==>
              && (status.Potential? <==>
                    exists c :: Matters(m, c, category) && !Contradicted(m, c, category) && c.exported.Yes?
                                && Exposed(m, c, lex))
              && (status.Pass? <==>
                    && m.components.Some? && m.limitationsAreList && m.limitations == 0 && !m.complete.No?
                    && (forall c :: !Contradicted(m, c, category))
                    && forall c :: Matters(m, c, category) ==>
                         c.exported.No? || (c.exported.Yes? && Protected(m, c, lex)))
  {
    if m.components == None {
      return Inconclusive;
    }
    var custom := MergeDefinitions(m.definitions);
    var rows := Rows(m.components.value, category);
    assert Merged(m.definitions, custom);
    status := EvaluateCategory(m, rows, category, custom, lex);
    if BaseOf(lex(CONFLICT)) == None {
      VerdictOnFields(m, rows, category, custom, lex);
    }
    if status.Pass? && CoverageLimited(m) {
      status := Inconclusive;
    }
  }
}
