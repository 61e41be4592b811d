module Common {
  datatype Option<+T> = None | Some(value: T)

  /** A set has more than one member exactly when two of them differ. */
  lemma SeveralMembers<T>(s: set<T>)
    ensures |s| > 1 <==> exists d, e :: d in s && e in s && d != e
  {
    if |s| > 0 {
      var d :| d in s;
      var rest := s - {d};
      assert |rest| == |s| - 1;
      if |s| > 1 {
        var e :| e in rest;
      } else {
        assert |rest| == 0;
        forall e | e in s ensures e == d {
          assert e in rest || e == d;
        }
      }
    }
  }

  predicate NoRepeats<T(==)>(s: seq<T>) { forall i, j :: 0 <= i < j < |s| ==> s[i] != s[j] }

  /** `list(dict.fromkeys(values))`. */
  function Unique<T(==)>(values: seq<T>): seq<T> {
    if values == [] then []
    else
      var before, v := Unique(values[..|values| - 1]), values[|values| - 1];
      if v in before then before else before + [v]
  }

  /** The place of the first occurrence. */
  function First<T(==)>(values: seq<T>, v: T): (i: nat)
    requires v in values
    ensures i < |values| && values[i] == v && v !in values[..i]
  {
    if values[0] == v then 0 else 1 + First(values[1..], v)
  }

  /** The values are in the order in which `values` first shows them. */
  ghost predicate FirstOrder<T>(values: seq<T>, firsts: seq<T>) {
    && (forall i :: 0 <= i < |firsts| ==> firsts[i] in values)
    && forall i, j :: 0 <= i < j < |firsts| ==> First(values, firsts[i]) < First(values, firsts[j])
  }

  /** Every value once, in the order of first occurrences. */
  lemma {:induction false} UniqueKeepsFirsts<T>(values: seq<T>)
    ensures NoRepeats(Unique(values))
    ensures forall v :: v in Unique(values) <==> v in values
    ensures FirstOrder(values, Unique(values))
  {
    if values != [] {
      var before, v := values[..|values| - 1], values[|values| - 1];
      UniqueKeepsFirsts(before);
      assert values == before + [v];
      FirstOrderGrows(before, v, Unique(before));
    }
  }

  lemma FirstOrderGrows<T>(before: seq<T>, v: T, firsts: seq<T>)
    requires FirstOrder(before, firsts)
    ensures FirstOrder(before + [v], firsts)
    ensures v !in before ==> FirstOrder(before + [v], firsts + [v])
  {
    forall i | 0 <= i < |firsts|
      ensures firsts[i] in before + [v] && First(before + [v], firsts[i]) == First(before, firsts[i])
    {
      FirstStays(before, v, firsts[i]);
    }
    if v !in before {
      FirstIsLast(before, v);
    }
  }

  lemma FirstUnique<T>(values: seq<T>, v: T, i: nat)
    requires i < |values| && values[i] == v && v !in values[..i]
    ensures First(values, v) == i
  {
    var f := First(values, v);
    assert forall k :: 0 <= k < i ==> values[..i][k] == values[k];
    assert forall k :: 0 <= k < f ==> values[..f][k] == values[k];
  }

  lemma FirstStays<T>(before: seq<T>, v: T, x: T)
    requires x in before
    ensures x in before + [v] && First(before + [v], x) == First(before, x)
  {
    var i := First(before, x);
    assert (before + [v])[i] == x && (before + [v])[..i] == before[..i];
    FirstUnique(before + [v], x, i);
  }

  lemma FirstIsLast<T>(before: seq<T>, v: T)
    requires v !in before
    ensures v in before + [v] && First(before + [v], v) == |before|
  {
    assert (before + [v])[|before|] == v && (before + [v])[..|before|] == before;
    FirstUnique(before + [v], v, |before|);
  }
}
