/** Small vocabulary shared by every module of the model. */
module Common {
  datatype Option<+T> = None | Some(value: T)

  const U64_MAX: nat := 0xFFFF_FFFF_FFFF_FFFF

  type Pid = int
  type JobId = int
  type BoardId = int
  // Microseconds, as the coordinator reads its clock and compares.
  type Time = int

  const Second: Time := 1_000_000

  ghost predicate Distinct<T>(s: seq<T>) {
    forall i, k | 0 <= i < k < |s| :: s[i] != s[k]
  }

  function Elems<T>(s: seq<T>): set<T> {
    set x | x in s
  }

  lemma ElemsOfTail<T>(s: seq<T>)
    requires s != [] && Distinct(s)
    ensures Distinct(s[1..])
    ensures Elems(s[1..]) == Elems(s) - {s[0]}
  {
    assert s == [s[0]] + s[1..];
    forall x ensures x in Elems(s[1..]) <==> x in Elems(s) - {s[0]} {
      if x in Elems(s) && x != s[0] {
        var i :| 0 <= i < |s| && s[i] == x;
        assert s[1..][i - 1] == x;
      }
    }
  }

  lemma {:induction false} DistinctCard<T>(s: seq<T>)
    requires Distinct(s)
    ensures |Elems(s)| == |s|
  {
    if s == [] {
      assert Elems(s) == {};
    } else {
      ElemsOfTail(s);
      DistinctCard(s[1..]);
      assert Elems(s) == Elems(s[1..]) + {s[0]};
    }
  }

  lemma {:induction false} CardMonotone<T>(a: set<T>, b: set<T>)
    requires a <= b
    ensures |a| <= |b|
  {
    assert b == a + (b - a);
  }

  lemma SomeElement<T>(s: set<T>) returns (x: T)
    requires s != {}
    ensures x in s
  {
    x :| x in s;
  }

  method AnyOf<T>(s: set<T>) returns (x: T)
    requires s != {}
    ensures x in s
  {
    x :| x in s;
  }

  function Sum(a: seq<nat>): nat {
    if a == [] then 0 else Sum(a[..|a| - 1]) + a[|a| - 1]
  }

  lemma {:induction false} SumUpdate(a: seq<nat>, i: nat, v: nat)
    requires i < |a|
    ensures Sum(a[i := v]) == Sum(a) - a[i] + v
  {
    var n := |a| - 1;
    if i == n {
      assert a[i := v][..n] == a[..n];
    } else {
      assert a[i := v][..n] == a[..n][i := v];
      SumUpdate(a[..n], i, v);
    }
  }

  lemma {:induction false} SumBound(a: seq<nat>, b: seq<nat>, d: nat)
    requires |a| == |b| && forall i | 0 <= i < |a| :: b[i] <= a[i] + d
    ensures Sum(b) <= Sum(a) + d * |a|
  {
    if a != [] { SumBound(a[..|a| - 1], b[..|a| - 1], d); }
  }
}
