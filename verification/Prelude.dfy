/** Small shared vocabulary: optional values and facts about finite sets. */
module Prelude {

  datatype Option<+T> = None | Some(value: T)

  /** A set of naturals strictly between 0 and n has fewer than n members. */
  lemma {:induction false} BelowBound(s: set<nat>, n: nat)
    requires n > 0
    requires forall x :: x in s ==> 1 <= x < n
    ensures |s| <= n - 1
  {
    if n == 1 {
      assert s == {};
    } else {
      BelowBound(s - {n - 1}, n - 1);
    }
  }

  lemma {:induction false} SubsetSize<T>(a: set<T>, b: set<T>)
    requires a <= b
    ensures |a| <= |b|
  {
    if a != {} {
      var x :| x in a;
      SubsetSize(a - {x}, b - {x});
    }
  }

  ghost function Elements<T>(s: seq<T>): set<T> {
    set x | x in s
  }

  lemma {:induction false} DistinctSize<T>(s: seq<T>)
    requires forall i, j :: 0 <= i < j < |s| ==> s[i] != s[j]
    ensures |Elements(s)| == |s|
  {
    if s != [] {
      var init, last := s[..|s| - 1], s[|s| - 1];
      DistinctSize(init);
      assert Elements(s) == Elements(init) + {last};
    }
  }

  /** Distinct elements drawn from a sequence number no more than its length. */
  lemma DistinctFits<T>(some: seq<T>, all: seq<T>)
    requires forall i, j :: 0 <= i < j < |some| ==> some[i] != some[j]
    requires forall i, j :: 0 <= i < j < |all| ==> all[i] != all[j]
    requires forall t :: t in some ==> t in all
    ensures |some| <= |all|
  {
    DistinctSize(some);
    DistinctSize(all);
    SubsetSize(Elements(some), Elements(all));
  }

  ghost function Enumerate<T(!new)>(s: set<T>): (r: seq<T>)
    ensures |r| == |s|
    ensures forall x :: x in r <==> x in s
    ensures forall i, j :: 0 <= i < j < |r| ==> r[i] != r[j]
  {
    if s == {} then [] else
      var x :| x in s;
      var rest := Enumerate(s - {x});
      [x] + rest
  }
}
