/** Sequences without repetitions, and the order in which values were first seen. */
module Seqs {

  ghost predicate NoDup<T>(s: seq<T>)
  {
    forall i, j :: 0 <= i < j < |s| ==> s[i] != s[j]
  }

  lemma NoDupSnoc<T>(s: seq<T>, x: T)
    requires NoDup(s) && x !in s
    ensures NoDup(s + [x])
  {
  }

  /** The position of the first occurrence of `x` in `s`. */
  function FirstIndex<T(==)>(s: seq<T>, x: T): (k: nat)
    requires x in s
    ensures k < |s| && s[k] == x
    ensures forall m :: 0 <= m < k ==> s[m] != x
  {
    if s[0] == x then 0 else 1 + FirstIndex(s[1..], x)
  }

  /** What a memo table that records first requests holds after one more request for `x`. */
  function Remember<T(==)>(seen: seq<T>, x: T): (r: seq<T>)
  {
    if x in seen then seen else seen + [x]
  }

  /** The distinct elements of `s`, in order of first occurrence. */
  function Dedup<T(==)>(s: seq<T>): (r: seq<T>)
    decreases |s|
  {
    if s == [] then [] else Remember(Dedup(s[..|s| - 1]), s[|s| - 1])
  }

  lemma DedupSnoc<T>(s: seq<T>, x: T)
    ensures Dedup(s + [x]) == Remember(Dedup(s), x)
  {
    assert (s + [x])[..|s|] == s;
  }

  lemma {:induction false} DedupMember<T>(s: seq<T>, y: T)
    ensures y in Dedup(s) <==> y in s
  {
    if s != [] {
      var p := s[..|s| - 1];
      DedupMember(p, y);
      assert s == p + [s[|s| - 1]];
    }
  }

  lemma {:induction false} DedupNoDup<T>(s: seq<T>)
    ensures NoDup(Dedup(s))
  {
    if s != [] {
      DedupNoDup(s[..|s| - 1]);
    }
  }

  lemma DedupLength<T>(s: seq<T>)
    ensures |Dedup(s)| <= |s|
  {
    if s != [] {
      DedupLength(s[..|s| - 1]);
    }
  }

  /** Dedup keeps the order of first occurrence: an earlier element of the result was first seen earlier. */
  lemma {:induction false} DedupFirstSeenOrder<T>(s: seq<T>, i: nat, j: nat)
    requires i < j < |Dedup(s)|
    ensures Dedup(s)[i] in s && Dedup(s)[j] in s
    ensures FirstIndex(s, Dedup(s)[i]) < FirstIndex(s, Dedup(s)[j])
  {
    var p, x := s[..|s| - 1], s[|s| - 1];
    assert s == p + [x];
    var d := Dedup(p);
    var a, b := Dedup(s)[i], Dedup(s)[j];
    DedupMember(s, a);
    DedupMember(s, b);
    if j < |d| {
      DedupFirstSeenOrder(p, i, j);
      FirstIndexPrefix(p, x, a);
      FirstIndexPrefix(p, x, b);
    } else {
      assert x !in d && Dedup(s) == d + [x];
      assert a == d[i] && a in d;
      DedupMember(p, a);
      DedupMember(p, x);
      assert b == x && x !in p;
      FirstIndexPrefix(p, x, a);
      assert forall m :: 0 <= m < |p| ==> s[m] == p[m] && p[m] != x;
      assert FirstIndex(s, b) == |p|;
    }
  }

  lemma FirstIndexPrefix<T>(p: seq<T>, x: T, y: T)
    requires y in p
    ensures FirstIndex(p + [x], y) == FirstIndex(p, y)
  {
    var k1, k2 := FirstIndex(p + [x], y), FirstIndex(p, y);
    assert (p + [x])[k2] == y;
    assert k1 <= k2;
    assert p[k1] == y;
  }
}
