/** `Array.prototype.filter` on sequences, with what it guarantees: the result is the input with
    exactly the rejected elements taken out, in the input's order. */
module Seqs {

  /** `s.filter(f)`. */
  function Keep<T>(s: seq<T>, f: T -> bool): (r: seq<T>)
    ensures |r| <= |s|
    ensures forall i :: 0 <= i < |r| ==> f(r[i])
  {
    if s == [] then []
    else (if f(s[0]) then [s[0]] else []) + Keep(s[1..], f)
  }

  /** Adds `d` to every index in `idx`. */
  function Shift(idx: seq<nat>, d: nat): (r: seq<nat>)
    ensures |r| == |idx| && forall k :: 0 <= k < |idx| ==> r[k] == idx[k] + d
  {
    seq(|idx|, k requires 0 <= k < |idx| => idx[k] + d)
  }

  /** `j + 1` is in the shifted list exactly when `j` is in the list. */
  lemma ShiftMembership(idx: seq<nat>, j: nat)
    ensures j + 1 in Shift(idx, 1) <==> j in idx
  {
    var shifted := Shift(idx, 1);
    if j + 1 in shifted {
      var k :| 0 <= k < |shifted| && shifted[k] == j + 1;
      assert idx[k] == j;
    }
    if j in idx {
      var k :| 0 <= k < |idx| && idx[k] == j;
      assert shifted[k] == j + 1;
    }
  }

  /** The positions of `s` whose element `f` accepts, in increasing order. */
  function KeptPositions<T>(s: seq<T>, f: T -> bool): (idx: seq<nat>)
    ensures forall k :: 0 <= k < |idx| ==> idx[k] < |s|
    ensures forall k, l :: 0 <= k < l < |idx| ==> idx[k] < idx[l]
    ensures forall j :: 0 <= j < |s| ==> (j in idx <==> f(s[j]))
  {
    if s == [] then []
    else
      var rest := KeptPositions(s[1..], f);
      var head: seq<nat> := if f(s[0]) then [0] else [];
      var shifted := Shift(rest, 1);
      assert forall j :: 1 <= j < |s| ==> (j in shifted <==> j - 1 in rest) by {
        forall j | 1 <= j < |s| ensures j in shifted <==> j - 1 in rest {
          ShiftMembership(rest, j - 1);
        }
      }
      assert forall j :: 1 <= j < |s| ==> s[1..][j - 1] == s[j];
      assert 0 !in shifted;
      head + shifted
  }

  /** `idx` lists strictly increasing positions of `b` whose elements, read in order, are `a`:
      `a` is a subsequence of `b` through `idx`. */
  ghost predicate IsEmbedding<T>(idx: seq<nat>, a: seq<T>, b: seq<T>) {
    && |idx| == |a|
    && (forall k :: 0 <= k < |idx| ==> idx[k] < |b| && a[k] == b[idx[k]])
    && (forall k, l :: 0 <= k < l < |idx| ==> idx[k] < idx[l])
  }

  /** An embedding of `a` into `b` carries over to one into `[x] + b`, with `x` itself taken along
      in front when `take` holds. */
  lemma EmbeddingCons<T>(idx: seq<nat>, a: seq<T>, b: seq<T>, x: T, take: bool)
    requires IsEmbedding(idx, a, b)
    ensures IsEmbedding((if take then [0] else []) + Shift(idx, 1), (if take then [x] else []) + a, [x] + b)
  {
    var head: seq<nat> := if take then [0] else [];
    var front: seq<T> := if take then [x] else [];
    var shifted := Shift(idx, 1);
    var idx', a', b' := head + shifted, front + a, [x] + b;
    forall k | 0 <= k < |idx'|
      ensures idx'[k] < |b'| && a'[k] == b'[idx'[k]]
    {
      if k >= |head| {
        assert idx'[k] == idx[k - |head|] + 1 && a'[k] == a[k - |head|];
      }
    }
  }

  /** The main fact about `Keep`: it is `s` read at exactly the positions whose element `f`
      accepts, in increasing order. So the result is a subsequence of `s`, keeps the order of `s`,
      keeps every accepted occurrence and drops every rejected one. */
  lemma {:induction false} KeepExact<T>(s: seq<T>, f: T -> bool)
    ensures IsEmbedding(KeptPositions(s, f), Keep(s, f), s)
    ensures forall j :: 0 <= j < |s| ==> (j in KeptPositions(s, f) <==> f(s[j]))
    decreases |s|
  {
    if s != [] {
      KeepExact(s[1..], f);
      EmbeddingCons(KeptPositions(s[1..], f), Keep(s[1..], f), s[1..], s[0], f(s[0]));
      assert [s[0]] + s[1..] == s;
    }
  }

  lemma KeepMembership<T>(s: seq<T>, f: T -> bool, x: T)
    ensures x in Keep(s, f) <==> x in s && f(x)
  {
    KeepExact(s, f);
    var idx, r := KeptPositions(s, f), Keep(s, f);
    if x in r {
      var k :| 0 <= k < |r| && r[k] == x;
      assert s[idx[k]] == x;
    }
    if x in s && f(x) {
      var j :| 0 <= j < |s| && s[j] == x;
      var k :| 0 <= k < |idx| && idx[k] == j;
      assert r[k] == x;
    }
  }

  /** Two filters that agree on every element of `s` give the same result. */
  lemma {:induction false} KeepCongruent<T>(s: seq<T>, f: T -> bool, g: T -> bool)
    requires forall i :: 0 <= i < |s| ==> f(s[i]) == g(s[i])
    ensures Keep(s, f) == Keep(s, g)
  {
    if s != [] {
      KeepCongruent(s[1..], f, g);
    }
  }

  /** Filtering twice is filtering once by the conjunction. */
  lemma {:induction false} KeepKeep<T>(s: seq<T>, f: T -> bool, g: T -> bool)
    ensures Keep(Keep(s, g), f) == Keep(s, x => f(x) && g(x))
  {
    if s != [] {
      KeepKeep(s[1..], f, g);
      var t := if g(s[0]) then [s[0]] else [];
      var u := Keep(s[1..], g);
      assert Keep(s, g) == t + u;
      KeepAppend(t, u, f);
    }
  }

  lemma {:induction false} KeepAppend<T>(a: seq<T>, b: seq<T>, f: T -> bool)
    ensures Keep(a + b, f) == Keep(a, f) + Keep(b, f)
  {
    if a != [] {
      assert (a + b)[1..] == a[1..] + b;
      KeepAppend(a[1..], b, f);
    } else {
      assert a + b == b;
    }
  }

  /** A filter that accepts fewer elements keeps a subsequence of what the wider one keeps:
      the narrow result is the wide result filtered again. */
  lemma KeepNarrower<T>(s: seq<T>, f: T -> bool, g: T -> bool)
    requires forall i :: 0 <= i < |s| ==> f(s[i]) ==> g(s[i])
    ensures Keep(s, f) == Keep(Keep(s, g), f)
  {
    KeepKeep(s, f, g);
    KeepCongruent(s, f, x => f(x) && g(x));
  }

  /** A filter that accepts no element of `s` keeps nothing, and one that accepts every element
      keeps all of `s`. */
  lemma {:induction false} KeepNoneOrAll<T>(s: seq<T>, f: T -> bool)
    ensures (forall i :: 0 <= i < |s| ==> !f(s[i])) ==> Keep(s, f) == []
    ensures (forall i :: 0 <= i < |s| ==> f(s[i])) ==> Keep(s, f) == s
  {
    if s != [] {
      KeepNoneOrAll(s[1..], f);
      assert forall i :: 1 <= i < |s| ==> s[1..][i - 1] == s[i];
      assert s == [s[0]] + s[1..];
    }
  }

  /** No two elements of `s` share a key. */
  predicate DistinctBy<T, K(==)>(s: seq<T>, key: T -> K) {
    forall i, j :: 0 <= i < j < |s| ==> key(s[i]) != key(s[j])
  }

  /** A subsequence of a sequence without repeated keys has none either. */
  lemma KeepDistinct<T, K>(s: seq<T>, f: T -> bool, key: T -> K)
    requires DistinctBy(s, key)
    ensures DistinctBy(Keep(s, f), key)
  {
    KeepExact(s, f);
    var idx, r := KeptPositions(s, f), Keep(s, f);
    forall i, j | 0 <= i < j < |r|
      ensures key(r[i]) != key(r[j])
    {
      assert r[i] == s[idx[i]] && r[j] == s[idx[j]] && idx[i] < idx[j];
    }
  }
}
