/** Sums of a weight over a sequence or over a finite set, and how they move when one weight does. */
module Sums {
  function SumSeq<T>(s: seq<T>, f: T -> nat): nat {
    if s == [] then 0 else f(s[0]) + SumSeq(s[1..], f)
  }

  lemma {:induction false} SumSeqUpdate<T>(s: seq<T>, f: T -> nat, i: nat, x: T)
    requires i < |s|
    ensures SumSeq(s[i := x], f) + f(s[i]) == SumSeq(s, f) + f(x)
  {
    if i == 0 {
      assert s[i := x][1..] == s[1..];
    } else {
      assert s[i := x][1..] == s[1..][i - 1 := x];
      SumSeqUpdate(s[1..], f, i - 1, x);
    }
  }

  /** One row and the weights change at once; elsewhere the new weights are no larger. */
  lemma {:induction false} SumSeqBelow<T>(s: seq<T>, f: T -> nat, t: seq<T>, g: T -> nat)
    requires |s| == |t| && forall i :: 0 <= i < |s| ==> g(t[i]) <= f(s[i])
    ensures SumSeq(t, g) <= SumSeq(s, f)
  {
    if s != [] {
      SumSeqBelow(s[1..], f, t[1..], g);
    }
  }

  /** As above, and the row at i is lower by d. */
  lemma {:induction false} SumSeqDrop<T>(s: seq<T>, f: T -> nat, t: seq<T>, g: T -> nat, i: nat, d: int)
    requires |s| == |t| && forall j :: 0 <= j < |s| && j != i ==> g(t[j]) <= f(s[j])
    requires i < |s| && g(t[i]) + d <= f(s[i])
    ensures SumSeq(t, g) + d <= SumSeq(s, f)
  {
    if i == 0 {
      SumSeqBelow(s[1..], f, t[1..], g);
    } else {
      SumSeqDrop(s[1..], f, t[1..], g, i - 1, d);
    }
  }

  lemma {:induction false} SumSeqPlus<T>(s: seq<T>, f: T -> nat, g: T -> nat, h: T -> nat)
    requires forall x :: x in s ==> h(x) == f(x) + g(x)
    ensures SumSeq(s, h) == SumSeq(s, f) + SumSeq(s, g)
  {
    if s != [] {
      SumSeqPlus(s[1..], f, g, h);
    }
  }

  lemma {:induction false} SumSeqRemove<T>(s: seq<T>, f: T -> nat, i: nat)
    requires i < |s|
    ensures SumSeq(s[..i] + s[i + 1..], f) + f(s[i]) == SumSeq(s, f)
  {
    if i == 0 {
      assert s[..0] + s[1..] == s[1..];
    } else {
      assert (s[..i] + s[i + 1..])[1..] == s[1..][..i - 1] + s[1..][i..];
      SumSeqRemove(s[1..], f, i - 1);
    }
  }

  ghost function Sum<K>(s: set<K>, f: K -> nat): nat {
    if s == {} then 0 else var k :| k in s; f(k) + Sum(s - {k}, f)
  }

  lemma {:induction false} SumTake<K>(s: set<K>, f: K -> nat, k: K)
    requires k in s
    ensures Sum(s, f) == f(k) + Sum(s - {k}, f)
    decreases s
  {
    var x :| x in s && Sum(s, f) == f(x) + Sum(s - {x}, f);
    if x != k {
      SumTake(s - {x}, f, k);
      SumTake(s - {k}, f, x);
      assert s - {x} - {k} == s - {k} - {x};
    }
  }

  lemma {:induction false} SumBelow<K>(s: set<K>, f: K -> nat, g: K -> nat)
    requires forall k :: k in s ==> g(k) <= f(k)
    ensures Sum(s, g) <= Sum(s, f)
    decreases s
  {
    if s != {} {
      var k :| k in s;
      SumTake(s, f, k);
      SumTake(s, g, k);
      SumBelow(s - {k}, f, g);
    }
  }

  lemma SumDrop<K>(s: set<K>, f: K -> nat, g: K -> nat, k: K, d: int)
    requires k in s && (forall x :: x in s && x != k ==> g(x) <= f(x)) && g(k) + d <= f(k)
    ensures Sum(s, g) + d <= Sum(s, f)
  {
    SumTake(s, f, k);
    SumTake(s, g, k);
    SumBelow(s - {k}, f, g);
  }

  lemma SumSame<K>(s: set<K>, f: K -> nat, g: K -> nat)
    requires forall k :: k in s ==> g(k) == f(k)
    ensures Sum(s, g) == Sum(s, f)
  {
    SumBelow(s, f, g);
    SumBelow(s, g, f);
  }

  lemma {:induction false} SumPlus<K>(s: set<K>, f: K -> nat, g: K -> nat, h: K -> nat)
    requires forall k :: k in s ==> h(k) == f(k) + g(k)
    ensures Sum(s, h) == Sum(s, f) + Sum(s, g)
    decreases s
  {
    if s != {} {
      var k :| k in s;
      SumTake(s, f, k);
      SumTake(s, g, k);
      SumTake(s, h, k);
      SumPlus(s - {k}, f, g, h);
    }
  }

  lemma SubsetCounts<T>(a: set<T>, b: set<T>)
    requires a <= b
    ensures |a| <= |b| && (|a| == |b| ==> a == b)
  {
    assert b == a + (b - a);
  }
}
