/** Generic facts about sequence slices. */
module Sequences {

  function Flat<T>(xss: seq<seq<T>>): seq<T> {
    if |xss| == 0 then [] else Flat(xss[..|xss| - 1]) + xss[|xss| - 1]
  }

  lemma TakeAppend<T>(a: seq<T>, b: seq<T>, n: nat)
    requires n <= |b|
    ensures (a + b)[..|a| + n] == a + b[..n]
  {}

  lemma DropAppend<T>(a: seq<T>, b: seq<T>)
    ensures (a + b)[..|a|] == a && (a + b)[|a|..] == b
  {}

  lemma AppendAssociates<T>(a: seq<T>, b: seq<T>, c: seq<T>)
    ensures (a + b) + c == a + (b + c)
  {}

  lemma CutRejoin<T>(s: seq<T>, n: nat)
    requires n <= |s|
    ensures s == s[..n] + s[n..]
  {}

  lemma SliceWithin<T>(a: seq<T>, b: seq<T>, lo: nat, hi: nat, top: nat, n: nat)
    requires lo <= hi <= n <= |a| && hi <= top <= |a|
    ensures (a[..n] + b)[lo..hi] == a[lo..top][..hi - lo]
  {}

  lemma SliceAcross<T>(a: seq<T>, b: seq<T>, lo: nat, hi: nat)
    requires lo <= hi <= |a|
    ensures (a + b)[lo..hi] == a[lo..hi] && (a + b)[lo..] == a[lo..] + b
  {}

  lemma RemoveAt<T>(q: seq<T>, i: nat)
    requires i < |q|
    ensures multiset(q) == multiset(q[..i] + q[i + 1..]) + multiset{q[i]}
  {
    assert q == q[..i] + [q[i]] + q[i + 1..];
  }

  lemma Joined<T>(all: seq<T>, left: seq<T>, right: seq<T>)
    requires |all| == |left| + |right|
    requires forall i: nat :: i < |left| ==> all[i] == left[i]
    requires forall i: nat :: i < |right| ==> all[|left| + i] == right[i]
    ensures all == left + right
  {
    forall i: nat | i < |all| ensures all[i] == (left + right)[i] {
      if i >= |left| { assert all[|left| + (i - |left|)] == right[i - |left|]; }
    }
  }
}
