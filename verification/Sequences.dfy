/** Facts about slices, each on its own, so that no other proof has to find them. */
module Sequences {
  lemma Associate<T>(a: seq<T>, b: seq<T>, c: seq<T>)
    ensures (a + b) + c == a + (b + c)
  {
  }

  lemma DropOfSum<T>(a: seq<T>, r: seq<T>, n: nat)
    requires n <= |a|
    ensures (a + r)[n..] == a[n..] + r
  {
  }

  lemma TakeOfSum<T>(a: seq<T>, r: seq<T>, n: nat)
    requires n <= |a|
    ensures (a + r)[..n] == a[..n]
  {
  }

  lemma DropTwice<T>(s: seq<T>, n: nat, m: nat)
    requires n + m <= |s|
    ensures s[n..][m..] == s[n + m..]
  {
  }

  lemma SliceSnoc<T>(s: seq<T>, j: nat, i: nat)
    requires j <= i < |s|
    ensures s[j..i + 1] == s[j..i] + [s[i]]
  {
  }
}
