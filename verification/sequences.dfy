/** Facts about sequences that the string and list proofs share. */
module Sequences {

  /** Slicing a suffix of `s` is slicing `s` further on. */
  lemma SliceOfSuffix<T>(s: seq<T>, lead: nat, kept: nat)
    requires lead + kept <= |s|
    ensures s[lead..][..kept] == s[lead..lead + kept]
    ensures s[lead..][kept..] == s[lead + kept..]
  {
  }

  /** A slice of `s` away from its first element is the same slice of `s[1..]`, one place earlier. */
  lemma SliceShift<T>(s: seq<T>, i: nat, n: nat)
    requires 1 <= i && i + n <= |s|
    ensures s[i..i + n] == s[1..][i - 1..i - 1 + n]
  {
  }

  /** Putting the first element back in front of a prefix of the rest. */
  lemma ConsPrefix<T>(s: seq<T>, i: nat, tail: seq<T>)
    requires 1 <= i <= |s|
    ensures [s[0]] + (s[1..][..i - 1] + tail) == s[..i] + tail
  {
    assert [s[0]] + s[1..][..i - 1] == s[..i];
  }

  /** A prefix one element longer is the prefix followed by that element. */
  lemma TakeOneMore<T>(s: seq<T>, i: nat)
    requires i < |s|
    ensures s[..i + 1] == s[..i] + [s[i]]
  {
  }

  /** Concatenation is associative. */
  lemma AppendAssoc<T>(a: seq<T>, b: seq<T>, c: seq<T>)
    ensures (a + b) + c == a + (b + c)
  {
  }

  /** Appending two elements one at a time is appending the pair. */
  lemma AppendPair<T>(s: seq<T>, a: T, b: T)
    ensures (s + [a]) + [b] == s + [a, b]
  {
  }
}
