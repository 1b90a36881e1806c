/** Facts about sequence prefixes, stated once for any element type. */
module Seqs {

  lemma TakeTake<T>(s: seq<T>, i: nat)
    requires i < |s|
    ensures s[..i + 1][..i] == s[..i]
  {
  }

  lemma TakeAll<T>(s: seq<T>)
    ensures s[..|s|] == s
  {
  }

  /** Dropping the head of a concatenation drops it from the first part. */
  lemma DropConcat<T>(a: seq<T>, b: seq<T>)
    requires a != []
    ensures (a + b)[0] == a[0] && (a + b)[1..] == a[1..] + b
  {
  }

  lemma EmptyConcat<T>(a: seq<T>, b: seq<T>)
    requires a == []
    ensures a + b == b
  {
  }

  lemma DropFrom<T>(s: seq<T>, i: nat)
    requires i < |s|
    ensures s[i..][0] == s[i] && s[i..][1..] == s[i + 1..]
  {
  }

  /** Slicing the tail of `s` is slicing `s` one further along. */
  lemma TailSlices<T>(s: seq<T>, i: nat)
    requires 1 <= i <= |s|
    ensures s[1..][i - 1..] == s[i..]
    ensures s[1..][..i - 1] == s[..i][1..]
    ensures s[..i] == [s[0]] + s[1..][..i - 1] && s[..i][0] == s[0]
  {
  }

  lemma SliceOfDrop<T>(s: seq<T>, a: nat, n: nat)
    requires a + n <= |s|
    ensures s[a..][..n] == s[a..a + n]
  {
  }

  lemma DropOfDrop<T>(s: seq<T>, a: nat, n: nat)
    requires a + n <= |s|
    ensures s[a..][n..] == s[a + n..]
  {
  }

  lemma Assoc<T>(a: seq<T>, b: seq<T>, c: seq<T>)
    ensures (a + b) + c == a + (b + c)
  {
  }

  /** The parts of a five-part concatenation can be sliced back out. */
  lemma FiveParts<T>(p: seq<T>, o: seq<T>, m: seq<T>, c: seq<T>, q: seq<T>)
    ensures var s := p + o + m + c + q;
      && s[..|p|] == p
      && s[|p| + |o|..|p| + |o| + |m|] == m
      && s[|p| + |o| + |m| + |c|..] == q
  {
  }
}
