/** Facts about sequences, each proved once so that larger proofs need not rediscover them. */
module Sequences {

  lemma Assoc<T>(a: seq<T>, b: seq<T>, c: seq<T>)
    ensures (a + b) + c == a + (b + c)
  {
  }

  lemma EmptyLeft<T>(a: seq<T>)
    ensures [] + a == a
  {
  }

  lemma EmptyRight<T>(a: seq<T>)
    ensures a + [] == a
  {
  }

  lemma HeadTail<T>(s: seq<T>)
    requires s != []
    ensures [s[0]] + s[1..] == s
  {
  }

  lemma TailConcat<T>(a: seq<T>, b: seq<T>)
    requires a != []
    ensures (a + b)[0] == a[0] && (a + b)[1..] == a[1..] + b
  {
  }

  lemma SplitConcat<T>(a: seq<T>, b: seq<T>)
    ensures (a + b)[..|a|] == a && (a + b)[|a|..] == b
  {
  }

  lemma DropConcat<T>(a: seq<T>, b: seq<T>, k: nat)
    requires k <= |a|
    ensures (a + b)[k..] == a[k..] + b
  {
  }

  lemma SplitAt<T>(s: seq<T>, k: nat)
    requires k <= |s|
    ensures s[..k] + s[k..] == s
  {
  }

  lemma DropDrop<T>(s: seq<T>, i: nat, j: nat)
    requires i + j <= |s|
    ensures s[i..][j..] == s[i + j..]
    ensures s[i..][..j] == s[i..i + j]
  {
  }

  lemma TakeOneMore<T>(s: seq<T>, k: nat)
    requires k < |s|
    ensures s[..k + 1] == s[..k] + [s[k]]
    ensures s[..k + 1][..k] == s[..k] && s[..k + 1][k] == s[k]
  {
  }

  lemma TakeTail<T>(s: seq<T>, m: nat)
    requires 0 < m <= |s|
    ensures s[..m][0] == s[0] && s[..m][1..] == s[1..][..m - 1]
  {
  }

  lemma TakeMore<T>(s: seq<T>, k: nat, m: nat)
    requires k + m <= |s|
    ensures s[..k] + s[k..][..m] == s[..k + m]
  {
  }

  /** Taking the first element of a suffix leaves the next suffix. */
  lemma SuffixTail<T>(s: seq<T>, suffix: seq<T>)
    requires suffix != [] && |suffix| <= |s| && suffix == s[|s| - |suffix|..]
    ensures suffix[1..] == s[|s| - |suffix| + 1..]
    ensures s[|s| - |suffix|] == suffix[0]
    ensures s[..|s| - |suffix| + 1] == s[..|s| - |suffix|] + [suffix[0]]
    ensures |suffix| > 1 ==> s[|s| - |suffix| + 1] == suffix[1..][0]
  {
  }

  lemma SamePrefix<T>(a: seq<T>, x: seq<T>, y: seq<T>)
    requires a + x == a + y
    ensures x == y
  {
    assert (a + x)[|a|..] == x;
    assert (a + y)[|a|..] == y;
  }

  /** The first `k + 1` elements and the rest, seen from the tail. */
  lemma PrependOne<T>(s: seq<T>, k: nat)
    requires k < |s|
    ensures [s[0]] + s[1..][..k] == s[..k + 1]
    ensures s[1..][k..] == s[k + 1..]
    ensures k + 1 < |s| ==> s[1..][k] == s[k + 1]
  {
  }

  /** All the elements of a sequence of sequences, in order. */
  function Flatten<T>(parts: seq<seq<T>>): seq<T> {
    if parts == [] then [] else parts[0] + Flatten(parts[1..])
  }

  lemma {:induction false} FlattenConcat<T>(a: seq<seq<T>>, b: seq<seq<T>>)
    ensures Flatten(a + b) == Flatten(a) + Flatten(b)
  {
    if a == [] {
      EmptyLeft(b);
      EmptyLeft(Flatten(b));
    } else {
      FlattenConcat(a[1..], b);
      TailConcat(a, b);
      Assoc(a[0], Flatten(a[1..]), Flatten(b));
    }
  }

  lemma FlattenOne<T>(part: seq<T>)
    ensures Flatten([part]) == part
  {
    EmptyRight(part);
    assert [part][1..] == [];
  }
}
