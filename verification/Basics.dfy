module Basics {
  datatype Option<+T> = None | Some(value: T)

  /** Slots per chunk of a chunked list. */
  const CHUNK_SIZE := 1024

  /** The counters are 64 bits wide. */
  const WORD: nat := 0x1_0000_0000_0000_0000

  ghost predicate Distinct<T>(s: seq<T>) {
    forall i, j | 0 <= i < j < |s| :: s[i] != s[j]
  }

  ghost function Elements<T>(s: seq<T>): set<T> {
    set x | x in s
  }

  lemma SubsetSize<T>(a: set<T>, b: set<T>)
    requires a <= b
    ensures |a| <= |b|
  {
    assert b == a + (b - a);
  }

  /** Two sets that differ at most in `t`. */
  lemma CountChange<T>(a: set<T>, b: set<T>, t: T)
    requires forall u | u != t :: u in b <==> u in a
    ensures |b| == |a| + (if t in b then 1 else 0) - (if t in a then 1 else 0)
  {
    assert a - {t} == b - {t};
    assert |a - {t}| == |a| - if t in a then 1 else 0;
    assert |b - {t}| == |b| - if t in b then 1 else 0;
  }

  /** How many of the first `i` members are of this kind. */
  function Tally<T>(s: seq<T>, i: nat, kind: T -> bool): nat
    requires i <= |s|
  {
    if i == 0 then 0 else Tally(s, i - 1, kind) + if kind(s[i-1]) then 1 else 0
  }
}
