/** Small facts about sequences shared by the shell-script and URL readers and by the traces. */
module Sequences {
  import opened Wrappers

  /** The first position at or after `from` holding `x`, if any. */
  function IndexOf<T(==)>(s: seq<T>, x: T, from: nat): (r: Option<nat>)
    requires from <= |s|
    ensures r.Some? ==> from <= r.value < |s| && s[r.value] == x && x !in s[from..r.value]
    ensures r.None? ==> x !in s[from..]
    decreases |s| - from
  {
    if from == |s| then None else if s[from] == x then Some(from) else IndexOf(s, x, from + 1)
  }

  /** A position holding `x` with no `x` between `from` and it is the one IndexOf finds. */
  lemma {:induction false} IndexOfAt<T>(s: seq<T>, x: T, from: nat, at: nat)
    requires from <= at < |s| && s[at] == x && x !in s[from..at]
    ensures IndexOf(s, x, from) == Some(at)
    decreases at - from
  {
    if s[from] != x {
      assert s[from] in s[from..at];
      IndexOfAt(s, x, from + 1, at);
    }
  }

  lemma Associative<T>(a: seq<T>, b: seq<T>, c: seq<T>)
    ensures a + b + c == a + (b + c)
  {
  }
}
