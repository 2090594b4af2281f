// How often a value is accessed in a run, the measure least-frequently-used replacement goes by.

module Usage {
  import opened DataBlocks

  // The accesses to v from step a up to step b.
  function Uses(vs: seq<Value>, v: Value, a: nat, b: nat): nat
    requires b <= |vs|
  {
    if b <= a then 0 else Uses(vs, v, a, b - 1) + if vs[b - 1] == v then 1 else 0
  }

  // The same count, halved after every step at which counters are halved.
  function Score(vs: seq<Value>, halved: seq<bool>, v: Value, a: nat, b: nat): nat
    requires b <= |vs| && b <= |halved|
  {
    if b <= a then 0
    else
      var n := Score(vs, halved, v, a, b - 1) + if vs[b - 1] == v then 1 else 0;
      if halved[b - 1] then n / 2 else n
  }

  // Without a halving it is the number of accesses, and never more.
  lemma {:induction false} ScoreIsUses(vs: seq<Value>, halved: seq<bool>, v: Value, a: nat, b: nat)
    requires b <= |vs| && b <= |halved|
    ensures Score(vs, halved, v, a, b) <= Uses(vs, v, a, b)
    ensures (forall k :: a <= k < b ==> !halved[k]) ==> Score(vs, halved, v, a, b) == Uses(vs, v, a, b)
  {
    if a < b { ScoreIsUses(vs, halved, v, a, b - 1); }
  }
}
