// The decoder's table over whole runs: its counters are the numbers of accesses, and what it gives up is what was
// accessed least often.

module DecoderRuns {
  import opened DataBlocks
  import opened DecoderTable
  import opened Usage

  ghost predicate StepAt(ts: seq<Table>, vs: seq<(Value, int)>, m: Limits, k: int)
    requires 0 <= k < |vs| && |ts| == |vs| + 1
  {
    Accessed(ts[k], vs[k].0, vs[k].1, m, ts[k + 1])
  }

  // The tables from the new one on, with the accesses between them.
  ghost predicate Run(ts: seq<Table>, vs: seq<(Value, int)>, m: Limits) {
    && |ts| == |vs| + 1 && ts[0] == Empty(|ts[0].cam|, |ts[0].vlb|)
    && forall k {:trigger StepAt(ts, vs, m, k)} :: 0 <= k < |vs| ==> StepAt(ts, vs, m, k)
  }

  function Values(vs: seq<(Value, int)>): (r: seq<Value>)
    ensures |r| == |vs|
  {
    seq(|vs|, k requires 0 <= k < |vs| => vs[k].0)
  }

  ghost function Halvings(ts: seq<Table>, vs: seq<(Value, int)>, m: Limits): (r: seq<bool>)
    requires |ts| == |vs| + 1
    ensures |r| == |vs|
  {
    seq(|vs|, k requires 0 <= k < |vs| => Halving(ts[k], vs[k].0, m))
  }

  // v was stored in entry i of the shared table by access s - 1, and is there up to table n.
  ghost predicate Held(ts: seq<Table>, v: Value, i: int, s: nat, n: nat) {
    && 1 <= s <= n < |ts| && !InCam(ts[s - 1], v, i)
    && forall k {:trigger ts[k]} :: s <= k <= n ==> InCam(ts[k], v, i)
  }

  // The same for entry j of the VLB.
  ghost predicate HeldLow(ts: seq<Table>, v: Value, j: int, s: nat, n: nat) {
    && 1 <= s <= n < |ts| && !InVlb(ts[s - 1], v, j)
    && forall k {:trigger ts[k]} :: s <= k <= n ==> InVlb(ts[k], v, j)
  }

  lemma {:induction false} RunKeeps(ts: seq<Table>, vs: seq<(Value, int)>, m: Limits, n: nat)
    requires Run(ts, vs, m) && n < |ts|
    ensures Consistent(ts[n]) && |ts[n].cam| == |ts[0].cam| && |ts[n].vlb| == |ts[0].vlb|
  {
    if n == 0 {
      EmptyHonest(|ts[0].cam|, |ts[0].vlb|);
    } else {
      RunKeeps(ts, vs, m, n - 1);
      assert StepAt(ts, vs, m, n - 1);
      AccessKeeps(ts[n - 1], vs[n - 1].0, vs[n - 1].1, m, ts[n]);
    }
  }

  // Every value in the table has been stored by some access and not moved since.
  lemma {:induction false} Since(ts: seq<Table>, vs: seq<(Value, int)>, m: Limits, v: Value, i: int, n: nat)
    returns (s: nat)
    requires Run(ts, vs, m) && n < |ts| && InCam(ts[n], v, i)
    ensures Held(ts, v, i, s, n)
  {
    assert n > 0;
    if InCam(ts[n - 1], v, i) { s := Since(ts, vs, m, v, i, n - 1); } else { s := n; }
  }

  lemma {:induction false} SinceLow(ts: seq<Table>, vs: seq<(Value, int)>, m: Limits, v: Value, j: int, n: nat)
    returns (s: nat)
    requires Run(ts, vs, m) && n < |ts| && InVlb(ts[n], v, j)
    ensures HeldLow(ts, v, j, s, n)
  {
    assert n > 0;
    if InVlb(ts[n - 1], v, j) { s := SinceLow(ts, vs, m, v, j, n - 1); } else { s := n; }
  }

  // The access count of an entry is the number of accesses to its value since it was stored, the one that stored it
  // included; its counter is that number too, but halved by every halving.
  lemma {:induction false} CountsUses(ts: seq<Table>, vs: seq<(Value, int)>, m: Limits, v: Value, i: int, s: nat,
                                      n: nat)
    requires Run(ts, vs, m) && Held(ts, v, i, s, n)
    ensures InCam(ts[n], v, i) && ts[n].cam[i].accesses == Uses(Values(vs), v, s - 1, n)
    ensures ts[n].cam[i].freq == Score(Values(vs), Halvings(ts, vs, m), v, s - 1, n)
    decreases n
  {
    var a := vs[n - 1];
    RunKeeps(ts, vs, m, n - 1);
    assert StepAt(ts, vs, m, n - 1);
    assert InCam(ts[n], v, i);
    AccessCounts(ts[n - 1], a.0, a.1, m, ts[n], v, i);
    if s < n { CountsUses(ts, vs, m, v, i, s, n - 1); }
  }

  // So without a halving the counter is the number of accesses.
  lemma CounterIsUses(ts: seq<Table>, vs: seq<(Value, int)>, m: Limits, v: Value, i: int, s: nat, n: nat)
    requires Run(ts, vs, m) && Held(ts, v, i, s, n)
    requires forall k :: s <= k < n ==> !Halving(ts[k], vs[k].0, m)
    ensures InCam(ts[n], v, i) && ts[n].cam[i].freq == Uses(Values(vs), v, s - 1, n)
  {
    CountsUses(ts, vs, m, v, i, s, n);
    RunKeeps(ts, vs, m, s - 1);
    assert StepAt(ts, vs, m, s - 1);
    assert InCam(ts[s], v, i);
    AccessCounts(ts[s - 1], vs[s - 1].0, vs[s - 1].1, m, ts[s], v, i);
    ScoreIsUses(Values(vs), Halvings(ts, vs, m), v, s - 1, n);
  }

  // The counter of an entry of the VLB is the number of accesses to its value since it was stored.
  lemma {:induction false} CountsUsesLow(ts: seq<Table>, vs: seq<(Value, int)>, m: Limits, v: Value, j: int, s: nat,
                                         n: nat)
    requires Run(ts, vs, m) && HeldLow(ts, v, j, s, n)
    ensures InVlb(ts[n], v, j) && ts[n].vlb[j].freq == Uses(Values(vs), v, s - 1, n)
    decreases n
  {
    var a := vs[n - 1];
    RunKeeps(ts, vs, m, n - 1);
    assert StepAt(ts, vs, m, n - 1);
    assert InVlb(ts[n], v, j);
    AccessCountsLow(ts[n - 1], a.0, a.1, m, ts[n], v, j);
    if s < n { CountsUsesLow(ts, vs, m, v, j, s, n - 1); }
  }

  // ---------- what is moved up and what is given up ----------

  // An access to a value of the VLB moves it up exactly when the accesses since it was stored exceed the limit, and
  // leaves it where it is otherwise.
  lemma MovesUpIff(ts: seq<Table>, vs: seq<(Value, int)>, m: Limits, v: Value, j: int, s: nat, n: nat)
    requires Run(ts, vs, m) && HeldLow(ts, v, j, s, n) && n < |vs| && vs[n].0 == v
    ensures var u := ts[n + 1]; (exists p :: InCam(u, v, p)) <==> Uses(Values(vs), v, s - 1, n + 1) > m.vlb
    ensures InVlb(ts[n + 1], v, j) <==> Uses(Values(vs), v, s - 1, n + 1) <= m.vlb
  {
    CountsUsesLow(ts, vs, m, v, j, s, n);
    RunKeeps(ts, vs, m, n);
    RunKeeps(ts, vs, m, n + 1);
    assert StepAt(ts, vs, m, n);
    var t, u := ts[n], ts[n + 1];
    assert InVlb(t, v, j);
    if VlbMove(t, v, vs[n].1, m, u) {
      var k, p :| MovesTo(t, v, m, k, p) && u == Table(Stored(t.cam, p, v, vs[n].1), t.vlb[k := CLEARED]);
      assert InCam(u, v, p);
    } else {
      assert InVlb(u, v, j);
    }
  }

  // Afterwards the value accessed is in the table.
  lemma AccessStores(t: Table, v: Value, src: int, m: Limits, t': Table)
    requires Accessed(t, v, src, m, t')
    ensures (exists i :: InCam(t', v, i)) || exists j :: InVlb(t', v, j)
  {
    if CamHit(t, v, src, m, t') {
      var i :| InCam(t, v, i) && t' == Table(Counted(t.cam, i, src, m.cam), t.vlb);
      assert InCam(t', v, i);
    } else if VlbMove(t, v, src, m, t') {
      var j, p :| MovesTo(t, v, m, j, p) && t' == Table(Stored(t.cam, p, v, src), t.vlb[j := CLEARED]);
      assert InCam(t', v, p);
    } else {
      InLowAfter(t, v, src, m, t');
    }
  }

  lemma InLowAfter(t: Table, v: Value, src: int, m: Limits, t': Table)
    requires VlbCount(t, v, m, t') || VlbMiss(t, v, t')
    ensures exists j :: InVlb(t', v, j)
  {
    if VlbMiss(t, v, t') {
      var p :| Victim(VlbValid(t.vlb), VlbFreq(t.vlb), p) && t' == Table(t.cam, t.vlb[p := VlbEntry(true, v, 1)]);
      assert InVlb(t', v, p);
    } else {
      var j :| InVlb(t, v, j) && t' == Table(t.cam, t.vlb[j := t.vlb[j].(freq := t.vlb[j].freq + 1)]);
      assert InVlb(t', v, j);
    }
  }

  // An entry it is newly stored in is the first free one of its level, if there is a free one.
  lemma FirstFree(t: Table, v: Value, src: int, m: Limits, t': Table, p: int, k: int)
    requires Accessed(t, v, src, m, t') && InCam(t', v, p) && !InCam(t, v, p) && 0 <= k < |t.cam| && !t.cam[k].valid
    ensures p <= k && !t.cam[p].valid
  {
    if VlbMove(t, v, src, m, t') {
      var j, q :| MovesTo(t, v, m, j, q) && t' == Table(Stored(t.cam, q, v, src), t.vlb[j := CLEARED]);
      VictimLeast(CamValid(t.cam), CamFreq(t.cam), q, k);
    }
  }

  lemma FirstFreeLow(t: Table, v: Value, src: int, m: Limits, t': Table, p: int, k: int)
    requires Accessed(t, v, src, m, t') && InVlb(t', v, p) && !InVlb(t, v, p) && 0 <= k < |t.vlb| && !t.vlb[k].valid
    ensures p <= k && !t.vlb[p].valid
  {
    if VlbMiss(t, v, t') {
      var q :| Victim(VlbValid(t.vlb), VlbFreq(t.vlb), q) && t' == Table(t.cam, t.vlb[q := VlbEntry(true, v, 1)]);
      VictimLeast(VlbValid(t.vlb), VlbFreq(t.vlb), q, k);
    }
  }

  // What an entry of the shared table holds is given up only for a value that moves up, when no entry is free; no
  // value that stays has a lower score, and the entries before it have higher ones.
  lemma GivesUpLeast(ts: seq<Table>, vs: seq<(Value, int)>, m: Limits, w: Value, p: int, r: nat, n: nat, u: Value,
                     i: int, s: nat)
    requires Run(ts, vs, m) && n < |vs| && Held(ts, w, p, r, n) && !InCam(ts[n + 1], w, p) && Held(ts, u, i, s, n)
    ensures InCam(ts[n + 1], vs[n].0, p) && (exists j :: InVlb(ts[n], vs[n].0, j))
    ensures forall k {:trigger ts[n].cam[k]} :: 0 <= k < |ts[n].cam| ==> ts[n].cam[k].valid
    ensures var hs := Halvings(ts, vs, m);
            && Score(Values(vs), hs, w, r - 1, n) <= Score(Values(vs), hs, u, s - 1, n)
            && (i < p ==> Score(Values(vs), hs, w, r - 1, n) < Score(Values(vs), hs, u, s - 1, n))
  {
    CountsUses(ts, vs, m, w, p, r, n);
    CountsUses(ts, vs, m, u, i, s, n);
    assert StepAt(ts, vs, m, n);
    assert InCam(ts[n], w, p) && InCam(ts[n], u, i);
    CamVictimIs(ts[n], vs[n].0, vs[n].1, m, ts[n + 1], w, p);
  }

  lemma CamVictimIs(t: Table, v: Value, src: int, m: Limits, t': Table, w: Value, p: int)
    requires Accessed(t, v, src, m, t') && InCam(t, w, p) && !InCam(t', w, p)
    ensures InCam(t', v, p) && (exists j :: InVlb(t, v, j))
    ensures forall k {:trigger t.cam[k]} :: 0 <= k < |t.cam| ==>
              t.cam[k].valid && t.cam[p].freq <= t.cam[k].freq && (k < p ==> t.cam[p].freq < t.cam[k].freq)
  {
    assert VlbMove(t, v, src, m, t');
    var j, q :| MovesTo(t, v, m, j, q) && t' == Table(Stored(t.cam, q, v, src), t.vlb[j := CLEARED]);
    assert q == p;
    forall k | 0 <= k < |t.cam|
      ensures t.cam[k].valid && t.cam[p].freq <= t.cam[k].freq && (k < p ==> t.cam[p].freq < t.cam[k].freq)
    {
      VictimLeast(CamValid(t.cam), CamFreq(t.cam), p, k);
    }
  }

  // Without halvings that is a value accessed least often since it was stored.
  lemma GivesUpLeastUsed(ts: seq<Table>, vs: seq<(Value, int)>, m: Limits, w: Value, p: int, r: nat, n: nat, u: Value,
                         i: int, s: nat)
    requires Run(ts, vs, m) && n < |vs| && Held(ts, w, p, r, n) && !InCam(ts[n + 1], w, p) && Held(ts, u, i, s, n)
    requires forall k :: 0 <= k < n ==> !Halving(ts[k], vs[k].0, m)
    ensures Uses(Values(vs), w, r - 1, n) <= Uses(Values(vs), u, s - 1, n)
    ensures i < p ==> Uses(Values(vs), w, r - 1, n) < Uses(Values(vs), u, s - 1, n)
  {
    GivesUpLeast(ts, vs, m, w, p, r, n, u, i, s);
    ScoreIsUses(Values(vs), Halvings(ts, vs, m), w, r - 1, n);
    ScoreIsUses(Values(vs), Halvings(ts, vs, m), u, s - 1, n);
  }

  // What an entry of the VLB holds leaves it upwards, or for a new value when no entry is free; then no value that
  // stays was accessed less often, and those before it more often.
  lemma GivesUpLeastLow(ts: seq<Table>, vs: seq<(Value, int)>, m: Limits, w: Value, p: int, r: nat, n: nat, u: Value,
                        j: int, s: nat)
    requires Run(ts, vs, m) && n < |vs| && HeldLow(ts, w, p, r, n) && !InVlb(ts[n + 1], w, p) && vs[n].0 != w
    requires HeldLow(ts, u, j, s, n)
    ensures InVlb(ts[n + 1], vs[n].0, p) && (forall i :: !InCam(ts[n], vs[n].0, i) && !InVlb(ts[n], vs[n].0, i))
    ensures forall k {:trigger ts[n].vlb[k]} :: 0 <= k < |ts[n].vlb| ==> ts[n].vlb[k].valid
    ensures Uses(Values(vs), w, r - 1, n) <= Uses(Values(vs), u, s - 1, n)
    ensures j < p ==> Uses(Values(vs), w, r - 1, n) < Uses(Values(vs), u, s - 1, n)
  {
    CountsUsesLow(ts, vs, m, w, p, r, n);
    CountsUsesLow(ts, vs, m, u, j, s, n);
    assert StepAt(ts, vs, m, n);
    assert InVlb(ts[n], w, p) && InVlb(ts[n], u, j);
    RunKeeps(ts, vs, m, n);
    VlbVictimIs(ts[n], vs[n].0, vs[n].1, m, ts[n + 1], w, p);
  }

  lemma VlbVictimIs(t: Table, v: Value, src: int, m: Limits, t': Table, w: Value, p: int)
    requires Accessed(t, v, src, m, t') && InVlb(t, w, p) && !InVlb(t', w, p) && v != w
    ensures InVlb(t', v, p) && (forall i :: !InCam(t, v, i) && !InVlb(t, v, i))
    ensures forall k {:trigger t.vlb[k]} :: 0 <= k < |t.vlb| ==>
              t.vlb[k].valid && t.vlb[p].freq <= t.vlb[k].freq && (k < p ==> t.vlb[p].freq < t.vlb[k].freq)
  {
    assert VlbMiss(t, v, t');
    var q :| Victim(VlbValid(t.vlb), VlbFreq(t.vlb), q) && t' == Table(t.cam, t.vlb[q := VlbEntry(true, v, 1)]);
    assert q == p;
    forall k | 0 <= k < |t.vlb|
      ensures t.vlb[k].valid && t.vlb[p].freq <= t.vlb[k].freq && (k < p ==> t.vlb[p].freq < t.vlb[k].freq)
    {
      VictimLeast(VlbValid(t.vlb), VlbFreq(t.vlb), p, k);
    }
  }
}
