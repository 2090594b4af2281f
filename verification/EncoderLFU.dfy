// The encoder's table with least-frequently-used replacement. The program keeps the same entries, list and
// map as with recency, but never relinks the list, so its order is that of the buffer.

module EncoderLFU {
  import opened DataBlocks
  import opened MapSize
  import opened Usage
  import D = DecoderTable

  datatype Slot = Slot(valid: bool, value: Value, freq: nat, accesses: nat)

  // The table as constructed.
  function New(n: nat): seq<Slot> { seq(n, _ => Slot(false, Value(""), 0, 0)) }

  predicate At(t: seq<Slot>, v: Value, i: int) { 0 <= i < |t| && t[i].valid && t[i].value == v }

  // Each value is stored at most once.
  ghost predicate Unique(t: seq<Slot>) {
    forall v, i, j {:trigger At(t, v, i), At(t, v, j)} :: At(t, v, i) && At(t, v, j) ==> i == j
  }

  // Every counter is below its limit.
  ghost predicate Bounded(t: seq<Slot>, limit: nat) { forall i {:trigger t[i]} :: 0 <= i < |t| ==> t[i].freq < limit }

  // The map holds exactly the valid entries.
  ghost predicate Indexed(t: seq<Slot>, tab: map<Value, int>) {
    && (forall v {:trigger tab[v]} :: v in tab ==> At(t, v, tab[v]))
    && (forall v, i {:trigger At(t, v, i)} :: At(t, v, i) ==> v in tab)
  }

  function Valids(t: seq<Slot>): (r: seq<bool>)
    ensures |r| == |t| && forall i {:trigger r[i]} :: 0 <= i < |t| ==> r[i] == t[i].valid
  {
    seq(|t|, i requires 0 <= i < |t| => t[i].valid)
  }

  function Freqs(t: seq<Slot>): (r: seq<nat>)
    ensures |r| == |t| && forall i {:trigger r[i]} :: 0 <= i < |t| ==> r[i] == t[i].freq
  {
    seq(|t|, i requires 0 <= i < |t| => t[i].freq)
  }

  // ---------- one access ----------

  function Halved(t: seq<Slot>): (r: seq<Slot>)
    ensures |r| == |t|
  {
    seq(|t|, i requires 0 <= i < |t| => t[i].(freq := t[i].freq / 2))
  }

  function Hit(t: seq<Slot>, i: int, limit: nat): (r: seq<Slot>)
    requires 0 <= i < |t|
    ensures |r| == |t|
  {
    var t' := t[i := t[i].(freq := t[i].freq + 1, accesses := t[i].accesses + 1)];
    if t[i].freq + 1 >= limit then Halved(t') else t'
  }

  // A hit counts, and halves all counters when one reaches the limit; a miss overwrites the first invalid
  // entry or the first of those used least.
  ghost predicate Accessed(t: seq<Slot>, v: Value, limit: nat, t': seq<Slot>) {
    if exists i :: At(t, v, i) then exists i :: At(t, v, i) && t' == Hit(t, i, limit)
    else exists p :: D.Victim(Valids(t), Freqs(t), p) && t' == t[p := Slot(true, v, 1, 1)]
  }

  lemma HitKeeps(t: seq<Slot>, i: int, v: Value, limit: nat)
    requires Unique(t) && At(t, v, i)
    ensures Unique(Hit(t, i, limit))
    ensures forall w, k {:trigger At(Hit(t, i, limit), w, k)} :: At(Hit(t, i, limit), w, k) <==> At(t, w, k)
  {
    var t' := Hit(t, i, limit);
    forall w, k ensures At(t', w, k) <==> At(t, w, k) {}
    forall w, a, b | At(t', w, a) && At(t', w, b) ensures a == b { assert At(t, w, a) && At(t, w, b); }
  }

  lemma MissKeeps(t: seq<Slot>, p: int, v: Value)
    requires Unique(t) && 0 <= p < |t| && forall i :: !At(t, v, i)
    ensures Unique(t[p := Slot(true, v, 1, 1)])
    ensures forall w, k {:trigger At(t[p := Slot(true, v, 1, 1)], w, k)} ::
              At(t[p := Slot(true, v, 1, 1)], w, k) <==> if k == p then w == v else At(t, w, k)
  {
    var t' := t[p := Slot(true, v, 1, 1)];
    forall w, k ensures At(t', w, k) <==> if k == p then w == v else At(t, w, k) {}
    forall w, a, b | At(t', w, a) && At(t', w, b) ensures a == b {
      assert a != p ==> At(t, w, a);
      assert b != p ==> At(t, w, b);
    }
  }

  // A limit of at least 2 is what it takes: below that a stored value breaks the bound at once.
  lemma MissNeedsTwo(t: seq<Slot>, p: int, v: Value, limit: nat)
    requires Bounded(t, limit) && 0 <= p < |t|
    ensures Bounded(t[p := Slot(true, v, 1, 1)], limit) <==> limit >= 2
  {
    assert t[p := Slot(true, v, 1, 1)][p].freq == 1;
  }

  // Every access keeps the table free of doubles, and with a limit of at least 2 its counters below it.
  lemma AccessKeeps(t: seq<Slot>, v: Value, limit: nat, t': seq<Slot>)
    requires Unique(t) && Accessed(t, v, limit, t')
    ensures Unique(t')
    ensures Bounded(t, limit) && limit >= 2 ==> Bounded(t', limit)
  {
    if exists i :: At(t, v, i) {
      var i :| At(t, v, i) && t' == Hit(t, i, limit);
      HitKeeps(t, i, v, limit);
      if Bounded(t, limit) {
        forall k | 0 <= k < |t'| ensures t'[k].freq < limit || limit < 2 { assert t[k].freq < limit; }
      }
    } else {
      var p :| D.Victim(Valids(t), Freqs(t), p) && t' == t[p := Slot(true, v, 1, 1)];
      MissKeeps(t, p, v);
    }
  }

  // What an access finds afterwards: its own value, and every other value that was there except the one it
  // evicts, which only goes when no entry is free and none is used less.
  lemma Evicts(t: seq<Slot>, v: Value, limit: nat, t': seq<Slot>, w: Value)
    requires Unique(t) && Accessed(t, v, limit, t')
    ensures exists i :: At(t', v, i)
    ensures (exists i :: At(t, w, i)) && !(exists i :: At(t', w, i)) ==>
              && w != v && !(exists i :: At(t, v, i)) && (forall k :: 0 <= k < |t| ==> t[k].valid)
              && exists i :: At(t, w, i) && forall k :: 0 <= k < |t| ==> t[i].freq <= t[k].freq
  {
    if exists i :: At(t, v, i) {
      var i :| At(t, v, i) && t' == Hit(t, i, limit);
      HitKeeps(t, i, v, limit);
      assert At(t', v, i);
      forall k | At(t, w, k) ensures At(t', w, k) {}
    } else {
      var p :| D.Victim(Valids(t), Freqs(t), p) && t' == t[p := Slot(true, v, 1, 1)];
      MissKeeps(t, p, v);
      assert At(t', v, p);
      if k :| At(t, w, k) {
        if k != p { assert At(t', w, k); } else { VictimIs(t, p); }
      }
    }
  }

  lemma VictimIs(t: seq<Slot>, p: int)
    requires D.Victim(Valids(t), Freqs(t), p) && t[p].valid
    ensures forall k :: 0 <= k < |t| ==> t[k].valid && t[p].freq <= t[k].freq
  {
    forall k | 0 <= k < |t| ensures t[k].valid && t[p].freq <= t[k].freq {
      assert Valids(t)[k] && Freqs(t)[p] <= Freqs(t)[k];
    }
  }

  // ---------- what is counted over a run ----------

  // The access to v brings a counter to the limit, so that all of them are halved.
  ghost predicate Halving(t: seq<Slot>, v: Value, limit: nat) { exists i :: At(t, v, i) && t[i].freq + 1 >= limit }

  // Exactly the accesses to a value count for it.
  lemma AccessCounts(t: seq<Slot>, v: Value, limit: nat, t': seq<Slot>, w: Value, i: int)
    requires Unique(t) && Accessed(t, v, limit, t') && At(t', w, i)
    ensures |t'| == |t|
    ensures if At(t, w, i) then
              && t'[i].accesses == t[i].accesses + (if v == w then 1 else 0)
              && t'[i].freq == (t[i].freq + if v == w then 1 else 0) / (if Halving(t, v, limit) then 2 else 1)
            else w == v && t'[i].accesses == t'[i].freq == 1 && !Halving(t, v, limit)
  {
    if k :| At(t, v, k) && t' == Hit(t, k, limit) {
      assert At(t, w, i);
      assert v == w ==> At(t, v, i);
    }
  }

  ghost predicate StepAt(ts: seq<seq<Slot>>, vs: seq<Value>, limit: nat, k: int)
    requires 0 <= k < |vs| && |ts| == |vs| + 1
  {
    Accessed(ts[k], vs[k], limit, ts[k + 1])
  }

  // The tables from the new one on, with the accesses between them.
  ghost predicate Run(ts: seq<seq<Slot>>, vs: seq<Value>, limit: nat) {
    && |ts| == |vs| + 1 && ts[0] == New(|ts[0]|)
    && forall k {:trigger StepAt(ts, vs, limit, k)} :: 0 <= k < |vs| ==> StepAt(ts, vs, limit, k)
  }

  ghost function Halvings(ts: seq<seq<Slot>>, vs: seq<Value>, limit: nat): (r: seq<bool>)
    requires |ts| == |vs| + 1
    ensures |r| == |vs|
  {
    seq(|vs|, k requires 0 <= k < |vs| => Halving(ts[k], vs[k], limit))
  }

  // v was stored in entry i by access s - 1, and is there up to table n.
  ghost predicate Held(ts: seq<seq<Slot>>, v: Value, i: int, s: nat, n: nat) {
    1 <= s <= n < |ts| && !At(ts[s - 1], v, i) && forall k {:trigger ts[k]} :: s <= k <= n ==> At(ts[k], v, i)
  }

  lemma {:induction false} RunUnique(ts: seq<seq<Slot>>, vs: seq<Value>, limit: nat, n: nat)
    requires Run(ts, vs, limit) && n < |ts|
    ensures Unique(ts[n])
  {
    if n > 0 {
      RunUnique(ts, vs, limit, n - 1);
      assert StepAt(ts, vs, limit, n - 1);
      AccessKeeps(ts[n - 1], vs[n - 1], limit, ts[n]);
    }
  }

  // Every value in the table has been stored by some access and not moved since.
  lemma {:induction false} Since(ts: seq<seq<Slot>>, vs: seq<Value>, limit: nat, v: Value, i: int, n: nat)
    returns (s: nat)
    requires Run(ts, vs, limit) && n < |ts| && At(ts[n], v, i)
    ensures Held(ts, v, i, s, n)
  {
    assert n > 0;
    if At(ts[n - 1], v, i) { s := Since(ts, vs, limit, v, i, n - 1); } else { s := n; }
  }

  // The access count of an entry is the number of accesses to its value since it was stored, the one that stored it
  // included; its counter is that number too, but halved by every halving.
  lemma {:induction false} CountsUses(ts: seq<seq<Slot>>, vs: seq<Value>, limit: nat, v: Value, i: int, s: nat, n: nat)
    requires Run(ts, vs, limit) && Held(ts, v, i, s, n)
    ensures At(ts[n], v, i) && ts[n][i].accesses == Uses(vs, v, s - 1, n)
    ensures ts[n][i].freq == Score(vs, Halvings(ts, vs, limit), v, s - 1, n)
    decreases n
  {
    RunUnique(ts, vs, limit, n - 1);
    assert StepAt(ts, vs, limit, n - 1);
    assert At(ts[n], v, i);
    AccessCounts(ts[n - 1], vs[n - 1], limit, ts[n], v, i);
    if s < n { CountsUses(ts, vs, limit, v, i, s, n - 1); }
  }

  // What an entry holds is given up only for a value that is in no entry, when none is free; no value that stays has a
  // lower score, and the entries before it have higher ones. Without halvings the scores are the numbers of accesses.
  lemma GivesUpLeast(ts: seq<seq<Slot>>, vs: seq<Value>, limit: nat, w: Value, p: int, r: nat, n: nat, u: Value, i: int,
                     s: nat)
    requires Run(ts, vs, limit) && n < |vs| && Held(ts, w, p, r, n) && !At(ts[n + 1], w, p) && Held(ts, u, i, s, n)
    ensures At(ts[n + 1], vs[n], p) && forall k :: !At(ts[n], vs[n], k)
    ensures forall k {:trigger ts[n][k]} :: 0 <= k < |ts[n]| ==> ts[n][k].valid
    ensures var hs := Halvings(ts, vs, limit);
            && Score(vs, hs, w, r - 1, n) <= Score(vs, hs, u, s - 1, n)
            && (i < p ==> Score(vs, hs, w, r - 1, n) < Score(vs, hs, u, s - 1, n))
    ensures (forall k :: 0 <= k < n ==> !Halving(ts[k], vs[k], limit)) ==>
              && Uses(vs, w, r - 1, n) <= Uses(vs, u, s - 1, n)
              && (i < p ==> Uses(vs, w, r - 1, n) < Uses(vs, u, s - 1, n))
  {
    CountsUses(ts, vs, limit, w, p, r, n);
    CountsUses(ts, vs, limit, u, i, s, n);
    assert StepAt(ts, vs, limit, n);
    assert At(ts[n], w, p) && At(ts[n], u, i);
    GivenUp(ts[n], vs[n], limit, ts[n + 1], w, p);
    ScoreIsUses(vs, Halvings(ts, vs, limit), w, r - 1, n);
    ScoreIsUses(vs, Halvings(ts, vs, limit), u, s - 1, n);
  }

  lemma GivenUp(t: seq<Slot>, v: Value, limit: nat, t': seq<Slot>, w: Value, p: int)
    requires Accessed(t, v, limit, t') && At(t, w, p) && !At(t', w, p)
    ensures At(t', v, p) && forall k :: !At(t, v, k)
    ensures forall k {:trigger t[k]} :: 0 <= k < |t| ==>
              t[k].valid && t[p].freq <= t[k].freq && (k < p ==> t[p].freq < t[k].freq)
  {
    if k :| At(t, v, k) && t' == Hit(t, k, limit) {
      assert false;
    } else {
      var q :| D.Victim(Valids(t), Freqs(t), q) && t' == t[q := Slot(true, v, 1, 1)];
      assert q == p;
      forall k | 0 <= k < |t|
        ensures t[k].valid && t[p].freq <= t[k].freq && (k < p ==> t[p].freq < t[k].freq)
      {
        D.VictimLeast(Valids(t), Freqs(t), p, k);
      }
    }
  }

  // A value is newly stored in the first free entry, if there is one.
  lemma FirstFree(t: seq<Slot>, v: Value, limit: nat, t': seq<Slot>, p: int, k: int)
    requires Accessed(t, v, limit, t') && At(t', v, p) && !At(t, v, p) && 0 <= k < |t| && !t[k].valid
    ensures p <= k && !t[p].valid
  {
    if q :| D.Victim(Valids(t), Freqs(t), q) && t' == t[q := Slot(true, v, 1, 1)] {
      D.VictimLeast(Valids(t), Freqs(t), q, k);
    }
  }

  lemma Fits(t: seq<Slot>, tab: map<Value, int>)
    requires Indexed(t, tab)
    ensures |tab| <= |t|
  {
    forall v, w | v in tab && w in tab && tab[v] == tab[w] ensures v == w {
      assert At(t, v, tab[v]) && At(t, w, tab[w]);
    }
    IndexSize(tab, |t|);
  }

  // ---------- the table as the program keeps it ----------

  class LfuTable {
    const limit: nat                    // cam_LFU_saturation
    const buf: array<Slot>              // m_buf
    var tab: map<Value, int>            // m_datablk2buf_map
    var hits: nat
    var misses: nat

    ghost predicate Valid()
      reads this, buf
    {
      buf.Length > 0 && Unique(buf[..]) && Indexed(buf[..], tab)
    }

    constructor (limit: nat, numSets: nat)
      requires numSets > 0
      ensures Valid() && fresh(buf) && this.limit == limit && buf.Length == numSets && tab == map[] &&
              hits == misses == 0
      ensures buf[..] == New(numSets)
    {
      this.limit := limit;
      buf := new Slot[numSets](_ => Slot(false, Value(""), 0, 0));
      tab, hits, misses := map[], 0, 0;
    }

    method FindVictim() returns (p: int)
      requires buf.Length > 0
      ensures D.Victim(Valids(buf[..]), Freqs(buf[..]), p)
    {
      p := 0;
      var cur, least := 0, buf[0].freq;
      while cur < buf.Length
        invariant 0 <= p <= cur <= buf.Length && p < buf.Length && (cur > 0 ==> p < cur)
        invariant least == buf[p].freq
        invariant forall j :: 0 <= j < cur ==> buf[j].valid
        invariant forall j :: 0 <= j < cur ==> buf[p].freq <= buf[j].freq
        invariant forall j :: 0 <= j < p ==> buf[p].freq < buf[j].freq
      {
        if !buf[cur].valid {
          p := cur;
          return;
        }
        if buf[cur].freq < least { p, least := cur, buf[cur].freq; }
        cur := cur + 1;
      }
    }

    // access_by_LFU
    method AccessByLFU(v: Value) returns (hitIndex: int)
      requires Valid()
      modifies this, buf
      ensures Valid() && Accessed(old(buf[..]), v, limit, buf[..])
      ensures hitIndex >= 0 ==> At(old(buf[..]), v, hitIndex)
      ensures hitIndex < 0 ==> hitIndex == -1 && forall i :: !At(old(buf[..]), v, i)
      ensures hits == old(hits) + (if hitIndex >= 0 then 1 else 0) &&
              misses == old(misses) + (if hitIndex >= 0 then 0 else 1)
    {
      if v !in tab {
        Replace(v);
        Fits(buf[..], tab);
        assert |tab| <= buf.Length;
        misses := misses + 1;
        hitIndex := -1;
      } else {
        hitIndex := tab[v];
        Count(v);
        hits := hits + 1;
      }
    }

    method Replace(v: Value)
      requires Valid() && v !in tab
      modifies this`tab, buf
      ensures Valid() && Accessed(old(buf[..]), v, limit, buf[..])
    {
      var p := FindVictim();
      ghost var t := buf[..];
      MissKeeps(t, p, v);
      if buf[p].valid {
        assert At(t, buf[p].value, p);
        tab := tab - {buf[p].value};
      }
      buf[p] := Slot(true, v, 1, 1);
      tab := tab[v := p];
      assert buf[..] == t[p := Slot(true, v, 1, 1)];
      ReplaceIndexed(t, p, v, old(tab));
    }

    method Count(v: Value)
      requires Valid() && v in tab
      modifies buf
      ensures Valid() && Accessed(old(buf[..]), v, limit, buf[..])
    {
      var i := tab[v];
      ghost var t := buf[..];
      HitKeeps(t, i, v, limit);
      buf[i] := buf[i].(freq := buf[i].freq + 1, accesses := buf[i].accesses + 1);
      if buf[i].freq >= limit { HalveAll(); }
      assert buf[..] == Hit(t, i, limit);
      assert At(t, v, i);
      forall w | w in tab ensures At(buf[..], w, tab[w]) { assert At(t, w, tab[w]); }
    }

    method HalveAll()
      modifies buf
      ensures buf[..] == Halved(old(buf[..]))
    {
      for k := 0 to buf.Length
        invariant forall j :: 0 <= j < k ==> buf[j] == old(buf[j]).(freq := old(buf[j]).freq / 2)
        invariant forall j :: k <= j < buf.Length ==> buf[j] == old(buf[j])
      {
        buf[k] := buf[k].(freq := buf[k].freq / 2);
      }
    }
  }

  lemma ReplaceIndexed(t: seq<Slot>, p: int, v: Value, tab: map<Value, int>)
    requires 0 <= p < |t| && Indexed(t, tab) && v !in tab
    requires Unique(t)
    ensures Indexed(t[p := Slot(true, v, 1, 1)], (if t[p].valid then tab - {t[p].value} else tab)[v := p])
  {
    var t' := t[p := Slot(true, v, 1, 1)];
    var tab' := (if t[p].valid then tab - {t[p].value} else tab)[v := p];
    forall w | w in tab' ensures At(t', w, tab'[w]) {
      if w != v {
        assert At(t, w, tab[w]);
        assert tab[w] == p ==> At(t, w, p);
      }
    }
    forall w, k | At(t', w, k) ensures w in tab' {
      if k != p {
        assert At(t, w, k);
        assert t[p].valid ==> At(t, t[p].value, p);
      }
    }
  }
}
