// The two-level decoder table: a small buffer of candidate values (VLB) in front of the shared table, both
// with least-frequently-used replacement.

module DecoderTable {
  import opened DataBlocks
  import opened MapSize

  datatype CamEntry = CamEntry(valid: bool, value: Value, freq: nat, accesses: nat, sources: set<int>)
  datatype VlbEntry = VlbEntry(valid: bool, value: Value, freq: nat)

  datatype Table = Table(cam: seq<CamEntry>, vlb: seq<VlbEntry>)

  // The thresholds: cam_VLB_LFU_saturation and cam_LFU_saturation.
  datatype Limits = Limits(vlb: nat, cam: nat)

  predicate InCam(t: Table, v: Value, i: int) { 0 <= i < |t.cam| && t.cam[i].valid && t.cam[i].value == v }
  predicate InVlb(t: Table, v: Value, i: int) { 0 <= i < |t.vlb| && t.vlb[i].valid && t.vlb[i].value == v }

  // Each value is stored at most once, in one of the two levels.
  ghost predicate Consistent(t: Table) {
    && (forall v, i, j {:trigger InCam(t, v, i), InCam(t, v, j)} :: InCam(t, v, i) && InCam(t, v, j) ==> i == j)
    && (forall v, i, j {:trigger InVlb(t, v, i), InVlb(t, v, j)} :: InVlb(t, v, i) && InVlb(t, v, j) ==> i == j)
    && (forall v, i, j {:trigger InCam(t, v, i), InVlb(t, v, j)} :: !(InCam(t, v, i) && InVlb(t, v, j)))
  }

  // The counters keep to their limits.
  ghost predicate Bounded(t: Table, m: Limits) {
    && (forall i {:trigger t.cam[i]} :: 0 <= i < |t.cam| ==> t.cam[i].freq < m.cam)
    && (forall i {:trigger t.vlb[i]} :: 0 <= i < |t.vlb| ==> t.vlb[i].freq <= m.vlb)
  }

  // The entry to be replaced: the first invalid one, or else the first of those used least.
  ghost predicate Victim(valid: seq<bool>, freq: seq<nat>, p: int) {
    && |valid| == |freq| && 0 <= p < |valid|
    && (if valid[p] then
          && (forall i :: 0 <= i < |valid| ==> valid[i])
          && (forall i :: 0 <= i < |freq| ==> freq[p] <= freq[i]) && (forall i :: 0 <= i < p ==> freq[p] < freq[i])
        else forall i :: 0 <= i < p ==> valid[i])
  }

  function CamValid(c: seq<CamEntry>): (r: seq<bool>)
    ensures |r| == |c| && forall i {:trigger r[i]} :: 0 <= i < |c| ==> r[i] == c[i].valid
  {
    seq(|c|, i requires 0 <= i < |c| => c[i].valid)
  }

  function CamFreq(c: seq<CamEntry>): (r: seq<nat>)
    ensures |r| == |c| && forall i {:trigger r[i]} :: 0 <= i < |c| ==> r[i] == c[i].freq
  {
    seq(|c|, i requires 0 <= i < |c| => c[i].freq)
  }

  function VlbValid(c: seq<VlbEntry>): (r: seq<bool>)
    ensures |r| == |c| && forall i {:trigger r[i]} :: 0 <= i < |c| ==> r[i] == c[i].valid
  {
    seq(|c|, i requires 0 <= i < |c| => c[i].valid)
  }

  function VlbFreq(c: seq<VlbEntry>): (r: seq<nat>)
    ensures |r| == |c| && forall i {:trigger r[i]} :: 0 <= i < |c| ==> r[i] == c[i].freq
  {
    seq(|c|, i requires 0 <= i < |c| => c[i].freq)
  }

  // ---------- one access ----------

  // A hit counts; a counter that reaches its limit halves all of them.
  function Counted(c: seq<CamEntry>, i: int, src: int, limit: nat): seq<CamEntry>
    requires 0 <= i < |c|
  {
    var e := c[i].(freq := c[i].freq + 1, accesses := c[i].accesses + 1, sources := c[i].sources + {src});
    var c' := c[i := e];
    if e.freq >= limit then Halved(c') else c'
  }

  function Halved(c: seq<CamEntry>): (r: seq<CamEntry>)
    ensures |r| == |c|
  {
    seq(|c|, i requires 0 <= i < |c| => c[i].(freq := c[i].freq / 2))
  }

  // The value stored at p; the sources of the entry it replaces stay, as resize() does not clear them.
  function Stored(c: seq<CamEntry>, p: int, v: Value, src: int): seq<CamEntry>
    requires 0 <= p < |c|
  {
    c[p := CamEntry(true, v, 1, 1, c[p].sources + {src})]
  }

  const CLEARED := VlbEntry(false, Value(""), 0)
  const BLANK := CamEntry(false, Value(""), 0, 0, {})

  // What access_by_LFU does to the table, by where the value is found.
  ghost predicate CamHit(t: Table, v: Value, src: int, m: Limits, t': Table) {
    exists i :: InCam(t, v, i) && t' == Table(Counted(t.cam, i, src, m.cam), t.vlb)
  }

  ghost predicate VlbCount(t: Table, v: Value, m: Limits, t': Table) {
    exists j :: InVlb(t, v, j) && t.vlb[j].freq + 1 <= m.vlb &&
      t' == Table(t.cam, t.vlb[j := t.vlb[j].(freq := t.vlb[j].freq + 1)])
  }

  // v is about to move from entry j of the VLB to entry p of the shared table.
  ghost predicate MovesTo(t: Table, v: Value, m: Limits, j: int, p: int) {
    && (forall i :: !InCam(t, v, i)) && InVlb(t, v, j) && t.vlb[j].freq + 1 > m.vlb
    && Victim(CamValid(t.cam), CamFreq(t.cam), p)
  }

  ghost predicate VlbMove(t: Table, v: Value, src: int, m: Limits, t': Table) {
    exists j, p :: MovesTo(t, v, m, j, p) && t' == Table(Stored(t.cam, p, v, src), t.vlb[j := CLEARED])
  }

  ghost predicate VlbMiss(t: Table, v: Value, t': Table) {
    exists p :: Victim(VlbValid(t.vlb), VlbFreq(t.vlb), p) && t' == Table(t.cam, t.vlb[p := VlbEntry(true, v, 1)])
  }

  ghost predicate Accessed(t: Table, v: Value, src: int, m: Limits, t': Table) {
    if exists i :: InCam(t, v, i) then CamHit(t, v, src, m, t')
    else if exists j :: InVlb(t, v, j) then VlbCount(t, v, m, t') || VlbMove(t, v, src, m, t')
    else VlbMiss(t, v, t')
  }

  // The source is told where the value is now: it did not know, or the value has just moved up.
  ghost predicate Told(t: Table, v: Value, src: int, m: Limits) {
    || (exists i :: InCam(t, v, i) && src !in t.cam[i].sources)
    || (exists j :: InVlb(t, v, j) && t.vlb[j].freq + 1 > m.vlb)
  }

  // ---------- what every access keeps ----------

  lemma HitKeeps(t: Table, i: int, v: Value, src: int, m: Limits)
    requires Consistent(t) && InCam(t, v, i)
    ensures Consistent(Table(Counted(t.cam, i, src, m.cam), t.vlb))
  {
    var t' := Table(Counted(t.cam, i, src, m.cam), t.vlb);
    forall w, k ensures InCam(t', w, k) <==> InCam(t, w, k) {}
    forall w, k ensures InVlb(t', w, k) <==> InVlb(t, w, k) {}
    forall w, a, b | InCam(t', w, a) && InCam(t', w, b) ensures a == b { assert InCam(t, w, a) && InCam(t, w, b); }
  }

  lemma StoreKeeps(t: Table, j: int, p: int, v: Value, src: int)
    requires Consistent(t) && InVlb(t, v, j) && 0 <= p < |t.cam|
    ensures Consistent(Table(Stored(t.cam, p, v, src), t.vlb[j := CLEARED]))
  {
    var t' := Table(Stored(t.cam, p, v, src), t.vlb[j := CLEARED]);
    forall w, k ensures InCam(t', w, k) <==> if k == p then w == v else InCam(t, w, k) {}
    forall w, k ensures InVlb(t', w, k) <==> InVlb(t, w, k) && k != j {}
    forall w, a, b | InCam(t', w, a) && InCam(t', w, b) ensures a == b {
      assert a != p ==> InCam(t, w, a);
      assert b != p ==> InCam(t, w, b);
    }
    forall w, a, b | InVlb(t', w, a) && InVlb(t', w, b) ensures a == b { assert InVlb(t, w, a) && InVlb(t, w, b); }
  }

  lemma MissKeeps(t: Table, p: int, v: Value)
    requires Consistent(t) && 0 <= p < |t.vlb|
    requires (forall i :: !InCam(t, v, i)) && (forall j :: !InVlb(t, v, j))
    ensures Consistent(Table(t.cam, t.vlb[p := VlbEntry(true, v, 1)]))
  {
    var t' := Table(t.cam, t.vlb[p := VlbEntry(true, v, 1)]);
    forall w, k ensures InCam(t', w, k) <==> InCam(t, w, k) {}
    forall w, k ensures InVlb(t', w, k) <==> if k == p then w == v else InVlb(t, w, k) {}
    forall w, a, b | InCam(t', w, a) && InCam(t', w, b) ensures a == b { assert InCam(t, w, a) && InCam(t, w, b); }
    forall w, a, b | InVlb(t', w, a) && InVlb(t', w, b) ensures a == b {
      assert a != p ==> InVlb(t, w, a);
      assert b != p ==> InVlb(t, w, b);
    }
  }

  lemma CountKeeps(t: Table, j: int, v: Value)
    requires Consistent(t) && InVlb(t, v, j)
    ensures Consistent(Table(t.cam, t.vlb[j := t.vlb[j].(freq := t.vlb[j].freq + 1)]))
  {
    var t' := Table(t.cam, t.vlb[j := t.vlb[j].(freq := t.vlb[j].freq + 1)]);
    forall w, k ensures InCam(t', w, k) <==> InCam(t, w, k) {}
    forall w, k ensures InVlb(t', w, k) <==> InVlb(t, w, k) {}
    forall w, a, b | InCam(t', w, a) && InCam(t', w, b) ensures a == b { assert InCam(t, w, a) && InCam(t, w, b); }
    forall w, a, b | InVlb(t', w, a) && InVlb(t', w, b) ensures a == b { assert InVlb(t, w, a) && InVlb(t, w, b); }
  }

  // Whatever the limits are, every access keeps the table consistent.
  lemma AccessKeeps(t: Table, v: Value, src: int, m: Limits, t': Table)
    requires Consistent(t) && Accessed(t, v, src, m, t')
    ensures Consistent(t')
  {
    if exists i :: InCam(t, v, i) {
      var i :| InCam(t, v, i) && t' == Table(Counted(t.cam, i, src, m.cam), t.vlb);
      HitKeeps(t, i, v, src, m);
    } else if exists j :: InVlb(t, v, j) {
      if VlbCount(t, v, m, t') {
        var j :| InVlb(t, v, j) && t.vlb[j].freq + 1 <= m.vlb &&
          t' == Table(t.cam, t.vlb[j := t.vlb[j].(freq := t.vlb[j].freq + 1)]);
        CountKeeps(t, j, v);
      } else {
        var j, p :| MovesTo(t, v, m, j, p) && t' == Table(Stored(t.cam, p, v, src), t.vlb[j := CLEARED]);
        StoreKeeps(t, j, p, v, src);
      }
    } else {
      var p :| Victim(VlbValid(t.vlb), VlbFreq(t.vlb), p) && t' == Table(t.cam, t.vlb[p := VlbEntry(true, v, 1)]);
      MissKeeps(t, p, v);
    }
  }

  // With limits of at least 1 and 2 the counters keep to them.
  lemma AccessBounded(t: Table, v: Value, src: int, m: Limits, t': Table)
    requires Bounded(t, m) && Accessed(t, v, src, m, t') && m.vlb >= 1 && m.cam >= 2
    ensures Bounded(t', m)
  {
    if exists i :: InCam(t, v, i) {
      var i :| InCam(t, v, i) && t' == Table(Counted(t.cam, i, src, m.cam), t.vlb);
      forall k | 0 <= k < |t'.cam| ensures t'.cam[k].freq < m.cam { assert t.cam[k].freq < m.cam; }
    }
  }

  // These limits are what it takes: with smaller ones a value that is stored breaks the bound at once.
  lemma MissNeedsOne(t: Table, p: int, v: Value, m: Limits)
    requires Bounded(t, m) && 0 <= p < |t.vlb|
    ensures Bounded(Table(t.cam, t.vlb[p := VlbEntry(true, v, 1)]), m) <==> m.vlb >= 1
  {
    var t' := Table(t.cam, t.vlb[p := VlbEntry(true, v, 1)]);
    assert t'.vlb[p].freq == 1;
  }

  lemma MoveNeedsTwo(t: Table, j: int, p: int, v: Value, src: int, m: Limits)
    requires Bounded(t, m) && InVlb(t, v, j) && 0 <= p < |t.cam|
    ensures Bounded(Table(Stored(t.cam, p, v, src), t.vlb[j := CLEARED]), m) <==> m.cam >= 2
  {
    var t' := Table(Stored(t.cam, p, v, src), t.vlb[j := CLEARED]);
    assert t'.cam[p].freq == 1;
  }

  // ---------- what an access counts ----------

  // The access to v brings a counter to its limit, so that all of them are halved.
  ghost predicate Halving(t: Table, v: Value, m: Limits) { exists i :: InCam(t, v, i) && t.cam[i].freq + 1 >= m.cam }

  // What the shared table counts for w, which is in entry i afterwards, when src accesses v.
  ghost predicate Counts(t: Table, v: Value, src: int, m: Limits, t': Table, w: Value, i: int)
    requires |t'.cam| == |t.cam| && InCam(t', w, i)
  {
    var e, e' := t.cam[i], t'.cam[i];
    if InCam(t, w, i) then
      && e'.accesses == e.accesses + (if v == w then 1 else 0)
      && e'.freq == (e.freq + if v == w then 1 else 0) / (if Halving(t, v, m) then 2 else 1)
      && e'.sources == e.sources + (if v == w then {src} else {})
    else w == v && e'.accesses == e'.freq == 1 && !Halving(t, v, m) && src in e'.sources
  }

  // Exactly the accesses to a value count for it, and every source that accesses it becomes one of its sources.
  lemma AccessCounts(t: Table, v: Value, src: int, m: Limits, t': Table, w: Value, i: int)
    requires Consistent(t) && Accessed(t, v, src, m, t') && InCam(t', w, i)
    ensures |t'.cam| == |t.cam| && |t'.vlb| == |t.vlb| && Counts(t, v, src, m, t', w, i)
  {
    if k :| InCam(t, v, k) && t' == Table(Counted(t.cam, k, src, m.cam), t.vlb) {
      assert InCam(t, w, i);
      assert v == w ==> InCam(t, v, i);
    }
  }

  // So for every value of the shared table.
  ghost predicate AllCount(t: Table, v: Value, src: int, m: Limits, t': Table) {
    |t'.cam| == |t.cam| && forall w, i {:trigger InCam(t', w, i)} :: InCam(t', w, i) ==> Counts(t, v, src, m, t', w, i)
  }

  lemma AccessAllCount(t: Table, v: Value, src: int, m: Limits, t': Table)
    requires Consistent(t) && Accessed(t, v, src, m, t')
    ensures AllCount(t, v, src, m, t')
  {
    assert |t'.cam| == |t.cam|;
    forall w, i | InCam(t', w, i) ensures Counts(t, v, src, m, t', w, i) { AccessCounts(t, v, src, m, t', w, i); }
  }

  // And what the VLB counts for it.
  lemma AccessCountsLow(t: Table, v: Value, src: int, m: Limits, t': Table, w: Value, j: int)
    requires Consistent(t) && Accessed(t, v, src, m, t') && InVlb(t', w, j)
    ensures |t'.cam| == |t.cam| && |t'.vlb| == |t.vlb|
    ensures if InVlb(t, w, j) then t'.vlb[j].freq == t.vlb[j].freq + (if v == w then 1 else 0)
            else w == v && t'.vlb[j].freq == 1
  {
    if k :| InVlb(t, v, k) && VlbCount(t, v, m, t') {
      assert v == w && InVlb(t, w, j) ==> k == j;
    }
  }

  // A source is told exactly when it is afterwards a source of the value in an entry where it was none before.
  lemma ToldIff(t: Table, v: Value, src: int, m: Limits, t': Table)
    requires Consistent(t) && Accessed(t, v, src, m, t')
    ensures Told(t, v, src, m) <==>
              exists i :: InCam(t', v, i) && src in t'.cam[i].sources &&
                          !(InCam(t, v, i) && src in t.cam[i].sources)
  {
    if i :| InCam(t, v, i) && t' == Table(Counted(t.cam, i, src, m.cam), t.vlb) {
      assert InCam(t', v, i) && src in t'.cam[i].sources;
    } else if VlbMove(t, v, src, m, t') {
      var j, p :| MovesTo(t, v, m, j, p) && t' == Table(Stored(t.cam, p, v, src), t.vlb[j := CLEARED]);
      assert InCam(t', v, p) && src in t'.cam[p].sources;
    }
  }

  // Whatever is accessed in whatever order.
  ghost predicate Accesses(t: Table, vs: seq<(Value, int)>, m: Limits, t': Table)
    decreases |vs|
  {
    if vs == [] then t' == t
    else exists u :: Accessed(t, vs[0].0, vs[0].1, m, u) && Accesses(u, vs[1..], m, t')
  }

  lemma {:induction false} AccessesKeep(t: Table, vs: seq<(Value, int)>, m: Limits, t': Table)
    requires Consistent(t) && Accesses(t, vs, m, t')
    ensures Consistent(t')
    ensures Bounded(t, m) && m.vlb >= 1 && m.cam >= 2 ==> Bounded(t', m)
    decreases |vs|
  {
    if vs != [] {
      var u :| Accessed(t, vs[0].0, vs[0].1, m, u) && Accesses(u, vs[1..], m, t');
      AccessKeeps(t, vs[0].0, vs[0].1, m, u);
      if Bounded(t, m) && m.vlb >= 1 && m.cam >= 2 { AccessBounded(t, vs[0].0, vs[0].1, m, u); }
      AccessesKeep(u, vs[1..], m, t');
    }
  }

  // ---------- what the source bits say ----------

  // The table as constructed.
  function Empty(numSets: nat, vlbNumSets: nat): Table {
    Table(seq(numSets, _ => BLANK), seq(vlbNumSets, _ => CLEARED))
  }

  // Every source an entry names has accessed its value, h being all accesses so far.
  ghost predicate Honest(t: Table, h: set<(Value, int)>) {
    forall i, s {:trigger s in t.cam[i].sources} :: 0 <= i < |t.cam| && s in t.cam[i].sources ==>
      t.cam[i].valid && (t.cam[i].value, s) in h
  }

  // An access that hits comes from a source that had accessed the value before.
  lemma HonestHit(t: Table, h: set<(Value, int)>, v: Value, i: int, src: int)
    requires Honest(t, h) && InCam(t, v, i) && src in t.cam[i].sources
    ensures (v, src) in h
  {}

  // The entry v moves up to, if it does, names only sources that have accessed v.
  ghost predicate CleanMove(t: Table, v: Value, src: int, m: Limits, h: set<(Value, int)>) {
    forall j, p, s {:trigger MovesTo(t, v, m, j, p), s in t.cam[p].sources} ::
      MovesTo(t, v, m, j, p) && s in t.cam[p].sources ==> s == src || (v, s) in h
  }

  lemma HonestMove(t: Table, v: Value, src: int, m: Limits, h: set<(Value, int)>, j: int, p: int)
    requires Honest(t, h) && MovesTo(t, v, m, j, p)
    ensures Honest(Table(Stored(t.cam, p, v, src), t.vlb[j := CLEARED]), h + {(v, src)}) <==>
              forall s :: s in t.cam[p].sources ==> s == src || (v, s) in h
  {
    var t' := Table(Stored(t.cam, p, v, src), t.vlb[j := CLEARED]);
    assert t'.cam[p].sources == t.cam[p].sources + {src} && t'.cam[p].value == v;
    if Honest(t', h + {(v, src)}) {
      forall s | s in t.cam[p].sources ensures s == src || (v, s) in h { assert s in t'.cam[p].sources; }
    }
    if forall s :: s in t.cam[p].sources ==> s == src || (v, s) in h {
      forall i, s | 0 <= i < |t'.cam| && s in t'.cam[i].sources
        ensures t'.cam[i].valid && (t'.cam[i].value, s) in h + {(v, src)} {
        assert s == src || s in t.cam[i].sources;
      }
    }
  }

  lemma VictimLeast(valid: seq<bool>, freq: seq<nat>, p: int, q: int)
    requires Victim(valid, freq, p) && 0 <= q < |valid|
    ensures valid[p] ==> valid[q] && freq[p] <= freq[q]
    ensures q < p ==> valid[q] && (valid[p] ==> freq[p] < freq[q])
  {}

  lemma VictimUnique(valid: seq<bool>, freq: seq<nat>, p: int, q: int)
    requires Victim(valid, freq, p) && Victim(valid, freq, q)
    ensures p == q
  {
    VictimLeast(valid, freq, p, q);
    VictimLeast(valid, freq, q, p);
  }

  // The program means to clear the source bits of a replaced entry, but resize() leaves those that are
  // there. So one access keeps the bits honest exactly when it is no move onto an entry that names others.
  lemma HonestIff(t: Table, v: Value, src: int, m: Limits, t': Table, h: set<(Value, int)>)
    requires Consistent(t) && Honest(t, h) && Accessed(t, v, src, m, t')
    ensures Honest(t', h + {(v, src)}) <==> CleanMove(t, v, src, m, h)
  {
    if i :| InCam(t, v, i) && t' == Table(Counted(t.cam, i, src, m.cam), t.vlb) {
      forall k | 0 <= k < |t.cam|
        ensures t'.cam[k].sources == (if k == i then t.cam[k].sources + {src} else t.cam[k].sources)
        ensures t'.cam[k].valid == t.cam[k].valid && t'.cam[k].value == t.cam[k].value {}
      assert forall j, p :: !MovesTo(t, v, m, j, p);
    } else if VlbMove(t, v, src, m, t') {
      var j, p :| MovesTo(t, v, m, j, p) && t' == Table(Stored(t.cam, p, v, src), t.vlb[j := CLEARED]);
      HonestMove(t, v, src, m, h, j, p);
      forall j', p' | MovesTo(t, v, m, j', p') ensures p' == p {
        VictimUnique(CamValid(t.cam), CamFreq(t.cam), p, p');
      }
    } else {
      assert t'.cam == t.cam;
      forall j, p ensures !MovesTo(t, v, m, j, p) {}
    }
  }

  // The run gives up no valid entry of the shared table.
  ghost predicate KeepsAll(t: Table, vs: seq<(Value, int)>, m: Limits, t': Table)
    decreases |vs|
  {
    if vs == [] then t' == t
    else
      && (forall j, p {:trigger MovesTo(t, vs[0].0, m, j, p)} :: MovesTo(t, vs[0].0, m, j, p) ==> !t.cam[p].valid)
      && exists u :: Accessed(t, vs[0].0, vs[0].1, m, u) && KeepsAll(u, vs[1..], m, t')
  }

  function History(vs: seq<(Value, int)>): set<(Value, int)> { set a | a in vs }

  // Until an entry of the shared table is replaced, the sources it names are those of its own value.
  lemma {:induction false} HonestRun(t: Table, h: set<(Value, int)>, vs: seq<(Value, int)>, m: Limits, t': Table)
    requires Consistent(t) && Honest(t, h) && KeepsAll(t, vs, m, t')
    ensures Honest(t', h + History(vs))
    decreases |vs|
  {
    if vs == [] {
      assert h + History(vs) == h;
    } else {
      var u :| Accessed(t, vs[0].0, vs[0].1, m, u) && KeepsAll(u, vs[1..], m, t');
      AccessKeeps(t, vs[0].0, vs[0].1, m, u);
      HonestIff(t, vs[0].0, vs[0].1, m, u, h);
      HonestRun(u, h + {vs[0]}, vs[1..], m, t');
      assert h + History(vs) == h + {vs[0]} + History(vs[1..]) by { assert vs == [vs[0]] + vs[1..]; }
    }
  }

  lemma EmptyHonest(numSets: nat, vlbNumSets: nat)
    ensures Consistent(Empty(numSets, vlbNumSets)) && Honest(Empty(numSets, vlbNumSets), {})
  {}

  lemma OneMoreAccess(t: Table, v: Value, src: int, m: Limits, u: Table, vs: seq<(Value, int)>, t': Table)
    requires Accessed(t, v, src, m, u) && Accesses(u, vs, m, t')
    ensures Accesses(t, [(v, src)] + vs, m, t')
  {
    assert ([(v, src)] + vs)[1..] == vs;
  }

  // A table of one entry in each level.
  function Small(e: CamEntry, l: VlbEntry): Table { Table([e], [l]) }

  // Two accesses of a new value bring it to the shared table, with the sources that are there.
  lemma TwoAccesses(e: CamEntry, v: Value, src: int, m: Limits, vs: seq<(Value, int)>, t': Table)
    requires m.vlb == 1 && !(e.valid && e.value == v)
    requires Accesses(Small(CamEntry(true, v, 1, 1, e.sources + {src}), CLEARED), vs, m, t')
    ensures Accesses(Small(e, CLEARED), [(v, src)] + ([(v, src)] + vs), m, t')
  {
    var t, u := Small(e, CLEARED), Small(e, VlbEntry(true, v, 1));
    assert Victim(VlbValid(t.vlb), VlbFreq(t.vlb), 0);
    assert [CLEARED][0 := VlbEntry(true, v, 1)] == u.vlb;
    assert Accessed(t, v, src, m, u);
    var moved := Small(CamEntry(true, v, 1, 1, e.sources + {src}), CLEARED);
    assert MovesTo(u, v, m, 0, 0);
    assert Stored(u.cam, 0, v, src) == moved.cam && u.vlb[0 := CLEARED] == moved.vlb;
    assert Accessed(u, v, src, m, moved);
    OneMoreAccess(u, v, src, m, moved, vs, t');
    OneMoreAccess(t, v, src, m, u, [(v, src)] + vs, t');
  }

  // A run from the new table after which a source that never accessed a value hits on it.
  lemma StaleSources(v: Value, w: Value, src: int, other: int, m: Limits) returns (vs: seq<(Value, int)>, t: Table)
    requires v != w && src != other && m.vlb == 1
    ensures Accesses(Empty(1, 1), vs, m, t) && (w, src) !in History(vs)
    ensures InCam(t, w, 0) && src in t.cam[0].sources && !Honest(t, History(vs))
  {
    var e := CamEntry(true, v, 1, 1, BLANK.sources + {src});
    t := Small(CamEntry(true, w, 1, 1, e.sources + {other}), CLEARED);
    TwoAccesses(e, w, other, m, [], t);
    var tail := [(w, other)] + ([(w, other)] + []);
    TwoAccesses(BLANK, v, src, m, tail, t);
    assert Empty(1, 1) == Small(BLANK, CLEARED);
    vs := [(v, src)] + ([(v, src)] + tail);
    assert src in t.cam[0].sources;
  }

  // ---------- the maps ----------

  // Each map holds exactly the valid entries of its level.
  ghost predicate MapsAgree(t: Table, ce: map<Value, int>, cv: map<Value, int>) {
    && (forall v {:trigger ce[v]} :: v in ce ==> InCam(t, v, ce[v]))
    && (forall v, i {:trigger InCam(t, v, i)} :: InCam(t, v, i) ==> v in ce)
    && (forall v {:trigger cv[v]} :: v in cv ==> InVlb(t, v, cv[v]))
    && (forall v, i {:trigger InVlb(t, v, i)} :: InVlb(t, v, i) ==> v in cv)
  }

  // So neither holds more values than its level has entries.
  lemma MapsFit(t: Table, ce: map<Value, int>, cv: map<Value, int>)
    requires MapsAgree(t, ce, cv)
    ensures |ce| <= |t.cam| && |cv| <= |t.vlb|
  {
    forall v, w | v in ce && w in ce && ce[v] == ce[w] ensures v == w {
      assert InCam(t, v, ce[v]) && InCam(t, w, ce[w]);
    }
    forall v, w | v in cv && w in cv && cv[v] == cv[w] ensures v == w {
      assert InVlb(t, v, cv[v]) && InVlb(t, w, cv[w]);
    }
    IndexSize(ce, |t.cam|);
    IndexSize(cv, |t.vlb|);
  }

  // The same values in the same places.
  lemma SameMaps(t: Table, t': Table, ce: map<Value, int>, cv: map<Value, int>)
    requires MapsAgree(t, ce, cv)
    requires forall v, i {:trigger InCam(t', v, i)} :: InCam(t', v, i) <==> InCam(t, v, i)
    requires forall v, i {:trigger InVlb(t', v, i)} :: InVlb(t', v, i) <==> InVlb(t, v, i)
    ensures MapsAgree(t', ce, cv)
  {
    forall v | v in ce ensures InCam(t', v, ce[v]) { assert InCam(t, v, ce[v]); }
    forall v | v in cv ensures InVlb(t', v, cv[v]) { assert InVlb(t, v, cv[v]); }
  }

  // The map after entry p, if it is valid, is given up for v.
  function Remapped(ce: map<Value, int>, valid: bool, was: Value, v: Value, p: int): map<Value, int> {
    (if valid then ce - {was} else ce)[v := p]
  }

  lemma StoreMaps(t: Table, j: int, p: int, v: Value, src: int, m: Limits, ce: map<Value, int>, cv: map<Value, int>)
    requires Consistent(t) && MapsAgree(t, ce, cv) && InVlb(t, v, j) && 0 <= p < |t.cam|
    ensures MapsAgree(Table(Stored(t.cam, p, v, src), t.vlb[j := CLEARED]),
                      Remapped(ce, t.cam[p].valid, t.cam[p].value, v, p), cv - {v})
  {
    var t' := Table(Stored(t.cam, p, v, src), t.vlb[j := CLEARED]);
    var ce' := Remapped(ce, t.cam[p].valid, t.cam[p].value, v, p);
    forall w, k ensures InCam(t', w, k) <==> if k == p then w == v else InCam(t, w, k) {}
    forall w, k ensures InVlb(t', w, k) <==> InVlb(t, w, k) && k != j {}
    forall w | w in ce' ensures InCam(t', w, ce'[w]) {
      if w != v { assert InCam(t, w, ce[w]); assert ce[w] == p ==> InCam(t, w, p); }
    }
    forall w, k | InCam(t', w, k) ensures w in ce' {
      if k != p { assert InCam(t, w, k); assert t.cam[p].valid ==> InCam(t, t.cam[p].value, p); }
    }
    forall w | w in cv - {v} ensures InVlb(t', w, cv[w]) { assert InVlb(t, w, cv[w]); }
    forall w, k | InVlb(t', w, k) ensures w in cv - {v} { assert InVlb(t, w, k); assert w == v ==> k == j; }
  }

  lemma MissMaps(t: Table, p: int, v: Value, m: Limits, ce: map<Value, int>, cv: map<Value, int>)
    requires Consistent(t) && MapsAgree(t, ce, cv) && 0 <= p < |t.vlb| && v !in ce && v !in cv
    ensures MapsAgree(Table(t.cam, t.vlb[p := VlbEntry(true, v, 1)]), ce,
                      Remapped(cv, t.vlb[p].valid, t.vlb[p].value, v, p))
  {
    var t' := Table(t.cam, t.vlb[p := VlbEntry(true, v, 1)]);
    var cv' := Remapped(cv, t.vlb[p].valid, t.vlb[p].value, v, p);
    forall w, k ensures InCam(t', w, k) <==> InCam(t, w, k) {}
    forall w, k ensures InVlb(t', w, k) <==> if k == p then w == v else InVlb(t, w, k) {}
    forall w | w in ce ensures InCam(t', w, ce[w]) { assert InCam(t, w, ce[w]); }
    forall w | w in cv' ensures InVlb(t', w, cv'[w]) {
      if w != v { assert InVlb(t, w, cv[w]); assert cv[w] == p ==> InVlb(t, w, p); }
    }
    forall w, k | InVlb(t', w, k) ensures w in cv' {
      if k != p { assert InVlb(t, w, k); assert t.vlb[p].valid ==> InVlb(t, t.vlb[p].value, p); }
    }
  }

  lemma CountMaps(t: Table, j: int, v: Value, ce: map<Value, int>, cv: map<Value, int>)
    requires MapsAgree(t, ce, cv) && InVlb(t, v, j)
    ensures MapsAgree(Table(t.cam, t.vlb[j := t.vlb[j].(freq := t.vlb[j].freq + 1)]), ce, cv)
  {
    var t' := Table(t.cam, t.vlb[j := t.vlb[j].(freq := t.vlb[j].freq + 1)]);
    forall w, k ensures InCam(t', w, k) <==> InCam(t, w, k) {}
    forall w, k ensures InVlb(t', w, k) <==> InVlb(t, w, k) {}
    SameMaps(t, t', ce, cv);
  }

  lemma HitMaps(t: Table, i: int, v: Value, src: int, m: Limits, ce: map<Value, int>, cv: map<Value, int>)
    requires MapsAgree(t, ce, cv) && InCam(t, v, i)
    ensures MapsAgree(Table(Counted(t.cam, i, src, m.cam), t.vlb), ce, cv)
  {
    var t' := Table(Counted(t.cam, i, src, m.cam), t.vlb);
    forall w, k ensures InCam(t', w, k) <==> InCam(t, w, k) {}
    forall w, k ensures InVlb(t', w, k) <==> InVlb(t, w, k) {}
    SameMaps(t, t', ce, cv);
  }

  // ---------- the table as the program keeps it ----------

  class CAMDataDeShared {
    const m: Limits
    const buf: array<CamEntry>          // m_buf, which is also the order of the list
    const vlb: array<VlbEntry>          // m_VLB
    var value2entry: map<Value, int>    // m_value2entry_map
    var value2vlb: map<Value, int>      // m_value2VLB_map
    var hits: nat
    var misses: nat
    var replaceReqs: nat                // the sources told to replace a value

    ghost function Contents(): Table
      reads buf, vlb
    {
      Table(buf[..], vlb[..])
    }

    ghost predicate Valid()
      reads this, buf, vlb
    {
      && buf.Length > 0 && vlb.Length > 0 && Consistent(Contents())
      && MapsAgree(Contents(), value2entry, value2vlb)
    }

    constructor (m: Limits, numSets: nat, vlbNumSets: nat)
      requires numSets > 0 && vlbNumSets > 0
      ensures Valid() && fresh(buf) && fresh(vlb) && value2entry == map[] && value2vlb == map[] && this.m == m
      ensures Contents() == Empty(numSets, vlbNumSets)
      ensures hits == misses == replaceReqs == 0
    {
      this.m := m;
      buf := new CamEntry[numSets](_ => BLANK);
      vlb := new VlbEntry[vlbNumSets](_ => CLEARED);
      value2entry, value2vlb, hits, misses, replaceReqs := map[], map[], 0, 0, 0;
    }

    method VlbVictim() returns (p: int)
      requires vlb.Length > 0
      ensures Victim(VlbValid(vlb[..]), VlbFreq(vlb[..]), p)
    {
      p := -1;
      var i := 0;
      while i < vlb.Length && vlb[i].valid
        invariant 0 <= i <= vlb.Length && forall j :: 0 <= j < i ==> vlb[j].valid
      {
        i := i + 1;
      }
      if i < vlb.Length {
        p := i;
      } else {
        p := 0;
        for k := 1 to vlb.Length
          invariant 0 <= p < k
          invariant forall j :: 0 <= j < k ==> vlb[p].freq <= vlb[j].freq
          invariant forall j :: 0 <= j < p ==> vlb[p].freq < vlb[j].freq
        {
          if vlb[k].freq < vlb[p].freq { p := k; }
        }
      }
    }

    method CamVictim() returns (p: int)
      requires buf.Length > 0
      ensures Victim(CamValid(buf[..]), CamFreq(buf[..]), p)
    {
      p := 0;
      var cur, least := 0, buf[0].freq;
      while cur < buf.Length
        invariant 0 <= p <= cur <= buf.Length && p < buf.Length && (cur > 0 ==> p < cur)
        invariant least == buf[p].freq
        invariant forall j :: 0 <= j < cur ==> buf[j].valid
        invariant forall j :: 0 <= j < cur ==> buf[p].freq <= buf[j].freq
        invariant forall j :: 0 <= j < p ==> buf[p].freq < buf[j].freq
      {
        if !buf[cur].valid {
          p := cur;
          return;
        }
        if buf[cur].freq < least { p, least := cur, buf[cur].freq; }
        cur := cur + 1;
      }
    }

    // access_by_LFU
    method AccessByLFU(v: Value, src: int) returns (hit: bool)
      requires Valid()
      modifies this, buf, vlb
      ensures Valid() && Accessed(old(Contents()), v, src, m, Contents())
      ensures AllCount(old(Contents()), v, src, m, Contents())
      ensures hit <==> exists i :: InCam(old(Contents()), v, i) && src in old(Contents()).cam[i].sources
      ensures hits == old(hits) + (if hit then 1 else 0) && misses == old(misses) + (if hit then 0 else 1)
      ensures replaceReqs == old(replaceReqs) + if Told(old(Contents()), v, src, m) then 1 else 0
    {
      if v !in value2entry {
        if v !in value2vlb { StoreInVlb(v); } else { CountInVlb(v, src); }
        MapsFit(Contents(), value2entry, value2vlb);
        assert |value2entry| <= buf.Length;
        hit := false;
        misses := misses + 1;
      } else {
        hit := CountInCam(v, src);
      }
      AccessAllCount(old(Contents()), v, src, m, Contents());
    }

    method StoreInVlb(v: Value)
      requires Valid() && v !in value2entry && v !in value2vlb
      modifies this`value2vlb, vlb
      ensures Valid() && VlbMiss(old(Contents()), v, Contents())
    {
      var p := VlbVictim();
      MissKeeps(Contents(), p, v);
      MissMaps(Contents(), p, v, m, value2entry, value2vlb);
      if vlb[p].valid { value2vlb := value2vlb - {vlb[p].value}; }
      vlb[p] := VlbEntry(true, v, 1);
      value2vlb := value2vlb[v := p];
      assert vlb[..] == old(vlb[..])[p := VlbEntry(true, v, 1)];
    }

    method CountInVlb(v: Value, src: int)
      requires Valid() && v !in value2entry && v in value2vlb
      modifies this`value2entry, this`value2vlb, this`replaceReqs, buf, vlb
      ensures replaceReqs == old(replaceReqs) + if old(vlb[value2vlb[v]].freq) + 1 > m.vlb then 1 else 0
      ensures Valid() &&
              (VlbCount(old(Contents()), v, m, Contents()) || VlbMove(old(Contents()), v, src, m, Contents()))
    {
      var j := value2vlb[v];
      var e := vlb[j];
      if e.freq + 1 > m.vlb {
        var p := CamVictim();
        assert MovesTo(Contents(), v, m, j, p);
        StoreKeeps(Contents(), j, p, v, src);
        StoreMaps(Contents(), j, p, v, src, m, value2entry, value2vlb);
        if buf[p].valid { value2entry := value2entry - {buf[p].value}; }
        buf[p] := CamEntry(true, v, 1, 1, buf[p].sources + {src});
        value2entry := value2entry[v := p];
        replaceReqs := replaceReqs + 1;
        value2vlb := value2vlb - {v};
        vlb[j] := CLEARED;
        assert buf[..] == Stored(old(buf[..]), p, v, src);
        assert vlb[..] == old(vlb[..])[j := CLEARED];
      } else {
        CountKeeps(Contents(), j, v);
        CountMaps(Contents(), j, v, value2entry, value2vlb);
        vlb[j] := e.(freq := e.freq + 1);
        assert vlb[..] == old(vlb[..])[j := e.(freq := e.freq + 1)];
      }
    }

    method CountInCam(v: Value, src: int) returns (hit: bool)
      requires Valid() && v in value2entry
      modifies this`hits, this`misses, this`replaceReqs, buf
      ensures Valid() && CamHit(old(Contents()), v, src, m, Contents())
      ensures hit == (src in old(Contents()).cam[value2entry[v]].sources)
      ensures hits == old(hits) + (if hit then 1 else 0) && misses == old(misses) + (if hit then 0 else 1)
      ensures replaceReqs == old(replaceReqs) + if hit then 0 else 1
    {
      var i := value2entry[v];
      HitKeeps(Contents(), i, v, src, m);
      HitMaps(Contents(), i, v, src, m, value2entry, value2vlb);
      hit := src in buf[i].sources;
      if hit { hits := hits + 1; } else { misses, replaceReqs := misses + 1, replaceReqs + 1; }
      buf[i] := buf[i].(freq := buf[i].freq + 1, accesses := buf[i].accesses + 1, sources := buf[i].sources + {src});
      if buf[i].freq >= m.cam { Halve(); }
      assert buf[..] == Counted(old(buf[..]), i, src, m.cam);
    }

    method Halve()
      modifies buf
      ensures buf[..] == Halved(old(buf[..]))
    {
      for k := 0 to buf.Length
        invariant forall j :: 0 <= j < k ==> buf[j] == old(buf[j]).(freq := old(buf[j]).freq / 2)
        invariant forall j :: k <= j < buf.Length ==> buf[j] == old(buf[j])
      {
        buf[k] := buf[k].(freq := buf[k].freq / 2);
      }
    }
  }
}
