// The switch arbiter as the program runs it: requests and priority vectors updated in place.

module SwArb {
  import opened Wiring
  import opened Flits
  import opened Protocol
  import opened Stages
  import opened Priorities
  import opened Arbiter
  import opened Invariant
  import opened ControlProofs
  import opened StepProofs
  import Fairness

  // ---------- one priority vector ----------

  lemma FirstAt(l: seq<int>, live: int -> bool, i: nat)
    requires i <= |l| && (forall j :: 0 <= j < i ==> !live(l[j])) && (i < |l| ==> live(l[i]))
    ensures First(l, live) == if i < |l| then Some(l[i]) else None
  {
    if i > 0 {
      assert l == [l[0]] + l[1..];
      FirstAt(l[1..], live, i - 1);
    }
  }

  lemma OrderFirst(l: seq<int>, x: int)
    requires x in l
    ensures Order(l, x) < |l| && l[Order(l, x)] == x
    ensures forall j :: 0 <= j < Order(l, x) ==> l[j] != x
  {
    OrderAt(l, x);
    forall j | 0 <= j < Order(l, x) ensures l[j] != x { assert l[j] == l[..Order(l, x)][j]; }
  }

  // V1_LRS_ORDER and P1_LRS_ORDER.
  method LrsOrder(l: seq<int>, x: int) returns (p: nat)
    requires x in l
    ensures p == Order(l, x) < |l|
  {
    OrderFirst(l, x);
    p := 0;
    while l[p] != x
      invariant p <= Order(l, x)
      decreases |l| - p
    {
      p := p + 1;
    }
  }

  // The element at p removed by shifting those after it, up to position i.
  function Shifted(l: seq<int>, p: nat, i: nat): seq<int>
    requires p <= i < |l|
  {
    l[..p] + l[p + 1..i + 1] + l[i..]
  }

  lemma ShiftStep(l: seq<int>, p: nat, i: nat)
    requires p <= i < |l| - 1
    ensures Shifted(l, p, i)[i + 1] == l[i + 1]
    ensures Shifted(l, p, i)[i := l[i + 1]] == Shifted(l, p, i + 1)
  {
    var a, b := Shifted(l, p, i)[i := l[i + 1]], Shifted(l, p, i + 1);
    forall j | 0 <= j < |l| ensures a[j] == b[j] {}
  }

  lemma ShiftEnds(l: seq<int>, p: nat, x: int)
    requires p < |l|
    ensures Shifted(l, p, p) == l
    ensures Shifted(l, p, |l| - 1)[|l| - 1 := x] == l[..p] + l[p + 1..] + [x]
  {}

  // The elements after position p move up and x becomes the last choice.
  method Shift(l: seq<int>, p: nat, x: int) returns (m: seq<int>)
    requires p < |l|
    ensures m == l[..p] + l[p + 1..] + [x]
  {
    ShiftEnds(l, p, x);
    m := l;
    var i := p;
    while i < |l| - 1
      invariant p <= i < |l| && m == Shifted(l, p, i)
    {
      ShiftStep(l, p, i);
      m := m[i := m[i + 1]];
      i := i + 1;
    }
    m := m[|l| - 1 := x];
  }

  method Demote(l: seq<int>, x: int) returns (m: seq<int>)
    requires x in l
    ensures m == ToBack(l, x)
  {
    var p := LrsOrder(l, x);
    m := Shift(l, p, x);
    RemoveAt(l, x);
  }

  // ---------- how many requests there can be ----------

  function Row(pc: int, n: nat): set<VC> {
    if n == 0 then {} else Row(pc, n - 1) + {VC(pc, n - 1)}
  }

  // The input VCs of the first n ports.
  function Grid(n: nat, nvc: nat): set<VC> {
    if n == 0 then {} else Grid(n - 1, nvc) + Row(n - 1, nvc)
  }

  lemma {:induction false} InRow(pc: int, n: nat)
    ensures |Row(pc, n)| == n
    ensures forall k :: k in Row(pc, n) <==> k.pc == pc && 0 <= k.vc < n
  {
    if n > 0 { InRow(pc, n - 1); }
  }

  lemma {:induction false} GridHasOne(n: nat, nvc: nat, k: VC)
    ensures k in Grid(n, nvc) <==> 0 <= k.pc < n && 0 <= k.vc < nvc
  {
    if n > 0 {
      GridHasOne(n - 1, nvc, k);
      InRow(n - 1, nvc);
    }
  }

  lemma GridHas(n: nat, nvc: nat)
    ensures forall k :: k in Grid(n, nvc) <==> 0 <= k.pc < n && 0 <= k.vc < nvc
  {
    forall k ensures k in Grid(n, nvc) <==> 0 <= k.pc < n && 0 <= k.vc < nvc { GridHasOne(n, nvc, k); }
  }

  lemma {:induction false} GridSize(n: nat, nvc: nat)
    ensures |Grid(n, nvc)| == n * nvc
  {
    if n > 0 {
      GridSize(n - 1, nvc);
      NextRow(n - 1, nvc);
      Rows(n - 1, nvc);
    }
  }

  lemma NextRow(n: nat, nvc: nat)
    ensures |Grid(n + 1, nvc)| == |Grid(n, nvc)| + nvc
  {
    GridHas(n, nvc);
    InRow(n, nvc);
    Disjoint(Grid(n, nvc), Row(n, nvc));
  }

  lemma InGrid(n: nat, nvc: nat)
    ensures |Grid(n, nvc)| == n * nvc
    ensures forall k :: k in Grid(n, nvc) <==> 0 <= k.pc < n && 0 <= k.vc < nvc
  {
    GridHas(n, nvc);
    GridSize(n, nvc);
  }

  lemma Disjoint(a: set<VC>, b: set<VC>)
    requires forall k :: k in a ==> k !in b
    ensures |a + b| == |a| + |b|
  {
    assert a !! b;
  }

  lemma Rows(n: nat, nvc: nat)
    ensures (n + 1) * nvc == n * nvc + nvc
  {}

  lemma FreeRowEmpty(sw: map<VC, SwReq>, pc: int, n: nat)
    requires forall k :: k in Row(pc, n) ==> k in sw
    ensures FreeRow(sw, pc, n) == []
  {
    if n > 0 {
      assert VC(pc, n - 1) in Row(pc, n);
      FreeRowEmpty(sw, pc, n - 1);
    }
  }

  lemma FreeKeysEmpty(sw: map<VC, SwReq>, n: nat, nvc: nat)
    requires forall k :: k in Grid(n, nvc) ==> k in sw
    ensures FreeKeys(sw, n, nvc) == []
  {
    if n > 0 {
      FreeKeysEmpty(sw, n - 1, nvc);
      FreeRowEmpty(sw, n - 1, nvc);
    }
  }

  // When as many requests are live as there are input VCs, no input VC is free.
  lemma FullMeansNoneFree(sw: map<VC, SwReq>, npc: nat, nvc: nat)
    requires sw.Keys <= Grid(npc, nvc) && |sw| >= npc * nvc
    ensures FreeKeys(sw, npc, nvc) == []
  {
    InGrid(npc, nvc);
    var grid := Grid(npc, nvc);
    assert grid == sw.Keys + (grid - sw.Keys);
    assert |grid - sw.Keys| == 0;
    FreeKeysEmpty(sw, npc, nvc);
  }

  // ---------- what the arbiter looks at ----------

  // The parts of its router that grantGeneric reads: buffers, input modules, crossbar and credits.
  datatype RouterView = RouterView(
    T: Topo, id: int, q: map<VC, seq<Flit>>, inm: map<VC, InMod>, waiting: map<int, int>, taken: set<int>,
    cred: map<VC, Cred>, now: int)
  {
    predicate Idle(pc: int) { (if pc in waiting then waiting[pc] else INVALID_VC) == INVALID_VC }

    function OutVc(k: VC): int { if k in inm then inm[k].outVc else INVALID_VC }
  }

  function ViewOf(T: Topo, id: int, rs: RouterState, now: int): RouterView {
    RouterView(T, id, rs.c.q, rs.c.inm, rs.c.waiting, rs.c.taken, rs.cred, now)
  }

  predicate Asking(w: RouterView, reqs: map<VC, SwReq>, spec: bool, k: VC) {
    k in reqs && (spec ==> Queue(w.q, k) != [] && Queue(w.q, k)[0].IsHead() && reqs[k].clk == w.now)
  }

  predicate Open(w: RouterView, reqs: map<VC, SwReq>, k: VC) {
    && k in reqs && w.Idle(k.pc) && reqs[k].outPc !in w.taken
    && (w.T.IsEject(w.id, reqs[k].outPc) || HasCredit(w.T, w.cred, VC(reqs[k].outPc, w.OutVc(k))))
  }

  function RoundOf(w: RouterView, reqs: map<VC, SwReq>, spec: bool): Env {
    Env(k => Asking(w, reqs, spec, k), k => if k in reqs then reqs[k].outPc else INVALID_PC, k => Open(w, reqs, k))
  }

  // ---------- P:1 arbitration in port order ----------

  // The best input port below n for output port op.
  function BestUpto(a: Arb, e: Env, op: int, n: nat): Option<int>
    requires 0 <= op < |a.p1|
  {
    if n == 0 then None
    else
      var b := BestUpto(a, e, op, n - 1);
      if !Competes(a, e, op, n - 1) then b
      else if b.Some? && Order(a.p1[op], n - 1) >= Order(a.p1[op], b.value) then b
      else Some(n - 1)
  }

  lemma {:induction false} BestUptoIs(a: Arb, e: Env, op: int, n: nat)
    requires 0 <= op < |a.p1|
    ensures var b := BestUpto(a, e, op, n);
            if b.None? then forall q :: 0 <= q < n ==> !Competes(a, e, op, q)
            else 0 <= b.value < n && Competes(a, e, op, b.value) &&
                 forall q :: 0 <= q < n && Competes(a, e, op, q) ==> Order(a.p1[op], b.value) <= Order(a.p1[op], q)
  {
    if n > 0 { BestUptoIs(a, e, op, n - 1); }
  }

  // Scanning the ports in order finds the competitor of highest priority.
  lemma BestIsPick(a: Arb, e: Env, npc: nat, nvc: nat, op: int)
    requires ValidArb(a, npc, nvc) && 0 <= op < npc
    ensures BestUpto(a, e, op, npc) == P1Pick(a, e, op)
  {
    var l := a.p1[op];
    var b := BestUpto(a, e, op, npc);
    BestUptoIs(a, e, op, npc);
    FirstIs(l, pc => Competes(a, e, op, pc));
    if b.Some? {
      assert b.value in l;
      OrderInjective(l, b.value, P1Pick(a, e, op).value);
    }
  }

  // The requests left after the first n of gs are deleted.
  function Without(reqs: map<VC, SwReq>, gs: seq<VC>, n: nat): map<VC, SwReq>
    requires n <= |gs|
  {
    if n == 0 then reqs else Without(reqs, gs, n - 1) - {gs[n - 1]}
  }

  lemma WithoutIs(reqs: map<VC, SwReq>, gs: seq<VC>, n: nat)
    requires n <= |gs|
    ensures forall k :: k in Without(reqs, gs, n) <==> k in reqs && k !in gs[..n]
    ensures forall k :: k in Without(reqs, gs, n) ==> Without(reqs, gs, n)[k] == reqs[k]
  {
    if n > 0 {
      WithoutIs(reqs, gs, n - 1);
      assert gs[..n] == gs[..n - 1] + [gs[n - 1]];
    }
  }

  ghost predicate OutsOf(reqs: map<VC, SwReq>, gs: seq<VC>, outs: seq<VC>) {
    && |outs| == |gs|
    && (forall i {:trigger gs[i]} :: 0 <= i < |gs| ==>
          gs[i] in reqs && outs[i] == VC(reqs[gs[i]].outPc, reqs[gs[i]].outVc))
  }

  // What the V:1 stage hands on: the winner of each input port, with its request still there.
  ghost predicate Selected(a: Arb, e: Env, reqs: map<VC, SwReq>, sel: seq<Option<int>>) {
    && |sel| == |a.v1|
    && (forall pc {:trigger sel[pc]} :: 0 <= pc < |sel| ==>
          sel[pc] == V1Pick(a, e, pc) && (sel[pc].Some? ==> VC(pc, sel[pc].value) in reqs))
  }

  lemma SelectedCompetes(a: Arb, w: RouterView, reqs: map<VC, SwReq>, spec: bool, sel: seq<Option<int>>, op: int,
                         pc: int)
    requires Selected(a, RoundOf(w, reqs, spec), reqs, sel) && 0 <= pc < |sel|
    ensures Competes(a, RoundOf(w, reqs, spec), op, pc) <==>
              sel[pc].Some? && Open(w, reqs, VC(pc, sel[pc].value)) && reqs[VC(pc, sel[pc].value)].outPc == op
  {}

  // ---------- what the router may rely on ----------

  // The grants are what the stages of the router need them to be: each for a request that can be served,
  // at most one for each input and each output port.
  lemma GrantsServe(T: Topo, r: int, rs: RouterState, now: int, spec: bool, a: Arb)
    requires T.ValidRouter(r) && Control(T, r, rs.c) && ValidArb(a, T.npc[r], T.nvc)
    ensures GrantsOk(T, r, rs, now, spec, Grants(a, RoundOf(ViewOf(T, r, rs, now), rs.c.sw, spec), T.npc[r]))
  {
    var npc := T.npc[r];
    var e := RoundOf(ViewOf(T, r, rs, now), rs.c.sw, spec);
    var gs := Grants(a, e, npc);
    GrantsAre(a, e, npc, T.nvc, npc);
    GrantsMatch(a, e, npc, T.nvc);
    forall i | 0 <= i < |gs|
      ensures GrantOk(T, r, rs, gs[i]) && e.asks(gs[i]) && gs[i] in rs.c.sw && e.out(gs[i]) == rs.c.sw[gs[i]].outPc {
      assert gs[i] in gs;
      FirstIs(a.v1[gs[i].pc], v => e.asks(VC(gs[i].pc, v)));
      assert InOk(T, r, rs.c, gs[i]);
    }
  }

  // ---------- the arbiter ----------

  // A round-robin counter over n elements.
  predicate Counter(x: int, n: nat) { x == 0 || 0 < x < n }

  // The priority vectors of a row of counters.
  function Cycles(p: Policy, counters: seq<int>, n: nat): (r: seq<seq<int>>)
    ensures |r| == |counters| && forall i {:trigger r[i]} :: 0 <= i < |r| ==> r[i] == Cycle(p, counters[i], n)
  {
    seq(|counters|, (i: nat) requires i < |counters| => Cycle(p, counters[i], n))
  }

  lemma CyclesPerm(p: Policy, counters: seq<int>, n: nat)
    requires forall i {:trigger counters[i]} :: 0 <= i < |counters| ==> Counter(counters[i], n)
    ensures forall i {:trigger Cycles(p, counters, n)[i]} :: 0 <= i < |counters| ==> Perm(Cycles(p, counters, n)[i], n)
  {
    forall i | 0 <= i < |counters| ensures Perm(Cycle(p, counters[i], n), n) {
      assert Counter(counters[i], n);
      if n > 0 { CyclePerm(p, counters[i], n); }
    }
  }

  // The remainder the program takes is the element that stands there.
  lemma CycleAt(s: int, n: nat, i: nat)
    requires Counter(s, n) && i < n
    ensures (s + i) % n == Cycle(RoundRobin, s, n)[i] && 0 <= (s + i) % n < n
  {
    if s + i < n { Small(s + i, n); } else { Wrap(s + i - n, n); }
  }

  lemma Small(x: int, n: nat)
    requires 0 <= x < n
    ensures x % n == x
  {}

  lemma Wrap(x: int, n: nat)
    requires 0 <= x < n
    ensures (x + n) % n == x
  {}

  lemma SuccIs(w: int, n: nat)
    requires 0 <= w < n
    ensures (w + 1) % n == Succ(w, n) && Counter(Succ(w, n), n)
  {
    if w == n - 1 { Wrap(0, n); } else { Small(w + 1, n); }
  }

  // Comparing ports by RR_ORDER, the one found first staying on a tie, follows the priority vector.
  lemma RrCompares(s: int, n: nat, x: int, y: int)
    requires Counter(s, n) && 0 <= y < x < n
    ensures RrOrder(x, s, n) < RrOrder(y, s, n) <==>
              Order(Cycle(PortRoundRobin, s, n), x) < Order(Cycle(PortRoundRobin, s, n), y)
  {
    CycleOrder(PortRoundRobin, s, n, x);
    CycleOrder(PortRoundRobin, s, n, y);
    RrTies(y, x, s, n);
  }

  class SwArb2Stage {
    const id: nat                       // the router the arbiter belongs to
    const npc: nat
    const nvc: nat
    const v1RR: bool                    // m_v1_arb_config is SW_ALLOC_RR, not SW_ALLOC_LRS
    const p1RR: bool                    // m_p1_arb_config
    var reqs: map<VC, SwReq>            // m_swReq_vec, the entries with m_requesting set
    var numReqs: int                    // m_num_reqs
    var rrV1: seq<seq<int>>             // m_RR_sa_v1a_vec
    var rrP1: seq<seq<int>>             // m_RR_sa_p1a_vec
    var v1: seq<seq<seq<int>>>          // m_LRS_sa_v1a_vec
    var p1: seq<seq<seq<int>>>          // m_LRS_sa_p1a_vec

    function VPolicy(): Policy { if v1RR then RoundRobin else LeastRecent }

    function PPolicy(): Policy { if p1RR then PortRoundRobin else LeastRecent }

    // The priorities of regular (0) or speculative (1) arbitration.
    ghost function V1At(cpos: int): seq<seq<int>>
      requires 0 <= cpos < |v1| && cpos < |rrV1|
      reads this`v1, this`rrV1
    {
      if v1RR then Cycles(RoundRobin, rrV1[cpos], nvc) else v1[cpos]
    }

    ghost function P1At(cpos: int): seq<seq<int>>
      requires 0 <= cpos < |p1| && cpos < |rrP1|
      reads this`p1, this`rrP1
    {
      if p1RR then Cycles(PortRoundRobin, rrP1[cpos], npc) else p1[cpos]
    }

    // Two positions, for regular and for speculative arbitration.
    ghost predicate Sized()
      reads this`v1, this`rrV1, this`p1, this`rrP1
    {
      |v1| == |p1| == |rrV1| == |rrP1| == 2
    }

    ghost function At(cpos: int): Arb
      requires Sized() && 0 <= cpos < 2
      reads this`v1, this`rrV1, this`p1, this`rrP1
    {
      Arb(VPolicy(), V1At(cpos), PPolicy(), P1At(cpos))
    }

    ghost predicate Counted()
      reads this`reqs, this`numReqs
    {
      && reqs.Keys <= Grid(npc, nvc) && numReqs == |reqs|
      && (forall k {:trigger reqs[k]} :: k in reqs ==> 0 <= reqs[k].outPc < npc)
    }

    ghost predicate Counting(c: seq<int>, n: nat) {
      |c| == npc && forall i {:trigger c[i]} :: 0 <= i < npc ==> Counter(c[i], n)
    }

    ghost predicate Ordered()
      reads this`v1, this`rrV1, this`p1, this`rrP1
    {
      && Sized() && ValidArb(At(0), npc, nvc) && ValidArb(At(1), npc, nvc)
      && Counting(rrV1[0], nvc) && Counting(rrV1[1], nvc) && Counting(rrP1[0], npc) && Counting(rrP1[1], npc)
    }

    ghost predicate Valid()
      reads this
    {
      Counted() && Ordered()
    }

    constructor (id: nat, npc: nat, nvc: nat, v1RR: bool, p1RR: bool)
      ensures Valid() && this.id == id && this.npc == npc && this.nvc == nvc && reqs == map[]
      ensures this.v1RR == v1RR && this.p1RR == p1RR
      ensures At(0) == At(1) == Fairness.FirstArb(VPolicy(), PPolicy(), npc, nvc)
    {
      this.id, this.npc, this.nvc, this.v1RR, this.p1RR := id, npc, nvc, v1RR, p1RR;
      reqs, numReqs := map[], 0;
      var zeros := seq(npc, _ => 0);
      rrV1, rrP1 := [zeros, zeros], [zeros, zeros];
      var row := seq(nvc, (i: nat) => i as int);
      var col := seq(npc, (i: nat) => i as int);
      v1 := seq(2, _ => seq(npc, _ => row));
      p1 := seq(2, _ => seq(npc, _ => col));
      new;
      IdentityPerm(row, nvc);
      IdentityPerm(col, npc);
      CyclesPerm(RoundRobin, zeros, nvc);
      CyclesPerm(PortRoundRobin, zeros, npc);
      FirstCycles(RoundRobin, zeros, nvc);
      FirstCycles(PortRoundRobin, zeros, npc);
    }

    static lemma FirstCycles(p: Policy, zeros: seq<int>, n: nat)
      requires forall i :: 0 <= i < |zeros| ==> zeros[i] == 0
      ensures Cycles(p, zeros, n) == seq(|zeros|, _ => Fairness.Identity(n))
    {
      assert Cycle(p, 0, n) == Fairness.Identity(n);
    }

    // The priorities of an arbiter are always such as the fairness theorem speaks of.
    lemma AlwaysProper(cpos: int)
      requires Ordered() && 0 <= cpos < 2 && npc >= 1 && nvc >= 1
      ensures Fairness.Proper(At(cpos), npc, nvc)
    {
      forall pc | 0 <= pc < npc ensures Fairness.ProperVector(VPolicy(), At(cpos).v1[pc], nvc) {
        assert Perm(At(cpos).v1[pc], nvc) && Counter(rrV1[cpos][pc], nvc);
      }
      forall op | 0 <= op < npc ensures Fairness.ProperVector(PPolicy(), At(cpos).p1[op], npc) {
        assert Perm(At(cpos).p1[op], npc) && Counter(rrP1[cpos][op], npc);
      }
    }

    static lemma IdentityPerm(l: seq<int>, n: nat)
      requires |l| == n && forall i :: 0 <= i < n ==> l[i] == i
      ensures Perm(l, n)
    {
      forall x | 0 <= x < n ensures x in l { assert l[x] == x; }
    }

    // SwArb::getFreeInPorts
    method GetFreeInPorts() returns (free: seq<VC>)
      requires Counted()
      ensures free == FreeKeys(reqs, npc, nvc)
    {
      free := [];
      if numReqs < npc * nvc {
        for pc := 0 to npc
          invariant free == FreeKeys(reqs, pc, nvc)
        {
          for vc := 0 to nvc
            invariant free == FreeKeys(reqs, pc, nvc) + FreeRow(reqs, pc, vc)
          {
            if VC(pc, vc) !in reqs { free := free + [VC(pc, vc)]; }
          }
        }
      } else {
        FullMeansNoneFree(reqs, npc, nvc);
      }
    }

    // SwArb::add
    method Add(k: VC, outPc: int, outVc: int, now: int)
      requires Valid() && k in Grid(npc, nvc) && 0 <= outPc < npc
      requires k !in reqs
      modifies this`reqs, this`numReqs
      ensures Valid() && reqs == old(reqs)[k := SwReq(outPc, outVc, now)]
    {
      reqs := reqs[k := SwReq(outPc, outVc, now)];
      numReqs := numReqs + 1;
    }

    // SwArb::del
    method Del(k: VC)
      requires Counted()
      modifies this`reqs, this`numReqs
      ensures Counted() && reqs == old(reqs) - {k}
    {
      if k in reqs {
        ghost var was := reqs;
        reqs := reqs - {k};
        numReqs := numReqs - 1;
        assert was.Keys == reqs.Keys + {k};
        assert |was.Keys| == |reqs.Keys| + 1;
      } else {
        assert reqs == reqs - {k};
      }
    }

    // V:1 arbitration of one input port with LRS: the asking VC of highest priority, which goes to the back.
    method SelectVC(w: RouterView, spec: bool, ghost e: Env, pc: int, l: seq<int>)
      returns (vc: Option<int>, m: seq<int>)
      requires e == RoundOf(w, reqs, spec)
      ensures vc == First(l, v => e.asks(VC(pc, v)))
      ensures vc.Some? ==> VC(pc, vc.value) in reqs
      ensures m == Next(LeastRecent, l, v => e.asks(VC(pc, v)))
    {
      var i := 0;
      while i < |l| && !Asking(w, reqs, spec, VC(pc, l[i]))
        invariant 0 <= i <= |l|
        invariant forall j :: 0 <= j < i ==> !Asking(w, reqs, spec, VC(pc, l[j]))
      {
        i := i + 1;
      }
      FirstAt(l, v => e.asks(VC(pc, v)), i);
      if i < |l| {
        vc := Some(l[i]);
        m := Demote(l, l[i]);
      } else {
        vc, m := None, l;
      }
    }

    // With round robin: the next asking VC from the counter on, which the counter then steps over.
    method SelectVCByRR(w: RouterView, spec: bool, ghost e: Env, pc: int, s: int) returns (vc: Option<int>, next: int)
      requires e == RoundOf(w, reqs, spec) && Counter(s, nvc)
      ensures vc == First(Cycle(RoundRobin, s, nvc), v => e.asks(VC(pc, v)))
      ensures vc.Some? ==> VC(pc, vc.value) in reqs
      ensures Counter(next, nvc) &&
              Cycle(RoundRobin, next, nvc) == Next(RoundRobin, Cycle(RoundRobin, s, nvc), v => e.asks(VC(pc, v)))
    {
      ghost var l := Cycle(RoundRobin, s, nvc);
      next := s;
      for i := 0 to nvc
        invariant forall j :: 0 <= j < i ==> !e.asks(VC(pc, l[j]))
      {
        CycleAt(s, nvc, i);
        var test := (s + i) % nvc;
        if Asking(w, reqs, spec, VC(pc, test)) {
          FirstAt(l, v => e.asks(VC(pc, v)), i);
          SuccIs(test, nvc);
          next := (test + 1) % nvc;
          return Some(test), next;
        }
      }
      FirstAt(l, v => e.asks(VC(pc, v)), nvc);
      vc := None;
    }

    // V:1 arbitration of every input port.
    method SelectVCs(cpos: int, w: RouterView, spec: bool, ghost a: Arb, ghost e: Env) returns (sel: seq<Option<int>>)
      requires Ordered() && 0 <= cpos < 2 && a == At(cpos) && e == RoundOf(w, reqs, spec)
      modifies this`v1, this`rrV1
      ensures |v1| == |rrV1| == 2 && Counting(rrV1[0], nvc) && Counting(rrV1[1], nvc)
      ensures V1At(cpos) == Rotate(a, e).v1 && V1At(1 - cpos) == old(V1At(1 - cpos))
      ensures Selected(a, e, reqs, sel)
    {
      if v1RR { sel := SelectVCsByRR(cpos, w, spec, a, e); } else { sel := SelectVCsByLRS(cpos, w, spec, a, e); }
    }

    // The V:1 stage has chosen for the ports below |sel|.
    ghost predicate Chosen(a: Arb, e: Env, sel: seq<Option<int>>)
      reads this`reqs
    {
      && |sel| <= |a.v1|
      && forall p {:trigger sel[p]} :: 0 <= p < |sel| ==>
           sel[p] == V1Pick(a, e, p) && (sel[p].Some? ==> VC(p, sel[p].value) in reqs)
    }

    lemma OneMoreChosen(a: Arb, e: Env, sel: seq<Option<int>>, vc: Option<int>)
      requires Chosen(a, e, sel) && |sel| < |a.v1| && vc == V1Pick(a, e, |sel|)
      requires vc.Some? ==> VC(|sel|, vc.value) in reqs
      ensures Chosen(a, e, sel + [vc])
    {}

    // The counters of the ports below |counters| have stepped on.
    static ghost predicate Stepped(p: Policy, counters: seq<int>, turned: seq<seq<int>>, n: nat) {
      && |counters| <= |turned|
      && forall i {:trigger counters[i]} :: 0 <= i < |counters| ==>
           Counter(counters[i], n) && Cycle(p, counters[i], n) == turned[i]
    }

    static lemma OneMoreStepped(p: Policy, counters: seq<int>, turned: seq<seq<int>>, n: nat, next: int)
      requires Stepped(p, counters, turned, n) && |counters| < |turned|
      requires Counter(next, n) && Cycle(p, next, n) == turned[|counters|]
      ensures Stepped(p, counters + [next], turned, n)
    {}

    method SelectVCsByRR(cpos: int, w: RouterView, spec: bool, ghost a: Arb, ghost e: Env)
      returns (sel: seq<Option<int>>)
      requires v1RR && Ordered() && 0 <= cpos < 2 && a == At(cpos) && e == RoundOf(w, reqs, spec)
      modifies this`rrV1
      ensures |rrV1| == 2 && rrV1[1 - cpos] == old(rrV1)[1 - cpos] && Counting(rrV1[cpos], nvc)
      ensures Cycles(RoundRobin, rrV1[cpos], nvc) == Rotate(a, e).v1
      ensures Selected(a, e, reqs, sel)
    {
      var was, counters := rrV1[cpos], [];
      ghost var turned := Rotate(a, e).v1;
      sel := [];
      for pc := 0 to npc
        invariant rrV1 == old(rrV1) && |sel| == |counters| == pc
        invariant Chosen(a, e, sel) && Stepped(RoundRobin, counters, turned, nvc)
      {
        assert Counter(was[pc], nvc) && a.v1[pc] == Cycle(RoundRobin, was[pc], nvc);
        var vc, next := SelectVCByRR(w, spec, e, pc, was[pc]);
        OneMoreChosen(a, e, sel, vc);
        OneMoreStepped(RoundRobin, counters, turned, nvc, next);
        counters, sel := counters + [next], sel + [vc];
      }
      rrV1 := rrV1[cpos := counters];
      assert Cycles(RoundRobin, counters, nvc) == turned;
    }

    method SelectVCsByLRS(cpos: int, w: RouterView, spec: bool, ghost a: Arb, ghost e: Env)
      returns (sel: seq<Option<int>>)
      requires !v1RR && Ordered() && 0 <= cpos < 2 && a == At(cpos) && e == RoundOf(w, reqs, spec)
      modifies this`v1
      ensures v1 == old(v1)[cpos := Rotate(a, e).v1]
      ensures Selected(a, e, reqs, sel)
    {
      var was, rows := v1[cpos], [];
      ghost var turned := Rotate(a, e).v1;
      sel := [];
      for pc := 0 to npc
        invariant v1 == old(v1) && |sel| == |rows| == pc
        invariant Chosen(a, e, sel) && rows == turned[..pc]
      {
        var vc, l := SelectVC(w, spec, e, pc, was[pc]);
        OneMoreChosen(a, e, sel, vc);
        rows, sel := rows + [l], sel + [vc];
      }
      assert rows == turned;
      v1 := v1[cpos := rows];
    }

    // The test of the P:1 stage: does port x come before port y, which was found earlier?
    method Before(cpos: int, op: int, x: int, y: int) returns (b: bool)
      requires Ordered() && 0 <= cpos < 2 && 0 <= op < npc && 0 <= y < x < npc
      ensures b <==> Order(P1At(cpos)[op], x) < Order(P1At(cpos)[op], y)
    {
      if p1RR {
        assert Counter(rrP1[cpos][op], npc);
        RrCompares(rrP1[cpos][op], npc, x, y);
        assert RrOrder(x, rrP1[cpos][op], npc) >= 0 && RrOrder(y, rrP1[cpos][op], npc) >= 0;
        b := RrOrder(x, rrP1[cpos][op], npc) < RrOrder(y, rrP1[cpos][op], npc);
      } else {
        assert Perm(At(cpos).p1[op], npc);
        var test := LrsOrder(p1[cpos][op], x);
        var selected := LrsOrder(p1[cpos][op], y);
        b := test < selected;
      }
    }

    // The state of the scan of P:1 arbitration before port pc.
    ghost predicate Scanned(a: Arb, e: Env, best: seq<Option<int>>, pc: nat)
      requires |a.p1| == npc
    {
      |best| == npc && forall op {:trigger best[op]} :: 0 <= op < npc ==> best[op] == BestUpto(a, e, op, pc)
    }

    static lemma Unchallenged(a: Arb, e: Env, best: seq<Option<int>>, pc: nat, op: int)
      requires 0 <= op < |a.p1| == |best| && best[op] == BestUpto(a, e, op, pc) && !Competes(a, e, op, pc)
      ensures best[op] == BestUpto(a, e, op, pc + 1)
    {}

    // Port pc takes part in P:1 arbitration, for the output port its V:1 winner asks for.
    method ScanPort(cpos: int, w: RouterView, ghost spec: bool, ghost a: Arb, ghost e: Env, sel: seq<Option<int>>,
                    best: seq<Option<int>>, pc: nat) returns (next: seq<Option<int>>)
      requires Ordered() && Counted() && 0 <= cpos < 2 && pc < npc && |a.p1| == npc && a.p1 == P1At(cpos)
      requires e == RoundOf(w, reqs, spec) && Selected(a, e, reqs, sel) && |sel| == npc
      requires Scanned(a, e, best, pc)
      ensures Scanned(a, e, next, pc + 1)
    {
      forall op ensures Competes(a, e, op, pc) <==>
          sel[pc].Some? && Open(w, reqs, VC(pc, sel[pc].value)) && reqs[VC(pc, sel[pc].value)].outPc == op {
        SelectedCompetes(a, w, reqs, spec, sel, op, pc);
      }
      next := best;
      if sel[pc].Some? {
        var k := VC(pc, sel[pc].value);
        var op := reqs[k].outPc;
        if !w.Idle(pc) || op in w.taken {
        } else if !w.T.IsEject(w.id, op) && !HasCredit(w.T, w.cred, VC(op, w.OutVc(k))) {
        } else if best[op].Some? {
          BestUptoIs(a, e, op, pc);
          var before := Before(cpos, op, pc, best[op].value);
          if before { next := best[op := Some(pc)]; }
        } else {
          next := best[op := Some(pc)];
        }
        assert next[op] == BestUpto(a, e, op, pc + 1);
      }
      forall op | 0 <= op < npc ensures next[op] == BestUpto(a, e, op, pc + 1) {
        if !Competes(a, e, op, pc) { Unchallenged(a, e, best, pc, op); }
      }
    }

    // P:1 arbitration: for every output port the competing input port of highest priority.
    method SelectPorts(cpos: int, w: RouterView, ghost spec: bool, ghost a: Arb, sel: seq<Option<int>>)
      returns (best: seq<Option<int>>)
      requires Ordered() && Counted() && 0 <= cpos < 2 && ValidArb(a, npc, nvc) && a.p1 == P1At(cpos)
      requires Selected(a, RoundOf(w, reqs, spec), reqs, sel)
      ensures |best| == npc
      ensures forall op {:trigger best[op]} :: 0 <= op < npc ==> best[op] == P1Pick(a, RoundOf(w, reqs, spec), op)
    {
      ghost var e := RoundOf(w, reqs, spec);
      best := seq(npc, _ => None);
      for pc := 0 to npc
        invariant Scanned(a, e, best, pc)
      {
        best := ScanPort(cpos, w, spec, a, e, sel, best, pc);
      }
      forall op | 0 <= op < npc ensures best[op] == P1Pick(a, e, op) { BestIsPick(a, e, npc, nvc, op); }
    }

    // The grant of one output port.
    method AwardPort(ghost a: Arb, ghost e: Env, op: int, sel: seq<Option<int>>, best: Option<int>) returns (g: seq<VC>)
      requires 0 <= op < |a.p1| && best == P1Pick(a, e, op)
      requires |sel| == |a.v1| && forall pc {:trigger sel[pc]} :: 0 <= pc < |sel| ==> sel[pc] == V1Pick(a, e, pc)
      ensures Grants(a, e, op + 1) == Grants(a, e, op) + g
    {
      if best.Some? {
        FirstIs(a.p1[op], pc => Competes(a, e, op, pc));
        assert sel[best.value] == V1Pick(a, e, best.value);
        g := [VC(best.value, sel[best.value].value)];
      } else {
        g := [];
      }
    }

    method AwardPorts(ghost a: Arb, ghost e: Env, sel: seq<Option<int>>, best: seq<Option<int>>) returns (gs: seq<VC>)
      requires |sel| == |a.v1| && forall pc {:trigger sel[pc]} :: 0 <= pc < |sel| ==> sel[pc] == V1Pick(a, e, pc)
      requires |best| == |a.p1| == npc &&
                 forall op {:trigger best[op]} :: 0 <= op < npc ==> best[op] == P1Pick(a, e, op)
      ensures gs == Grants(a, e, npc)
    {
      gs := [];
      for op := 0 to npc
        invariant gs == Grants(a, e, op)
      {
        var g := AwardPort(a, e, op, sel, best[op]);
        gs := gs + g;
      }
    }

    // The priorities of one output port after its grant.
    method TurnLRS(ghost a: Arb, ghost e: Env, op: int, l: seq<int>, best: Option<int>) returns (m: seq<int>)
      requires 0 <= op < |a.p1| && a.p1[op] == l && best == P1Pick(a, e, op)
      ensures m == Next(LeastRecent, l, pc => Competes(a, e, op, pc))
    {
      if best.Some? {
        FirstIs(l, pc => Competes(a, e, op, pc));
        m := Demote(l, best.value);
      } else {
        m := l;
      }
    }

    method TurnRR(ghost a: Arb, ghost e: Env, op: int, s: int, best: Option<int>) returns (next: int)
      requires 0 <= op < |a.p1| && Counter(s, npc) && a.p1[op] == Cycle(PortRoundRobin, s, npc) &&
               best == P1Pick(a, e, op)
      ensures Counter(next, npc) &&
              Cycle(PortRoundRobin, next, npc) == Next(PortRoundRobin, a.p1[op], pc => Competes(a, e, op, pc))
    {
      next := s;
      if best.Some? {
        FirstIs(a.p1[op], pc => Competes(a, e, op, pc));
        CyclePerm(PortRoundRobin, s, npc);
        SuccIs(best.value, npc);
        next := (best.value + 1) % npc;
      }
    }

    // The grants in output port order, and the priorities turned for the input ports granted.
    method Award(cpos: int, ghost a: Arb, ghost e: Env, sel: seq<Option<int>>, best: seq<Option<int>>)
      returns (gs: seq<VC>)
      requires 0 <= cpos < 2 && |p1| == |rrP1| == 2 && ValidArb(a, npc, nvc) && a.p1 == P1At(cpos)
      requires a.pp == PPolicy() && Counting(rrP1[0], npc) && Counting(rrP1[1], npc)
      requires |sel| == npc && forall pc {:trigger sel[pc]} :: 0 <= pc < npc ==> sel[pc] == V1Pick(a, e, pc)
      requires |best| == npc && forall op {:trigger best[op]} :: 0 <= op < npc ==> best[op] == P1Pick(a, e, op)
      modifies this`p1, this`rrP1
      ensures |p1| == |rrP1| == 2 && Counting(rrP1[0], npc) && Counting(rrP1[1], npc)
      ensures P1At(cpos) == Rotate(a, e).p1 && P1At(1 - cpos) == old(P1At(1 - cpos))
      ensures gs == Grants(a, e, npc)
    {
      gs := AwardPorts(a, e, sel, best);
      if p1RR { TurnPortsByRR(cpos, a, e, best); } else { TurnPortsByLRS(cpos, a, e, best); }
    }

    method TurnPortsByLRS(cpos: int, ghost a: Arb, ghost e: Env, best: seq<Option<int>>)
      requires 0 <= cpos < |p1| && ValidArb(a, npc, nvc) && a.p1 == p1[cpos] && a.pp == LeastRecent
      requires |best| == npc && forall op {:trigger best[op]} :: 0 <= op < npc ==> best[op] == P1Pick(a, e, op)
      modifies this`p1
      ensures p1 == old(p1)[cpos := Rotate(a, e).p1]
    {
      var was, cols := p1[cpos], [];
      ghost var turned := Rotate(a, e).p1;
      for op := 0 to npc
        invariant p1 == old(p1) && |cols| == op
        invariant forall p {:trigger cols[p]} :: 0 <= p < op ==> cols[p] == turned[p]
      {
        var l := TurnLRS(a, e, op, was[op], best[op]);
        assert l == turned[op];
        cols := cols + [l];
      }
      assert cols == turned;
      p1 := p1[cpos := cols];
    }

    method TurnPortsByRR(cpos: int, ghost a: Arb, ghost e: Env, best: seq<Option<int>>)
      requires 0 <= cpos < |rrP1| == 2 && ValidArb(a, npc, nvc) && Counting(rrP1[cpos], npc)
      requires a.pp == PortRoundRobin && a.p1 == Cycles(PortRoundRobin, rrP1[cpos], npc)
      requires |best| == npc && forall op {:trigger best[op]} :: 0 <= op < npc ==> best[op] == P1Pick(a, e, op)
      modifies this`rrP1
      ensures |rrP1| == 2 && rrP1[1 - cpos] == old(rrP1)[1 - cpos] && Counting(rrP1[cpos], npc)
      ensures Cycles(PortRoundRobin, rrP1[cpos], npc) == Rotate(a, e).p1
    {
      var was, counters := rrP1[cpos], [];
      ghost var turned := Rotate(a, e).p1;
      for op := 0 to npc
        invariant rrP1 == old(rrP1) && |counters| == op
        invariant Stepped(PortRoundRobin, counters, turned, npc)
      {
        assert Counter(was[op], npc) && a.p1[op] == Cycle(PortRoundRobin, was[op], npc);
        var next := TurnRR(a, e, op, was[op], best[op]);
        OneMoreStepped(PortRoundRobin, counters, turned, npc, next);
        counters := counters + [next];
      }
      rrP1 := rrP1[cpos := counters];
      assert Cycles(PortRoundRobin, counters, npc) == turned;
    }

    method OutVCs(gs: seq<VC>) returns (outs: seq<VC>)
      requires forall i {:trigger gs[i]} :: 0 <= i < |gs| ==> gs[i] in reqs
      ensures OutsOf(reqs, gs, outs)
    {
      outs := [];
      for n := 0 to |gs|
        invariant |outs| == n
        invariant forall i {:trigger gs[i]} :: 0 <= i < n ==> outs[i] == VC(reqs[gs[i]].outPc, reqs[gs[i]].outVc)
      {
        outs := outs + [VC(reqs[gs[n]].outPc, reqs[gs[n]].outVc)];
      }
    }

    method DelAll(gs: seq<VC>)
      requires Counted()
      modifies this`reqs, this`numReqs
      ensures Counted() && reqs == Without(old(reqs), gs, |gs|)
    {
      for n := 0 to |gs|
        invariant Counted() && reqs == Without(old(reqs), gs, n)
      {
        Del(gs[n]);
      }
    }

    lemma BothOrdered(cpos: int, a: Arb, b: Arb)
      requires Sized() && 0 <= cpos < 2 && At(cpos) == a && At(1 - cpos) == b
      requires ValidArb(a, npc, nvc) && ValidArb(b, npc, nvc)
      requires Counting(rrV1[0], nvc) && Counting(rrV1[1], nvc) && Counting(rrP1[0], npc) && Counting(rrP1[1], npc)
      ensures Ordered()
    {}

    // Both stages.
    method Arbitrate(cpos: int, w: RouterView, spec: bool, ghost a: Arb, ghost e: Env) returns (gs: seq<VC>)
      requires Sized() && 0 <= cpos < 2 && a == At(cpos) && |a.p1| == npc && e == RoundOf(w, reqs, spec) && Valid()
      modifies this`v1, this`rrV1, this`p1, this`rrP1
      ensures Sized() && At(cpos) == Rotate(a, e) && At(1 - cpos) == old(At(1 - cpos))
      ensures gs == Grants(a, e, npc) && Ordered()
    {
      ghost var b := At(1 - cpos);
      assert ValidArb(b, npc, nvc);
      RotateValid(a, e, npc, nvc);
      var sel := SelectVCs(cpos, w, spec, a, e);
      var best := SelectPorts(cpos, w, spec, a, sel);
      gs := Award(cpos, a, e, sel, best);
      assert At(cpos) == Rotate(a, e) && At(1 - cpos) == b;
      BothOrdered(cpos, Rotate(a, e), b);
    }

    // The granted requests are deleted.
    method Finish(gs: seq<VC>, ghost cpos: int) returns (outs: seq<VC>)
      requires Sized() && Valid() && 0 <= cpos < 2 && forall i {:trigger gs[i]} :: 0 <= i < |gs| ==> gs[i] in reqs
      modifies this`reqs, this`numReqs
      ensures Valid() && OutsOf(old(reqs), gs, outs) && reqs == Without(old(reqs), gs, |gs|)
      ensures At(cpos) == old(At(cpos)) && At(1 - cpos) == old(At(1 - cpos))
    {
      outs := OutVCs(gs);
      DelAll(gs);
    }

    static lemma GrantsAsk(a: Arb, e: Env, npc: nat, nvc: nat)
      requires ValidArb(a, npc, nvc)
      ensures forall i {:trigger Grants(a, e, npc)[i]} :: 0 <= i < |Grants(a, e, npc)| ==> e.asks(Grants(a, e, npc)[i])
    {
      GrantsAre(a, e, npc, nvc, npc);
      forall i | 0 <= i < |Grants(a, e, npc)| ensures e.asks(Grants(a, e, npc)[i]) {
        assert Grants(a, e, npc)[i] in Grants(a, e, npc);
      }
    }

    static lemma NoPicks(a: Arb, e: Env, n: nat)
      requires n <= |a.p1| && forall op :: 0 <= op < n ==> P1Pick(a, e, op) == None
      ensures Grants(a, e, n) == []
    {}

    // Without requests nothing happens.
    static lemma NoRequests(a: Arb, e: Env, npc: nat, nvc: nat)
      requires ValidArb(a, npc, nvc) && forall k :: !e.asks(k)
      ensures Grants(a, e, npc) == [] && Rotate(a, e) == a
    {
      forall pc | 0 <= pc < npc ensures V1Pick(a, e, pc) == None && Rotate(a, e).v1[pc] == a.v1[pc] {
        FirstIs(a.v1[pc], v => e.asks(VC(pc, v)));
      }
      forall op | 0 <= op < npc ensures P1Pick(a, e, op) == None && Rotate(a, e).p1[op] == a.p1[op] {
        FirstIs(a.p1[op], pc => Competes(a, e, op, pc));
      }
      NoPicks(a, e, npc);
      assert Rotate(a, e).v1 == a.v1 && Rotate(a, e).p1 == a.p1;
    }

    // The position of the counters of regular and of speculative arbitration.
    static function Pos(spec: bool): (cpos: int)
      ensures 0 <= cpos < 2
    {
      if spec then 1 else 0
    }

    // One call with requests, with the counters at cpos.
    method GrantSome(cpos: int, w: RouterView, spec: bool, ghost a: Arb, ghost e: Env)
      returns (gs: seq<VC>, outs: seq<VC>)
      requires Sized() && 0 <= cpos < 2 && a == At(cpos) && |a.p1| == npc && e == RoundOf(w, reqs, spec) && Valid()
      modifies this
      ensures Sized() && At(cpos) == Rotate(a, e) && At(1 - cpos) == old(At(1 - cpos))
      ensures gs == Grants(a, e, npc) && OutsOf(old(reqs), gs, outs) && reqs == Without(old(reqs), gs, |gs|)
      ensures Valid()
    {
      gs := Arbitrate(cpos, w, spec, a, e);
      GrantsAsk(a, e, npc, nvc);
      outs := Finish(gs, cpos);
    }

    // One call with the counters at cpos.
    method GrantAt(cpos: int, w: RouterView, spec: bool, ghost a: Arb, ghost e: Env)
      returns (gs: seq<VC>, outs: seq<VC>)
      requires Sized() && 0 <= cpos < 2 && a == At(cpos) && |a.p1| == npc && e == RoundOf(w, reqs, spec) && Valid()
      modifies this
      ensures Sized() && At(cpos) == Rotate(a, e) && At(1 - cpos) == old(At(1 - cpos))
      ensures gs == Grants(a, e, npc) && OutsOf(old(reqs), gs, outs) && reqs == Without(old(reqs), gs, |gs|)
      ensures Valid()
    {
      if numReqs == 0 {
        assert reqs == map[];
        NoRequests(a, e, npc, nvc);
        gs, outs := [], [];
      } else {
        gs, outs := GrantSome(cpos, w, spec, a, e);
      }
    }

    // SwArb2Stage::grantGeneric, up to the credits the router takes for the grants. outs are the output VCs
    // of the grants.
    method GrantGeneric(spec: bool, w: RouterView) returns (gs: seq<VC>, outs: seq<VC>)
      requires Valid()
      modifies this
      ensures Valid()
      ensures gs == Grants(old(At(Pos(spec))), RoundOf(w, old(reqs), spec), npc)
      ensures OutsOf(old(reqs), gs, outs) && reqs == Without(old(reqs), gs, |gs|)
      ensures At(Pos(spec)) == Rotate(old(At(Pos(spec))), RoundOf(w, old(reqs), spec))
      ensures At(1 - Pos(spec)) == old(At(1 - Pos(spec)))
    {
      gs, outs := GrantAt(Pos(spec), w, spec, At(Pos(spec)), RoundOf(w, reqs, spec));
    }
  }
}
