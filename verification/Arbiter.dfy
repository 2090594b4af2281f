// Two-stage switch arbitration, as a function of the priority vectors and the requests of one round.

module Arbiter {
  import opened Wiring
  import opened Priorities

  // The priority vectors of one counter position and how they change: v1[in_pc] orders the VCs of an
  // input port and p1[out_pc] orders the input ports, highest priority first.
  datatype Arb = Arb(vp: Policy, v1: seq<seq<int>>, pp: Policy, p1: seq<seq<int>>)

  // The requests of one round: which input VCs ask, the output port each asks for, and which of them
  // find their crossbar ports free and a credit.
  datatype Env = Env(asks: VC -> bool, out: VC -> int, open: VC -> bool)

  // ---------- one round of both stages ----------

  function V1Pick(a: Arb, e: Env, pc: int): Option<int>
    requires 0 <= pc < |a.v1|
  {
    First(a.v1[pc], v => e.asks(VC(pc, v)))
  }

  // Input port pc has a V:1 winner that asks for output port op and could be served.
  predicate Competes(a: Arb, e: Env, op: int, pc: int) {
    0 <= pc < |a.v1| && V1Pick(a, e, pc).Some? &&
    (var k := VC(pc, V1Pick(a, e, pc).value); e.open(k) && e.out(k) == op)
  }

  function P1Pick(a: Arb, e: Env, op: int): Option<int>
    requires 0 <= op < |a.p1|
  {
    First(a.p1[op], pc => Competes(a, e, op, pc))
  }

  // The grants for output ports below n, in port order.
  function Grants(a: Arb, e: Env, n: nat): seq<VC>
    requires n <= |a.p1|
  {
    if n == 0 then []
    else Grants(a, e, n - 1) +
         (match P1Pick(a, e, n - 1)
          case None => []
          case Some(pc) =>
            if 0 <= pc < |a.v1| && V1Pick(a, e, pc).Some? then [VC(pc, V1Pick(a, e, pc).value)] else [])
  }

  // The priorities after the round. Those of the V:1 stage turn whether or not the winner gets its output port.
  function Rotate(a: Arb, e: Env): Arb {
    Arb(a.vp, seq(|a.v1|, (pc: nat) requires pc < |a.v1| => Next(a.vp, a.v1[pc], v => e.asks(VC(pc, v)))),
        a.pp, seq(|a.p1|, (op: nat) requires op < |a.p1| => Next(a.pp, a.p1[op], pc => Competes(a, e, op, pc))))
  }

  ghost predicate ValidArb(a: Arb, npc: nat, nvc: nat) {
    && |a.v1| == npc && |a.p1| == npc
    && (forall pc {:trigger a.v1[pc]} :: 0 <= pc < npc ==> Perm(a.v1[pc], nvc))
    && (forall op {:trigger a.p1[op]} :: 0 <= op < npc ==> Perm(a.p1[op], npc))
  }

  // The priority vectors stay permutations.
  lemma RotateValid(a: Arb, e: Env, npc: nat, nvc: nat)
    requires ValidArb(a, npc, nvc)
    ensures ValidArb(Rotate(a, e), npc, nvc)
  {
    forall pc | 0 <= pc < npc ensures Perm(Rotate(a, e).v1[pc], nvc) {
      NextPerm(a.vp, a.v1[pc], v => e.asks(VC(pc, v)), nvc);
    }
    forall op | 0 <= op < npc ensures Perm(Rotate(a, e).p1[op], npc) {
      NextPerm(a.pp, a.p1[op], pc => Competes(a, e, op, pc), npc);
    }
  }

  // A grant is an asking input VC that can be served, the V:1 winner of its input port and the P:1 winner
  // of its output port.
  ghost predicate Granted(a: Arb, e: Env, k: VC) {
    && 0 <= k.pc < |a.v1| && V1Pick(a, e, k.pc) == Some(k.vc) && e.asks(k) && e.open(k)
    && 0 <= e.out(k) < |a.p1| && P1Pick(a, e, e.out(k)) == Some(k.pc)
  }

  // Output ports in order below n.
  ghost predicate InPortOrder(e: Env, gs: seq<VC>, n: int) {
    && (forall i {:trigger gs[i]} :: 0 <= i < |gs| ==> 0 <= e.out(gs[i]) < n)
    && (forall i, j {:trigger gs[i], gs[j]} :: 0 <= i < j < |gs| ==> e.out(gs[i]) < e.out(gs[j]))
  }

  // gs are the grants for output ports below n.
  ghost predicate GrantsBelow(a: Arb, e: Env, gs: seq<VC>, n: int) {
    (forall k {:trigger k in gs} :: k in gs <==> Granted(a, e, k) && e.out(k) < n) && InPortOrder(e, gs, n) && |gs| <= n
  }

  lemma OneMoreGrant(a: Arb, e: Env, gs: seq<VC>, g: seq<VC>, n: nat)
    requires GrantsBelow(a, e, gs, n) && |g| <= 1 && forall k :: k in g <==> Granted(a, e, k) && e.out(k) == n
    ensures GrantsBelow(a, e, gs + g, n + 1)
  {
    if g != [] { assert g[0] in g; }
  }

  lemma GrantsAre(a: Arb, e: Env, npc: nat, nvc: nat, n: nat)
    requires ValidArb(a, npc, nvc) && n <= npc
    ensures GrantsBelow(a, e, Grants(a, e, n), n)
  {
    var gs: seq<VC>, i := [], 0;
    while i < n
      invariant 0 <= i <= n && gs == Grants(a, e, i) && GrantsBelow(a, e, gs, i)
    {
      var g := GrantFor(a, e, npc, nvc, i);
      OneMoreGrant(a, e, gs, g, i);
      gs, i := gs + g, i + 1;
    }
  }

  // The grant of one output port.
  lemma GrantFor(a: Arb, e: Env, npc: nat, nvc: nat, op: nat) returns (g: seq<VC>)
    requires ValidArb(a, npc, nvc) && op < npc
    ensures Grants(a, e, op + 1) == Grants(a, e, op) + g
    ensures |g| <= 1 && forall k :: k in g <==> Granted(a, e, k) && e.out(k) == op
  {
    FirstIs(a.p1[op], pc => Competes(a, e, op, pc));
    match P1Pick(a, e, op)
    case None => g := [];
    case Some(pc) =>
      FirstIs(a.v1[pc], v => e.asks(VC(pc, v)));
      g := [VC(pc, V1Pick(a, e, pc).value)];
  }

  // The grants match input ports to output ports one to one.
  lemma GrantsMatch(a: Arb, e: Env, npc: nat, nvc: nat)
    requires ValidArb(a, npc, nvc)
    ensures var g := Grants(a, e, npc);
            forall i, j :: 0 <= i < j < |g| ==> g[i].pc != g[j].pc && e.out(g[i]) != e.out(g[j])
  {
    GrantsAre(a, e, npc, nvc, npc);
    var g := Grants(a, e, npc);
    forall i, j | 0 <= i < j < |g| ensures g[i].pc != g[j].pc && e.out(g[i]) != e.out(g[j]) {
      assert g[i] in g && g[j] in g;
    }
  }

  // No output port for which someone competes stays idle.
  lemma NoIdleOutput(a: Arb, e: Env, npc: nat, nvc: nat, op: int, pc: int)
    requires ValidArb(a, npc, nvc) && 0 <= op < npc && Competes(a, e, op, pc)
    ensures exists k :: k in Grants(a, e, npc) && e.out(k) == op
  {
    GrantsAre(a, e, npc, nvc, npc);
    FirstIs(a.p1[op], pc => Competes(a, e, op, pc));
    assert pc in a.p1[op];
    var pc' := P1Pick(a, e, op).value;
    FirstIs(a.v1[pc'], v => e.asks(VC(pc', v)));
    var k := VC(pc', V1Pick(a, e, pc').value);
    assert Granted(a, e, k);
  }

  // ---------- any number of rounds ----------

  // The priorities after the first n rounds.
  function Rounds(a: Arb, es: nat -> Env, n: nat): (b: Arb)
    ensures |b.v1| == |a.v1| && |b.p1| == |a.p1|
  {
    if n == 0 then a else Rotate(Rounds(a, es, n - 1), es(n - 1))
  }

  // Input VC k is granted in one of the rounds.
  predicate EverGranted(a: Arb, rounds: seq<Env>, k: VC, npc: nat)
    requires |a.p1| == npc
    decreases |rounds|
  {
    rounds != [] && (k in Grants(a, rounds[0], npc) || EverGranted(Rotate(a, rounds[0]), rounds[1..], k, npc))
  }
}
