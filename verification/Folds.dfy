// What the stages of router_sim come to when little is in the router: one flit that crosses, requests that are
// all for one output port, head flits that are all routed.

module Folds {
  import opened Wiring
  import opened Flits
  import opened Protocol
  import opened Invariant
  import opened ControlProofs
  import opened StepProofs
  import opened Stages
  import opened StageProofs
  import opened Priorities
  import opened Arbiter
  import opened SwArb

  // Router r with another control state.
  function Put(s: Net, r: int, c: Ctl): (s': Net)
    requires 0 <= r < |s.rs|
    ensures |s'.rs| == |s.rs| && s'.now == s.now && s'.rs[r] == s.rs[r].(c := c)
    ensures forall z {:trigger s'.rs[z]} :: 0 <= z < |s.rs| && z != r ==> s'.rs[z] == s.rs[z]
  {
    Upd(s, r, s.rs[r].(c := c))
  }

  lemma PutPut(s: Net, r: int, c: Ctl, c': Ctl)
    requires 0 <= r < |s.rs|
    ensures Put(Put(s, r, c), r, c') == Put(s, r, c')
  {}

  lemma PutSame(s: Net, r: int)
    requires 0 <= r < |s.rs|
    ensures Put(s, r, s.rs[r].c) == s
  {}

  // Of router r the control state, the credits and the clocks may have changed, of the others nothing.
  ghost predicate Within(s: Net, s': Net, r: int) {
    && 0 <= r < |s.rs| == |s'.rs| && s'.now == s.now
    && s'.rs[r].link == s.rs[r].link && s'.rs[r].deps == s.rs[r].deps && s'.rs[r].pending == s.rs[r].pending
    && forall z {:trigger s'.rs[z]} :: 0 <= z < |s.rs| && z != r ==> s'.rs[z] == s.rs[z]
  }

  lemma WithinTrans(a: Net, b: Net, c: Net, r: int)
    requires Within(a, b, r) && Within(b, c, r)
    ensures Within(a, c, r)
  {
    forall z | 0 <= z < |a.rs| && z != r ensures c.rs[z] == a.rs[z] { assert c.rs[z] == b.rs[z] && b.rs[z] == a.rs[z]; }
  }

  // ---------- stageLT ----------

  lemma {:induction false} LTRuns(T: Topo, s: Net, r: int, n: nat)
    requires Sized(T, s) && 0 <= r < |s.rs| && forall op :: 0 <= op < n ==> !Due(T, s, r, op)
    ensures Within(s, LTUpto(T, s, r, n), r) && LTUpto(T, s, r, n).rs[r].c == s.rs[r].c
    ensures LTUpto(T, s, r, n).rs[r].cred == s.rs[r].cred && LTUpto(T, s, r, n).rs[r].ran == s.rs[r].ran
  {
    if n > 0 {
      LTRuns(T, s, r, n - 1);
      var s1 := LTUpto(T, s, r, n - 1);
      assert !Due(T, s1, r, n - 1) by { assert !Due(T, s, r, n - 1); }
    }
  }

  // ---------- steps ----------

  lemma AtLeast(n: nat, x: nat)
    requires n >= 1 && x >= 1
    ensures n * x >= 1
  {}

  ghost predicate Onward(p: nat -> bool, i: nat) { p(i) ==> p(i + 1) }

  lemma {:induction false} Climb(p: nat -> bool, n: nat)
    requires p(0) && forall i: nat {:trigger Onward(p, i)} :: i < n ==> Onward(p, i)
    ensures p(n)
  {
    if n > 0 {
      Climb(p, n - 1);
      assert Onward(p, n - 1);
    }
  }

  // ---------- stageST ----------

  // One more step of a loop leaves the state u as it is.
  ghost predicate Rests(f: nat -> Net, u: Net, n: nat) { f(n) == u ==> f(n + 1) == u }

  lemma {:induction false} Stays(f: nat -> Net, u: Net, m: nat, n: nat)
    requires m <= n && f(m) == u && forall i: nat {:trigger Rests(f, u, i)} :: m <= i < n ==> Rests(f, u, i)
    ensures f(n) == u
  {
    if m < n {
      Stays(f, u, m, n - 1);
      assert Rests(f, u, n - 1);
    }
  }

  lemma STRest(T: Topo, s: Net, r: int, u: Net, n: nat)
    requires Sized(T, s) && Sized(T, u) && 0 <= r < |s.rs| && Waiting(u.rs[r].c, n) == INVALID_VC
    ensures STUpto(T, s, r, n) == u ==> STUpto(T, s, r, n + 1) == u
  {
    STUptoNext(T, s, r, n);
  }

  // No port from m up to n waits for the crossbar.
  ghost predicate NoneWaits(u: Net, r: int, m: nat, n: nat)
    requires 0 <= r < |u.rs|
  {
    forall ip {:trigger Waiting(u.rs[r].c, ip)} :: m <= ip < n ==> Waiting(u.rs[r].c, ip) == INVALID_VC
  }

  lemma STFrom(T: Topo, s: Net, r: int, u: Net, m: nat, n: nat)
    requires Sized(T, s) && Sized(T, u) && 0 <= r < |s.rs| && m <= n && STUpto(T, s, r, m) == u && NoneWaits(u, r, m, n)
    ensures STUpto(T, s, r, n) == u
  {
    var f := (i: nat) => STUpto(T, s, r, i);
    forall i: nat | m <= i < n ensures Rests(f, u, i) {
      assert Waiting(u.rs[r].c, i) == INVALID_VC;
      STRest(T, s, r, u, i);
    }
    Stays(f, u, m, n);
  }

  lemma STNone(T: Topo, s: Net, r: int, n: nat)
    requires Sized(T, s) && 0 <= r < |s.rs| && NoneWaits(s, r, 0, n)
    ensures STUpto(T, s, r, n) == s
  {
    STFrom(T, s, r, s, 0, n);
  }

  lemma STAt(T: Topo, s: Net, r: int, ip: nat)
    requires Sized(T, s) && 0 <= r < |s.rs| && Waiting(s.rs[r].c, ip) != INVALID_VC && NoneWaits(s, r, 0, ip)
    requires Q(s.rs[r].c, VC(ip, Waiting(s.rs[r].c, ip))) != []
    ensures STUpto(T, s, r, ip + 1) == STPort(T, s, r, ip)
  {
    STNone(T, s, r, ip);
    STUptoNext(T, s, r, ip);
  }

  ghost predicate NoneWaiting(c: Ctl) { forall ip {:trigger Waiting(c, ip)} :: Waiting(c, ip) == INVALID_VC }

  // Only input port k.pc waits for the crossbar, for its VC k.vc.
  ghost predicate OneWaiting(c: Ctl, k: VC) {
    k.vc != INVALID_VC &&
      forall ip {:trigger Waiting(c, ip)} :: Waiting(c, ip) == if ip == k.pc then k.vc else INVALID_VC
  }

  lemma NoneLeft(c: Ctl, k: VC)
    requires OneWaiting(c, k) && Q(c, k) != []
    ensures Waiting(c, k.pc) == k.vc && NoneWaiting(Traverse(c, k.pc))
  {
    assert Waiting(c, k.pc) == k.vc;
    var c' := Traverse(c, k.pc);
    forall ip ensures Waiting(c', ip) == INVALID_VC { assert ip != k.pc ==> Waiting(c, ip) == INVALID_VC; }
  }

  lemma STPortAt(T: Topo, s: Net, r: int, ip: int)
    requires Sized(T, s) && 0 <= r < |s.rs| && Q(s.rs[r].c, VC(ip, Waiting(s.rs[r].c, ip))) != []
    requires T.Up(Port(r, ip)).Some? ==> T.Up(Port(r, ip)).value.router != r
    ensures STPort(T, s, r, ip).rs[r] == Cross(T, r, s.rs[r], ip, s.now)
  {}

  lemma STFirst(T: Topo, s: Net, r: int, k: VC) returns (u: Net)
    requires Sized(T, s) && 0 <= r < |s.rs| && 0 <= k.pc && OneWaiting(s.rs[r].c, k) && Q(s.rs[r].c, k) != []
    ensures Waiting(s.rs[r].c, k.pc) == k.vc && u == STPort(T, s, r, k.pc) == STUpto(T, s, r, k.pc + 1)
  {
    assert Waiting(s.rs[r].c, k.pc) == k.vc;
    STAt(T, s, r, k.pc);
    u := STPort(T, s, r, k.pc);
  }

  lemma STLast(T: Topo, s: Net, r: int, u: Net, n: nat)
    requires Sized(T, s) && Sized(T, u) && 0 <= r < |s.rs| && n <= T.npc[r] && STUpto(T, s, r, n) == u
    requires NoneWaiting(u.rs[r].c)
    ensures STUpto(T, s, r, T.npc[r]) == u
  {
    STFrom(T, s, r, u, n, T.npc[r]);
  }

  // The flit of the only port that waits crosses.
  lemma STLone(T: Topo, s: Net, r: int, k: VC) returns (u: Net)
    requires Sized(T, s) && 0 <= r < |s.rs| && 0 <= k.pc < T.npc[r] && OneWaiting(s.rs[r].c, k) && Q(s.rs[r].c, k) != []
    requires T.Up(Port(r, k.pc)).Some? ==> T.Up(Port(r, k.pc)).value.router != r
    ensures Waiting(s.rs[r].c, k.pc) == k.vc && u == STPort(T, s, r, k.pc) == STUpto(T, s, r, T.npc[r]) && Sized(T, u)
    ensures u.rs[r] == Cross(T, r, s.rs[r], k.pc, s.now) && NoneWaiting(u.rs[r].c)
  {
    NoneLeft(s.rs[r].c, k);
    u := STFirst(T, s, r, k);
    STPortAt(T, s, r, k.pc);
    STLast(T, s, r, u, k.pc + 1);
  }

  // ---------- stageSA: the requests ----------

  function AskC(c: Ctl, ks: seq<VC>, n: nat, now: int): Ctl
    requires n <= |ks|
  {
    if n == 0 then c
    else
      var c1 := AskC(c, ks, n - 1, now);
      if Asks(c1, ks[n - 1]) then Request(c1, ks[n - 1], now) else c1
  }

  lemma {:induction false} AskUptoPuts(s: Net, r: int, ks: seq<VC>, n: nat)
    requires 0 <= r < |s.rs| && n <= |ks|
    ensures AskUpto(s, r, ks, n) == Put(s, r, AskC(s.rs[r].c, ks, n, s.now))
  {
    if n == 0 { PutSame(s, r); } else { AskUptoPuts(s, r, ks, n - 1); }
  }

  // Every input VC with a flit that may ask has asked, and nothing else has changed.
  ghost predicate AskedAll(T: Topo, r: int, c: Ctl, c': Ctl) {
    && c' == c.(sw := c'.sw) && c.sw.Keys <= c'.sw.Keys
    && (forall k {:trigger k in c'.sw} :: k in c'.sw && k !in c.sw ==> Asks(c, k))
    && (forall k {:trigger k in c'.sw} :: T.ValidVC(r, k) && Asks(c, k) ==> k in c'.sw)
  }

  // What the first n input VCs have asked for.
  ghost predicate AskedUpto(c: Ctl, c': Ctl, ks: seq<VC>, n: nat)
    requires n <= |ks|
  {
    && c' == c.(sw := c'.sw) && c.sw.Keys <= c'.sw.Keys
    && (forall k {:trigger k in c'.sw} :: k in c'.sw && k !in c.sw ==> Asks(c, k))
    && (forall i {:trigger ks[i]} :: 0 <= i < n && Asks(c, ks[i]) ==> ks[i] in c'.sw)
  }

  lemma {:induction false} AskCIs(c: Ctl, ks: seq<VC>, n: nat, now: int)
    requires n <= |ks|
    ensures AskedUpto(c, AskC(c, ks, n, now), ks, n)
  {
    if n > 0 {
      AskCIs(c, ks, n - 1, now);
      var c1 := AskC(c, ks, n - 1, now);
      assert Asks(c1, ks[n - 1]) <==> Asks(c, ks[n - 1]);
    }
  }

  lemma {:induction false} FreeRowHas(sw: map<VC, SwReq>, pc: int, n: nat, vc: int)
    requires 0 <= vc < n && VC(pc, vc) !in sw
    ensures VC(pc, vc) in FreeRow(sw, pc, n)
  {
    if vc < n - 1 { FreeRowHas(sw, pc, n - 1, vc); }
  }

  lemma {:induction false} FreeKeysHas(sw: map<VC, SwReq>, n: nat, nvc: nat, k: VC)
    requires 0 <= k.pc < n && 0 <= k.vc < nvc && k !in sw
    ensures k in FreeKeys(sw, n, nvc)
  {
    if k.pc < n - 1 { FreeKeysHas(sw, n - 1, nvc, k); } else { FreeRowHas(sw, k.pc, nvc, k.vc); }
  }

  lemma AskIs(T: Topo, s: Net, r: int) returns (c': Ctl)
    requires Sized(T, s) && 0 <= r < |s.rs|
    ensures Ask(T, s, r) == Put(s, r, c') && AskedAll(T, r, s.rs[r].c, c')
  {
    var c := s.rs[r].c;
    var ks := FreeKeys(c.sw, T.npc[r], T.nvc);
    AskUptoPuts(s, r, ks, |ks|);
    AskCIs(c, ks, |ks|, s.now);
    c' := AskC(c, ks, |ks|, s.now);
    forall k | T.ValidVC(r, k) && Asks(c, k) ensures k in c'.sw {
      if k !in c.sw {
        FreeKeysHas(c.sw, T.npc[r], T.nvc, k);
        var i :| 0 <= i < |ks| && ks[i] == k;
      }
    }
  }

  lemma {:induction false} AskNone(s: Net, r: int, ks: seq<VC>, n: nat)
    requires 0 <= r < |s.rs| && n <= |ks| && forall k :: !Asks(s.rs[r].c, k)
    ensures AskUpto(s, r, ks, n) == s
  {
    if n > 0 { AskNone(s, r, ks, n - 1); }
  }

  // ---------- stageSA and stageSSA: the grants ----------

  // All requests of the router are for output port e, which is free, and so are the input ports.
  ghost predicate AllFor(T: Topo, r: int, rs: RouterState, e: int) {
    && T.ValidRouter(r) && 0 <= e < T.npc[r] && NoneWaiting(rs.c) && e !in rs.c.taken
    && (forall k {:trigger k in rs.c.sw} :: T.ValidVC(r, k) && k in rs.c.sw ==>
          && rs.c.sw[k].outPc == e && Q(rs.c, k) != []
          && (T.IsEject(r, e) || HasCredit(T, rs.cred, VC(e, In(rs.c, k).outVc))))
  }

  // Input VC k asks in the stage.
  predicate Wants(rs: RouterState, now: int, spec: bool, k: VC) {
    k in rs.c.sw && Q(rs.c, k) != [] && (spec ==> Q(rs.c, k)[0].IsHead() && rs.c.sw[k].clk == now)
  }

  lemma AtMostOne(e: Env, gs: seq<VC>, n: int, op: int)
    requires InPortOrder(e, gs, n) && forall i :: 0 <= i < |gs| ==> e.out(gs[i]) == op
    ensures |gs| <= 1
  {
    if gs != [] {
      var j := |gs| - 1;
      assert e.out(gs[0]) == e.out(gs[j]);
    }
  }

  // The arbiter grants at most one of the requests ...
  lemma GrantsAtMostOne(T: Topo, r: int, rs: RouterState, now: int, a: Arb, e: int, spec: bool) returns (gs: seq<VC>)
    requires T.ValidRouter(r) && ValidArb(a, T.npc[r], T.nvc) && AllFor(T, r, rs, e)
    ensures gs == Grants(a, RoundOf(ViewOf(T, r, rs, now), rs.c.sw, spec), T.npc[r])
    ensures |gs| <= 1 && forall k :: k in gs ==> T.ValidVC(r, k) && Wants(rs, now, spec, k)
  {
    var env := RoundOf(ViewOf(T, r, rs, now), rs.c.sw, spec);
    gs := Grants(a, env, T.npc[r]);
    GrantsAre(a, env, T.npc[r], T.nvc, T.npc[r]);
    forall k | k in gs ensures T.ValidVC(r, k) && Wants(rs, now, spec, k) && env.out(k) == e {
      FirstIs(a.v1[k.pc], v => env.asks(VC(k.pc, v)));
    }
    AtMostOne(env, gs, T.npc[r], e);
  }

  // ... and one of them, if there are any.
  lemma GrantsSome(T: Topo, r: int, rs: RouterState, now: int, a: Arb, e: int, spec: bool, k: VC)
    requires T.ValidRouter(r) && ValidArb(a, T.npc[r], T.nvc) && AllFor(T, r, rs, e) && T.ValidVC(r, k) &&
             Wants(rs, now, spec, k)
    ensures Grants(a, RoundOf(ViewOf(T, r, rs, now), rs.c.sw, spec), T.npc[r]) != []
  {
    var env := RoundOf(ViewOf(T, r, rs, now), rs.c.sw, spec);
    FirstIs(a.v1[k.pc], v => env.asks(VC(k.pc, v)));
    assert k.vc in a.v1[k.pc];
    var w := VC(k.pc, V1Pick(a, env, k.pc).value);
    assert T.ValidVC(r, w) && w in rs.c.sw && Waiting(rs.c, w.pc) == INVALID_VC;
    assert Competes(a, env, e, k.pc);
    NoIdleOutput(a, env, T.npc[r], T.nvc, e, k.pc);
  }

  lemma GrantsOne(T: Topo, r: int, rs: RouterState, now: int, a: Arb, e: int, spec: bool) returns (gs: seq<VC>)
    requires T.ValidRouter(r) && ValidArb(a, T.npc[r], T.nvc) && AllFor(T, r, rs, e)
    ensures gs == Grants(a, RoundOf(ViewOf(T, r, rs, now), rs.c.sw, spec), T.npc[r])
    ensures |gs| <= 1 && forall k :: k in gs ==> T.ValidVC(r, k) && Wants(rs, now, spec, k)
    ensures (exists k :: T.ValidVC(r, k) && Wants(rs, now, spec, k)) ==> gs != []
  {
    gs := GrantsAtMostOne(T, r, rs, now, a, e, spec);
    if k :| T.ValidVC(r, k) && Wants(rs, now, spec, k) { GrantsSome(T, r, rs, now, a, e, spec, k); }
  }

  // Nothing is granted when the only output port that is asked for is taken, or nobody asks.
  lemma GrantsNone(T: Topo, r: int, rs: RouterState, now: int, a: Arb, spec: bool)
    requires T.ValidRouter(r) && ValidArb(a, T.npc[r], T.nvc)
    requires forall k {:trigger k in rs.c.sw} :: T.ValidVC(r, k) && k in rs.c.sw ==> rs.c.sw[k].outPc in rs.c.taken
    ensures Grants(a, RoundOf(ViewOf(T, r, rs, now), rs.c.sw, spec), T.npc[r]) == []
  {
    var env := RoundOf(ViewOf(T, r, rs, now), rs.c.sw, spec);
    var gs := Grants(a, env, T.npc[r]);
    GrantsAre(a, env, T.npc[r], T.nvc, T.npc[r]);
    if gs != [] {
      var k := gs[0];
      assert k in gs;
      FirstIs(a.v1[k.pc], v => env.asks(VC(k.pc, v)));
      assert false;
    }
  }

  // One grant, or none, is taken.
  lemma TakesOne(T: Topo, s: Net, r: int, gs: seq<VC>)
    requires Sized(T, s) && 0 <= r < |s.rs| && |gs| <= 1
    requires forall k :: k in gs ==> k in s.rs[r].c.sw && Q(s.rs[r].c, k) != []
    ensures gs == [] ==> GrantUpto(T, s, r, gs, |gs|) == s
    ensures gs != [] ==> gs[0] in s.rs[r].c.sw && Q(s.rs[r].c, gs[0]) != []
    ensures gs != [] ==> GrantUpto(T, s, r, gs, |gs|) == Upd(s, r, Take(T, r, s.rs[r], gs[0], s.now))
  {
    if gs != [] {
      assert gs[0] in gs;
      assert GrantUpto(T, s, r, gs, 0) == s;
    }
  }

  // ---------- stageRC ----------

  // A head flit is in front of an input VC that is idle.
  predicate HeadWaits(c: Ctl, k: VC) { In(c, k).st.I? && Q(c, k) != [] && Q(c, k)[0].IsHead() }

  function RouteKeyC(c: Ctl, route: VC -> Option<int>, k: VC): Ctl {
    if HeadWaits(c, k) && route(k).Some? then Route(c, k, route(k).value) else c
  }

  function RouteRowC(c: Ctl, route: VC -> Option<int>, pc: int, n: nat): Ctl {
    if n == 0 then c else RouteKeyC(RouteRowC(c, route, pc, n - 1), route, VC(pc, n - 1))
  }

  function RouteC(c: Ctl, route: VC -> Option<int>, n: nat, nvc: nat): Ctl {
    if n == 0 then c else RouteRowC(RouteC(c, route, n - 1, nvc), route, n - 1, nvc)
  }

  lemma RouteKeyPuts(s: Net, r: int, route: VC -> Option<int>, k: VC)
    requires 0 <= r < |s.rs|
    ensures RouteKey(s, r, route, k) == Put(s, r, RouteKeyC(s.rs[r].c, route, k))
  {
    PutSame(s, r);
  }

  lemma {:induction false} RouteRowPuts(s: Net, r: int, route: VC -> Option<int>, pc: int, n: nat)
    requires 0 <= r < |s.rs|
    ensures RouteRow(s, r, route, pc, n) == Put(s, r, RouteRowC(s.rs[r].c, route, pc, n))
  {
    if n == 0 {
      PutSame(s, r);
    } else {
      RouteRowPuts(s, r, route, pc, n - 1);
      RouteKeyPuts(RouteRow(s, r, route, pc, n - 1), r, route, VC(pc, n - 1));
    }
  }

  lemma {:induction false} RoutePuts(T: Topo, s: Net, r: int, route: VC -> Option<int>, n: nat)
    requires Sized(T, s) && 0 <= r < |s.rs|
    ensures RouteUpto(T, s, r, route, n) == Put(s, r, RouteC(s.rs[r].c, route, n, T.nvc))
  {
    if n == 0 {
      PutSame(s, r);
    } else {
      RoutePuts(T, s, r, route, n - 1);
      RouteRowPuts(RouteUpto(T, s, r, route, n - 1), r, route, n - 1, T.nvc);
    }
  }

  // Input VC k comes before VC v of port n in the scan.
  predicate Before(n: int, v: int, nvc: int, k: VC) {
    0 <= k.pc && 0 <= k.vc < nvc && (k.pc < n || (k.pc == n && k.vc < v))
  }

  // Its input module when it has been looked at, or not.
  function ModWhen(c: Ctl, route: VC -> Option<int>, seen: bool, k: VC): InMod {
    if seen && HeadWaits(c, k) && route(k).Some? then InMod(R, route(k).value, In(c, k).outVc) else In(c, k)
  }

  // Everything but the input modules and the VC arbiter's queue is the same.
  ghost predicate SameRest(c: Ctl, c': Ctl) {
    && c'.q == c.q && c'.busy == c.busy && c'.waiting == c.waiting && c'.taken == c.taken && c'.sw == c.sw
    && c'.owner == c.owner && c'.xown == c.xown && c'.got == c.got && c'.sent == c.sent
  }

  // The head flits that are given a port have it.
  ghost predicate RoutedUpto(c: Ctl, c': Ctl, route: VC -> Option<int>, n: int, v: int, nvc: nat) {
    && SameRest(c, c')
    && forall k {:trigger In(c', k)} :: In(c', k) == ModWhen(c, route, Before(n, v, nvc, k), k)
  }

  lemma RouteKeyIs(c: Ctl, c1: Ctl, route: VC -> Option<int>, pc: nat, v: nat, nvc: nat)
    requires v < nvc && RoutedUpto(c, c1, route, pc, v, nvc)
    ensures RoutedUpto(c, RouteKeyC(c1, route, VC(pc, v)), route, pc, v + 1, nvc)
  {
    var k0 := VC(pc, v);
    var c2 := RouteKeyC(c1, route, k0);
    assert In(c1, k0) == ModWhen(c, route, Before(pc, v, nvc, k0), k0) == In(c, k0);
    forall k ensures In(c2, k) == ModWhen(c, route, Before(pc, v + 1, nvc, k), k) {
      assert In(c1, k) == ModWhen(c, route, Before(pc, v, nvc, k), k);
      RouteKeyAt(c, c1, route, k0, k);
      if k != k0 { SameBefore(pc, v, nvc, k); }
    }
  }

  lemma SameBefore(pc: int, v: int, nvc: int, k: VC)
    requires k != VC(pc, v)
    ensures Before(pc, v + 1, nvc, k) == Before(pc, v, nvc, k)
  {}

  lemma RouteKeyAt(c: Ctl, c1: Ctl, route: VC -> Option<int>, k0: VC, k: VC)
    requires c1.q == c.q && In(c1, k0) == In(c, k0)
    ensures In(RouteKeyC(c1, route, k0), k) == if k == k0 then ModWhen(c, route, true, k) else In(c1, k)
  {}

  lemma {:induction false} RouteRowIs(c: Ctl, c1: Ctl, route: VC -> Option<int>, pc: nat, v: nat, nvc: nat)
    requires v <= nvc && RoutedUpto(c, c1, route, pc, 0, nvc)
    ensures RoutedUpto(c, RouteRowC(c1, route, pc, v), route, pc, v, nvc)
  {
    if v > 0 {
      RouteRowIs(c, c1, route, pc, v - 1, nvc);
      RouteKeyIs(c, RouteRowC(c1, route, pc, v - 1), route, pc, v - 1, nvc);
    }
  }

  lemma NextRowIs(c: Ctl, c1: Ctl, route: VC -> Option<int>, pc: nat, nvc: nat)
    requires RoutedUpto(c, c1, route, pc, nvc, nvc)
    ensures RoutedUpto(c, c1, route, pc + 1, 0, nvc)
  {
    forall k ensures In(c1, k) == ModWhen(c, route, Before(pc + 1, 0, nvc, k), k) {
      assert In(c1, k) == ModWhen(c, route, Before(pc, nvc, nvc, k), k);
    }
  }

  lemma {:induction false} RouteCIs(c: Ctl, route: VC -> Option<int>, n: nat, nvc: nat)
    ensures RoutedUpto(c, RouteC(c, route, n, nvc), route, n, 0, nvc)
  {
    if n > 0 {
      RouteCIs(c, route, n - 1, nvc);
      RouteRowIs(c, RouteC(c, route, n - 1, nvc), route, n - 1, nvc, nvc);
      NextRowIs(c, RouteC(c, route, n, nvc), route, n - 1, nvc);
    }
  }

  // The requests added to the queue of c are those looked at up to VC v of port n, in the order of the scan.
  ghost predicate QueuedUpto(c: Ctl, c': Ctl, route: VC -> Option<int>, n: int, v: int, nvc: nat) {
    && |c.reqQ| <= |c'.reqQ| && c'.reqQ[..|c.reqQ|] == c.reqQ
    && (forall i {:trigger c'.reqQ[i]} :: |c.reqQ| <= i < |c'.reqQ| ==>
          Before(n, v, nvc, c'.reqQ[i].0) && route(c'.reqQ[i].0) == Some(c'.reqQ[i].1))
    && (forall i, j {:trigger c'.reqQ[i], c'.reqQ[j]} :: |c.reqQ| <= i < j < |c'.reqQ| ==>
          Earlier(c'.reqQ[i].0, c'.reqQ[j].0))
  }

  lemma {:induction false} RowQueued(c: Ctl, c1: Ctl, route: VC -> Option<int>, pc: nat, v: nat, nvc: nat)
    requires v <= nvc && QueuedUpto(c, c1, route, pc, 0, nvc)
    ensures QueuedUpto(c, RouteRowC(c1, route, pc, v), route, pc, v, nvc)
  {
    if v > 0 { RowQueued(c, c1, route, pc, v - 1, nvc); }
  }

  lemma {:induction false} AllQueued(c: Ctl, route: VC -> Option<int>, n: nat, nvc: nat)
    ensures QueuedUpto(c, RouteC(c, route, n, nvc), route, n, 0, nvc)
  {
    if n > 0 {
      AllQueued(c, route, n - 1, nvc);
      RowQueued(c, RouteC(c, route, n - 1, nvc), route, n - 1, nvc, nvc);
    }
  }

  // stageRC puts the requests of one call behind the older ones, in the order of the input ports and of their VCs.
  lemma QueuedInOrder(T: Topo, s: Net, r: int, route: VC -> Option<int>)
    requires Sized(T, s) && 0 <= r < |s.rs|
    ensures QueuedUpto(s.rs[r].c, RouteUpto(T, s, r, route, T.npc[r]).rs[r].c, route, T.npc[r], 0, T.nvc)
  {
    RoutePuts(T, s, r, route, T.npc[r]);
    AllQueued(s.rs[r].c, route, T.npc[r], T.nvc);
  }

  // The head flits that wait at router r and are given a port have it, and nothing else has changed.
  ghost predicate RoutedAll(T: Topo, r: int, c: Ctl, c': Ctl, route: VC -> Option<int>) {
    && SameRest(c, c')
    && forall k {:trigger In(c', k)} :: In(c', k) ==
         if T.ValidVC(r, k) && HeadWaits(c, k) && route(k).Some? then InMod(R, route(k).value, In(c, k).outVc)
         else In(c, k)
  }

  lemma RouteIs(T: Topo, s: Net, r: int, route: VC -> Option<int>) returns (c': Ctl)
    requires Sized(T, s) && 0 <= r < |s.rs| && |T.npc| == |T.nint|
    ensures RouteUpto(T, s, r, route, T.npc[r]) == Put(s, r, c') && RoutedAll(T, r, s.rs[r].c, c', route)
  {
    var c := s.rs[r].c;
    RoutePuts(T, s, r, route, T.npc[r]);
    RouteCIs(c, route, T.npc[r], T.nvc);
    c' := RouteC(c, route, T.npc[r], T.nvc);
    forall k
      ensures In(c', k) == if T.ValidVC(r, k) && HeadWaits(c, k) && route(k).Some?
                           then InMod(R, route(k).value, In(c, k).outVc) else In(c, k)
    {
      assert In(c', k) == ModWhen(c, route, Before(T.npc[r], 0, T.nvc, k), k);
    }
  }

  // ---------- stageVA ----------

  // The VC arbiter admits every output VC.
  function Accept(): (int, VC, int) -> bool { (_, _, _) => true }

  ghost predicate AllBusy(T: Topo, c: Ctl, e: int) {
    forall ov {:trigger VC(e, ov) in c.busy} :: 0 <= ov < T.nvc ==> VC(e, ov) in c.busy
  }

  lemma {:induction false} FindsNone(T: Topo, c: Ctl, admit: (int, VC, int) -> bool, k: VC, e: int, ov: nat)
    requires AllBusy(T, c, e)
    ensures FirstVC(T, c, admit, k, e, ov) == None
    decreases T.nvc - ov
  {
    if ov < T.nvc {
      assert VC(e, ov) in c.busy;
      FindsNone(T, c, admit, k, e, ov + 1);
    }
  }

  // Every output VC is taken and nobody gets one.
  lemma {:induction false} VARefuses(T: Topo, s: Net, r: int, admit: (int, VC, int) -> bool, e: int, i: nat)
    requires Sized(T, s) && 0 <= r < |s.rs| && i <= |s.rs[r].c.reqQ| && AllBusy(T, s.rs[r].c, e)
    requires forall j :: 0 <= j < |s.rs[r].c.reqQ| ==> s.rs[r].c.reqQ[j].1 == e
    ensures VAFrom(T, s, r, admit, i) == s
    decreases |s.rs[r].c.reqQ| - i
  {
    var c := s.rs[r].c;
    if i < |c.reqQ| {
      FindsNone(T, c, admit, c.reqQ[i].0, e, 0);
      VARefuses(T, s, r, admit, e, i + 1);
    }
  }

  // The first t output VCs of port e are taken, and no other.
  ghost predicate BusyBelow(T: Topo, c: Ctl, e: int, t: int) {
    forall ov {:trigger VC(e, ov) in c.busy} :: 0 <= ov < T.nvc ==> (VC(e, ov) in c.busy <==> ov < t)
  }

  lemma {:induction false} FindsFree(T: Topo, c: Ctl, admit: (int, VC, int) -> bool, k: VC, op: int, t: nat, i: nat)
    requires BusyBelow(T, c, op, t) && i <= t < T.nvc && forall v, k, op :: admit(v, k, op)
    ensures FirstVC(T, c, admit, k, op, i) == Some(t)
    decreases t - i
  {
    assert VC(op, i) in c.busy <==> i < t;
    if i < t { FindsFree(T, c, admit, k, op, t, i + 1); }
  }

  predicate InQueue(c: Ctl, k: VC) { exists i :: 0 <= i < |c.reqQ| && c.reqQ[i].0 == k }

  // Those in the queue have output VCs of port e, from t on, and nothing else has changed.
  ghost predicate HousedAll(c: Ctl, c': Ctl, e: int, t: int, now: int) {
    && c' == c.(inm := c'.inm, busy := c'.busy, reqQ := [], sw := c'.sw, owner := c'.owner)
    && (forall i {:trigger c.reqQ[i]} :: 0 <= i < |c.reqQ| ==>
          && In(c', c.reqQ[i].0) == InMod(V, e, t + i)
          && c.reqQ[i].0 in c'.sw && c'.sw[c.reqQ[i].0] == SwReq(e, t + i, now))
    && (forall k {:trigger In(c', k)} :: !InQueue(c, k) ==> In(c', k) == In(c, k))
    && (forall k {:trigger k in c'.sw} :: !InQueue(c, k) ==>
          (k in c'.sw <==> k in c.sw) && (k in c.sw ==> c'.sw[k] == c.sw[k]))
  }

  // Nobody asks twice, and all ask for port e.
  ghost predicate QueueFor(c: Ctl, e: int) {
    && (forall i {:trigger c.reqQ[i]} :: 0 <= i < |c.reqQ| ==> c.reqQ[i].1 == e)
    && (forall i, j {:trigger c.reqQ[i], c.reqQ[j]} :: 0 <= i < j < |c.reqQ| ==> c.reqQ[i].0 != c.reqQ[j].0)
  }

  lemma AllocateNext(T: Topo, c: Ctl, e: int, t: nat, now: int) returns (c1: Ctl)
    requires c.reqQ != [] && QueueFor(c, e) && BusyBelow(T, c, e, t)
    ensures c1 == Allocate(c, 0, t, now) && c1.reqQ == c.reqQ[1..]
    ensures QueueFor(c1, e) && BusyBelow(T, c1, e, t + 1)
  {
    c1 := Allocate(c, 0, t, now);
    assert c1.reqQ == c.reqQ[1..];
    assert c.reqQ[0].1 == e;
    forall ov | 0 <= ov < T.nvc ensures VC(e, ov) in c1.busy <==> ov < t + 1 { assert VC(e, ov) in c.busy <==> ov < t; }
  }

  // There are enough output VCs for all requests, which are all admitted.
  lemma {:induction false} VAHouses(T: Topo, s: Net, r: int, admit: (int, VC, int) -> bool, e: int, t: nat)
    returns (c': Ctl)
    requires Sized(T, s) && 0 <= r < |s.rs| && BusyBelow(T, s.rs[r].c, e, t) && |s.rs[r].c.reqQ| + t <= T.nvc
    requires QueueFor(s.rs[r].c, e) && forall v, k, op :: admit(v, k, op)
    ensures VAFrom(T, s, r, admit, 0) == Put(s, r, c') && HousedAll(s.rs[r].c, c', e, t, s.now)
    ensures BusyBelow(T, c', e, |s.rs[r].c.reqQ| + t)
    decreases |s.rs[r].c.reqQ|
  {
    var c := s.rs[r].c;
    if c.reqQ == [] {
      c' := c;
      PutSame(s, r);
    } else {
      FindsFree(T, c, admit, c.reqQ[0].0, e, t, 0);
      var c1 := AllocateNext(T, c, e, t, s.now);
      assert c.reqQ[0].1 == e;
      c' := VAHouses(T, Put(s, r, c1), r, admit, e, t + 1);
      PutPut(s, r, c1, c');
      HousedNext(c, c1, c', e, t, s.now);
    }
  }

  lemma HousedNext(c: Ctl, c1: Ctl, c': Ctl, e: int, t: int, now: int)
    requires c.reqQ != [] && QueueFor(c, e) && c1 == Allocate(c, 0, t, now) && c1.reqQ == c.reqQ[1..]
    requires HousedAll(c1, c', e, t + 1, now)
    ensures HousedAll(c, c', e, t, now)
  {
    var k0 := c.reqQ[0].0;
    QueueNext(c, c1, e);
    forall i | 0 <= i < |c.reqQ|
      ensures In(c', c.reqQ[i].0) == InMod(V, e, t + i)
      ensures c.reqQ[i].0 in c'.sw && c'.sw[c.reqQ[i].0] == SwReq(e, t + i, now)
    {
      if i == 0 {
        assert In(c', k0) == In(c1, k0) && (k0 in c'.sw <==> k0 in c1.sw);
      } else {
        assert c1.reqQ[i - 1] == c.reqQ[i];
      }
    }
    forall k | !InQueue(c, k) ensures In(c', k) == In(c, k) { assert k != k0 && In(c1, k) == In(c, k); }
  }

  lemma QueueNext(c: Ctl, c1: Ctl, e: int)
    requires c.reqQ != [] && QueueFor(c, e) && c1.reqQ == c.reqQ[1..]
    ensures forall k :: InQueue(c, k) <==> k == c.reqQ[0].0 || InQueue(c1, k)
    ensures !InQueue(c1, c.reqQ[0].0)
  {
    forall k ensures InQueue(c, k) <==> k == c.reqQ[0].0 || InQueue(c1, k) {
      if i :| 0 <= i < |c.reqQ| && c.reqQ[i].0 == k && i > 0 { assert c1.reqQ[i - 1].0 == k; }
      if i :| 0 <= i < |c1.reqQ| && c1.reqQ[i].0 == k { assert c.reqQ[i + 1].0 == k; }
    }
  }
}
