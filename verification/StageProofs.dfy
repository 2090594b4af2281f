// Each stage keeps the invariant, from the clocks the previous stage left.

module StageProofs {
  import opened Wiring
  import opened Flits
  import opened Protocol
  import opened Invariant
  import opened ControlProofs
  import opened StreamProofs
  import opened CreditProofs
  import opened LinkProofs
  import opened StepProofs
  import opened Stages

  ghost predicate SameClocks(a: RouterState, b: RouterState) {
    a.lt == b.lt && a.xclk == b.xclk && a.ran == b.ran && a.c.xown == b.c.xown
  }

  // Only router r may have changed what its clocks and crossbar say.
  ghost predicate Elsewhere(s: Net, s': Net, r: int) {
    && |s'.rs| == |s.rs| && s'.now == s.now
    && (forall r' {:trigger SameClocks(s.rs[r'], s'.rs[r'])} :: 0 <= r' < |s.rs| && r' != r ==>
        SameClocks(s.rs[r'], s'.rs[r']))
  }

  // Every grant still in the crossbar is from an earlier cycle.
  ghost predicate OldGrants(rs: RouterState, now: int) {
    forall op {:trigger XClk(rs, op)} :: op in rs.c.xown ==> XClk(rs, op) < now
  }

  ghost predicate Served(T: Topo, r: int, rs: RouterState, now: int)
    requires T.ValidRouter(r)
  {
    forall op {:trigger LastLT(rs, op)} :: 0 <= op < T.npc[r] ==> LastLT(rs, op) == now
  }

  ghost predicate Idle(T: Topo, r: int, c: Ctl)
    requires T.ValidRouter(r)
  {
    forall ip {:trigger Waiting(c, ip)} :: 0 <= ip < T.npc[r] ==> Waiting(c, ip) == INVALID_VC
  }

  // ---------- incCredit ----------

  lemma {:induction false} IncAllInv(T: Topo, s: Net, r: int)
    requires Inv(T, s) && 0 <= r < |s.rs|
    ensures var s' := IncAll(T, s, r);
            Inv(T, s') && Elsewhere(s, s', r) && SameClocks(s.rs[r], s'.rs[r]) && s'.rs[r].c == s.rs[r].c
    decreases |s.rs[r].deps|
  {
    if s.rs[r].deps != [] && s.rs[r].deps[0].clk <= s.now {
      IncInv(T, s, r);
      var s1 := Upd(s, r, Inc(T, s.rs[r]));
      IncAllInv(T, s1, r);
      ElsewhereTrans(s, s1, IncAll(T, s, r), r);
    }
  }

  // ---------- stageLT ----------

  // What the first n ports of stageLT leave.
  ghost predicate LTDone(T: Topo, s: Net, s': Net, r: int, n: nat)
    requires 0 <= r < |s.rs| && T.ValidRouter(r)
  {
    && Inv(T, s') && Elsewhere(s, s', r)
    && s'.rs[r].xclk == s.rs[r].xclk && s'.rs[r].c.xown == s.rs[r].c.xown && s'.rs[r].ran == s.rs[r].ran
    && (forall op {:trigger LastLT(s'.rs[r], op)} :: 0 <= op < T.npc[r] ==>
          if op < n then LastLT(s'.rs[r], op) == s.now else LastLT(s'.rs[r], op) < s.now)
  }

  lemma LTClocks(T: Topo, s: Net, s': Net, r: int, op: int)
    requires Sized(T, s) && 0 <= r < |s.rs| && s' == LTPort(T, s, r, op)
    ensures Elsewhere(s, s', r)
    ensures s'.rs[r].xclk == s.rs[r].xclk && s'.rs[r].c.xown == s.rs[r].c.xown && s'.rs[r].ran == s.rs[r].ran
    ensures s'.rs[r].lt == s.rs[r].lt[op := s.now]
  {}

  lemma LTStep(T: Topo, s: Net, s1: Net, s': Net, r: int, n: nat)
    requires 0 <= r < |s.rs| && T.ValidRouter(r) && 0 < n <= T.npc[r] && LTDone(T, s, s1, r, n - 1)
    requires s' == LTPort(T, s1, r, n - 1)
    ensures LTDone(T, s, s', r, n)
  {
    var op := n - 1;
    assert LastLT(s1.rs[r], op) < s.now;
    LTClocks(T, s1, s', r, op);
    LTInv(T, s1, r, op);
    ElsewhereTrans(s, s1, s', r);
    forall p | 0 <= p < T.npc[r]
      ensures if p < n then LastLT(s'.rs[r], p) == s.now else LastLT(s'.rs[r], p) < s.now {
      assert LastLT(s1.rs[r], p) <= s.now;
    }
  }

  lemma {:induction false} LTUptoInv(T: Topo, s: Net, r: int, n: nat)
    requires Inv(T, s) && 0 <= r < |s.rs| && n <= T.npc[r] && LTDone(T, s, s, r, 0)
    ensures LTDone(T, s, LTUpto(T, s, r, n), r, n)
  {
    if n > 0 {
      LTUptoInv(T, s, r, n - 1);
      LTStep(T, s, LTUpto(T, s, r, n - 1), LTUpto(T, s, r, n), r, n);
    }
  }

  lemma ElsewhereTrans(a: Net, b: Net, c: Net, r: int)
    requires Elsewhere(a, b, r) && Elsewhere(b, c, r)
    ensures Elsewhere(a, c, r)
  {
    forall r' | 0 <= r' < |a.rs| && r' != r ensures SameClocks(a.rs[r'], c.rs[r']) {
      assert SameClocks(a.rs[r'], b.rs[r']) && SameClocks(b.rs[r'], c.rs[r']);
    }
  }

  // ---------- stageST ----------

  // What the first n ports of stageST leave.
  ghost predicate STDone(T: Topo, s: Net, s': Net, r: int, n: nat)
    requires 0 <= r < |s.rs| && T.ValidRouter(r)
  {
    && Inv(T, s') && Elsewhere(s, s', r) && Served(T, r, s'.rs[r], s.now) && OldGrants(s'.rs[r], s.now)
    && s'.rs[r].ran == s.rs[r].ran
    && (forall ip {:trigger Waiting(s'.rs[r].c, ip)} :: 0 <= ip < n ==> Waiting(s'.rs[r].c, ip) == INVALID_VC)
  }

  lemma STClocks(T: Topo, s: Net, r: int, ip: int)
    requires Sized(T, s) && 0 <= r < |s.rs| && Q(s.rs[r].c, VC(ip, Waiting(s.rs[r].c, ip))) != []
    ensures var s' := STPort(T, s, r, ip);
            && Elsewhere(s, s', r)
            && s'.rs[r].lt == s.rs[r].lt && s'.rs[r].xclk == s.rs[r].xclk && s'.rs[r].ran == s.rs[r].ran
            && (forall op :: op in s'.rs[r].c.xown ==> op in s.rs[r].c.xown)
            && s'.rs[r].c.waiting == s.rs[r].c.waiting[ip := INVALID_VC]
  {
    assert STPort(T, s, r, ip).rs[r].c == Traverse(s.rs[r].c, ip);
  }

  lemma STStep(T: Topo, s: Net, s1: Net, r: int, ip: nat)
    requires 0 <= r < |s.rs| && T.ValidRouter(r) && ip < T.npc[r] && STDone(T, s, s1, r, ip)
    requires Waiting(s1.rs[r].c, ip) != INVALID_VC
    ensures Q(s1.rs[r].c, VC(ip, Waiting(s1.rs[r].c, ip))) != []
    ensures STDone(T, s, STPort(T, s1, r, ip), r, ip + 1)
  {
    var o, f := CrossbarFlit(T, s1, r, ip);
    var s' := STPort(T, s1, r, ip);
    assert LastLT(s1.rs[r], o.pc) == s.now && XClk(s1.rs[r], o.pc) < s.now;
    STClocks(T, s1, r, ip);
    STInv(T, s1, r, ip, o, f);
    STKeepsClocks(T, s1, s', r);
    ElsewhereTrans(s, s1, s', r);
    forall p | 0 <= p < ip + 1 ensures Waiting(s'.rs[r].c, p) == INVALID_VC {
      assert p < ip ==> Waiting(s1.rs[r].c, p) == INVALID_VC;
    }
  }

  lemma STOne(T: Topo, s: Net, s1: Net, s2: Net, r: int, ip: nat)
    requires 0 <= r < |s.rs| && T.ValidRouter(r) && ip < T.npc[r] && STDone(T, s, s1, r, ip)
    requires var c := s1.rs[r].c;
             s2 == if Waiting(c, ip) == INVALID_VC || Q(c, VC(ip, Waiting(c, ip))) == [] then s1
                   else STPort(T, s1, r, ip)
    ensures STDone(T, s, s2, r, ip + 1)
  {
    if Waiting(s1.rs[r].c, ip) != INVALID_VC { STStep(T, s, s1, r, ip); }
  }

  lemma STUptoNext(T: Topo, s: Net, r: int, n: nat)
    requires Sized(T, s) && 0 <= r < |s.rs|
    ensures var s1 := STUpto(T, s, r, n);
            var c := s1.rs[r].c;
            STUpto(T, s, r, n + 1) ==
              if Waiting(c, n) == INVALID_VC || Q(c, VC(n, Waiting(c, n))) == [] then s1 else STPort(T, s1, r, n)
  {}

  lemma {:induction false} STRun(T: Topo, s: Net, r: int, n: nat) returns (s': Net)
    requires 0 <= r < |s.rs| && Sized(T, s) && n <= T.npc[r] && STDone(T, s, s, r, 0)
    ensures s' == STUpto(T, s, r, n) && STDone(T, s, s', r, n)
  {
    s' := s;
    var k := 0;
    while k < n
      invariant 0 <= k <= n && s' == STUpto(T, s, r, k) && STDone(T, s, s', r, k)
    {
      var s1 := s';
      STUptoNext(T, s, r, k);
      s' := STUpto(T, s, r, k + 1);
      STOne(T, s, s1, s', r, k);
      k := k + 1;
    }
  }

  lemma STUptoInv(T: Topo, s: Net, r: int, n: nat)
    requires 0 <= r < |s.rs| && Sized(T, s) && n <= T.npc[r] && STDone(T, s, s, r, 0)
    ensures STDone(T, s, STUpto(T, s, r, n), r, n)
  {
    var s' := STRun(T, s, r, n);
  }

  lemma STKeepsClocks(T: Topo, s: Net, s': Net, r: int)
    requires T.ValidRouter(r) && 0 <= r < |s.rs| && r < |s'.rs|
    requires Served(T, r, s.rs[r], s.now) && OldGrants(s.rs[r], s.now)
    requires s'.rs[r].lt == s.rs[r].lt && s'.rs[r].xclk == s.rs[r].xclk
    requires forall op :: op in s'.rs[r].c.xown ==> op in s.rs[r].c.xown
    ensures Served(T, r, s'.rs[r], s.now) && OldGrants(s'.rs[r], s.now)
  {
    forall op | 0 <= op < T.npc[r] ensures LastLT(s'.rs[r], op) == s.now { assert LastLT(s.rs[r], op) == s.now; }
    forall op | op in s'.rs[r].c.xown ensures XClk(s'.rs[r], op) < s.now { assert XClk(s.rs[r], op) < s.now; }
  }

  // ---------- stageSA: requests ----------

  lemma FreeRowValid(sw: map<VC, SwReq>, pc: int, n: nat)
    ensures forall i :: 0 <= i < |FreeRow(sw, pc, n)| ==>
              FreeRow(sw, pc, n)[i].pc == pc && 0 <= FreeRow(sw, pc, n)[i].vc < n
  {
    if n > 0 { FreeRowValid(sw, pc, n - 1); }
  }

  lemma FreeKeysValid(sw: map<VC, SwReq>, n: nat, nvc: nat)
    ensures forall i :: 0 <= i < |FreeKeys(sw, n, nvc)| ==>
              0 <= FreeKeys(sw, n, nvc)[i].pc < n && 0 <= FreeKeys(sw, n, nvc)[i].vc < nvc
  {
    if n > 0 {
      FreeKeysValid(sw, n - 1, nvc);
      FreeRowValid(sw, n - 1, nvc);
    }
  }

  // Input VC a comes before b in a scan by ports, and by VCs in each port.
  predicate Earlier(a: VC, b: VC) { a.pc < b.pc || (a.pc == b.pc && a.vc < b.vc) }

  ghost predicate InScanOrder(ks: seq<VC>) { forall i, j :: 0 <= i < j < |ks| ==> Earlier(ks[i], ks[j]) }

  lemma {:induction false} FreeRowIs(sw: map<VC, SwReq>, pc: int, n: nat)
    ensures InScanOrder(FreeRow(sw, pc, n))
    ensures forall k :: k in FreeRow(sw, pc, n) <==> k.pc == pc && 0 <= k.vc < n && k !in sw
  {
    if n > 0 { FreeRowIs(sw, pc, n - 1); }
  }

  // The scan finds exactly the input VCs without a request, each once and in order.
  lemma {:induction false} FreeKeysAre(sw: map<VC, SwReq>, n: nat, nvc: nat)
    ensures InScanOrder(FreeKeys(sw, n, nvc))
    ensures forall k :: k in FreeKeys(sw, n, nvc) <==> 0 <= k.pc < n && 0 <= k.vc < nvc && k !in sw
  {
    if n > 0 {
      FreeKeysAre(sw, n - 1, nvc);
      FreeRowIs(sw, n - 1, nvc);
    }
  }

  lemma {:induction false} AskUptoInv(T: Topo, s: Net, r: int, ks: seq<VC>, n: nat)
    requires Inv(T, s) && 0 <= r < |s.rs| && n <= |ks| && Idle(T, r, s.rs[r].c)
    requires forall i :: 0 <= i < |ks| ==> T.ValidVC(r, ks[i])
    ensures var s' := AskUpto(s, r, ks, n);
            && Inv(T, s') && Elsewhere(s, s', r) && SameClocks(s.rs[r], s'.rs[r])
            && s'.rs[r].c.waiting == s.rs[r].c.waiting
  {
    if n > 0 {
      AskUptoInv(T, s, r, ks, n - 1);
      var s1 := AskUpto(s, r, ks, n - 1);
      var k := ks[n - 1];
      if Asks(s1.rs[r].c, k) {
        assert Waiting(s.rs[r].c, k.pc) == INVALID_VC;
        RequestInv(T, s1, r, k);
        ElsewhereTrans(s, s1, AskUpto(s, r, ks, n), r);
      }
    }
  }

  lemma AskInv(T: Topo, s: Net, r: int)
    requires Inv(T, s) && 0 <= r < |s.rs| && Idle(T, r, s.rs[r].c)
    ensures var s' := Ask(T, s, r);
            Inv(T, s') && Elsewhere(s, s', r) && SameClocks(s.rs[r], s'.rs[r]) && Idle(T, r, s'.rs[r].c)
  {
    var ks := FreeKeys(s.rs[r].c.sw, T.npc[r], T.nvc);
    FreeKeysValid(s.rs[r].c.sw, T.npc[r], T.nvc);
    AskUptoInv(T, s, r, ks, |ks|);
    var s' := Ask(T, s, r);
    forall ip | 0 <= ip < T.npc[r] ensures Waiting(s'.rs[r].c, ip) == INVALID_VC {
      assert Waiting(s.rs[r].c, ip) == INVALID_VC;
    }
  }

  // ---------- stageSA, stageSSA: grants ----------

  // Granting one request leaves the others, at other ports, as grantable as they were.
  lemma TakeLeaves(T: Topo, r: int, rs: RouterState, k: VC, k': VC, now: int)
    requires GrantOk(T, r, rs, k) && GrantOk(T, r, rs, k') && Q(rs.c, k) != []
    requires k.pc != k'.pc && rs.c.sw[k].outPc != rs.c.sw[k'].outPc
    ensures GrantOk(T, r, Take(T, r, rs, k, now), k')
    ensures Take(T, r, rs, k, now).c.sw[k'] == rs.c.sw[k']
  {
    var x := Take(T, r, rs, k, now);
    var o := VC(rs.c.sw[k].outPc, rs.c.sw[k].outVc);
    var o' := VC(rs.c.sw[k'].outPc, rs.c.sw[k'].outVc);
    assert x.c == Grant(rs.c, k);
    assert Grantable(x.c, k') && x.c.sw[k'] == rs.c.sw[k'] by { GrantLeaves(rs.c, k, k'); }
    if !T.IsEject(r, o.pc) {
      SumCreditSet(T, rs.cred, o, DecCredit(T, rs.cred, o)[o], o'.pc, T.nvc);
    }
    assert HasCredit(T, x.cred, o') <==> HasCredit(T, rs.cred, o');
  }

  lemma GrantLeaves(c: Ctl, k: VC, k': VC)
    requires Grantable(c, k) && Grantable(c, k') && Q(c, k) != []
    requires k.pc != k'.pc && c.sw[k].outPc != c.sw[k'].outPc
    ensures Grantable(Grant(c, k), k') && Grant(c, k).sw[k'] == c.sw[k']
  {}

  lemma TakeClocks(T: Topo, s: Net, r: int, k: VC)
    requires 0 <= r < |s.rs| && k in s.rs[r].c.sw && Q(s.rs[r].c, k) != []
    ensures var s' := Upd(s, r, Take(T, r, s.rs[r], k, s.now));
            && Elsewhere(s, s', r) && s'.rs[r].lt == s.rs[r].lt && s'.rs[r].ran == s.rs[r].ran
            && (forall op :: op in s'.rs[r].c.xown ==>
                  XClk(s'.rs[r], op) == s.now || (op in s.rs[r].c.xown && XClk(s'.rs[r], op) == XClk(s.rs[r], op)))
            && s'.rs[r].c.q == s.rs[r].c.q
  {}

  // All grants from position n on can still be given after the first n.
  ghost predicate StillOk(T: Topo, r: int, c0: Ctl, rs: RouterState, gs: seq<VC>, n: nat) {
    forall i {:trigger gs[i]} :: n <= i < |gs| ==>
      GrantOk(T, r, rs, gs[i]) && gs[i] in c0.sw && rs.c.sw[gs[i]] == c0.sw[gs[i]]
  }

  lemma {:induction false} GrantUptoInv(T: Topo, s: Net, r: int, spec: bool, gs: seq<VC>, n: nat)
    requires Inv(T, s) && 0 <= r < |s.rs| && n <= |gs| && GrantsOk(T, r, s.rs[r], s.now, spec, gs)
    ensures var s' := GrantUpto(T, s, r, gs, n);
            && Inv(T, s') && Elsewhere(s, s', r) && s'.rs[r].lt == s.rs[r].lt && s'.rs[r].ran == s.rs[r].ran
            && (forall op :: op in s'.rs[r].c.xown ==>
                  XClk(s'.rs[r], op) == s.now || (op in s.rs[r].c.xown && XClk(s'.rs[r], op) == XClk(s.rs[r], op)))
            && StillOk(T, r, s.rs[r].c, s'.rs[r], gs, n) && s'.rs[r].c.q == s.rs[r].c.q
  {
    if n == 0 {
      forall i | 0 <= i < |gs| ensures GrantOk(T, r, s.rs[r], gs[i]) && gs[i] in s.rs[r].c.sw {}
    } else {
      GrantUptoInv(T, s, r, spec, gs, n - 1);
      var s1 := GrantUpto(T, s, r, gs, n - 1);
      var k := gs[n - 1];
      assert GrantOk(T, r, s1.rs[r], k);
      TakeInv(T, s1, r, k);
      TakeClocks(T, s1, r, k);
      var s' := GrantUpto(T, s, r, gs, n);
      assert s' == Upd(s1, r, Take(T, r, s1.rs[r], k, s.now));
      ElsewhereTrans(s, s1, s', r);
      forall i | n <= i < |gs| ensures GrantOk(T, r, s'.rs[r], gs[i]) && s'.rs[r].c.sw[gs[i]] == s.rs[r].c.sw[gs[i]] {
        assert GrantOk(T, r, s1.rs[r], gs[i]);
        TakeLeaves(T, r, s1.rs[r], k, gs[i], s.now);
      }
    }
  }

  // ---------- stageVA ----------

  lemma FirstVCIs(T: Topo, c: Ctl, admit: (int, VC, int) -> bool, k: VC, op: int, ov: nat)
    ensures var x := FirstVC(T, c, admit, k, op, ov);
            && (x.Some? ==> ov <= x.value < T.nvc && VC(op, x.value) !in c.busy && admit(x.value, k, op))
            && (forall v :: ov <= v < (if x.Some? then x.value else T.nvc) ==> VC(op, v) in c.busy || !admit(v, k, op))
    decreases T.nvc - ov
  {
    if ov < T.nvc { FirstVCIs(T, c, admit, k, op, ov + 1); }
  }

  lemma {:induction false} VAFromInv(T: Topo, s: Net, r: int, admit: (int, VC, int) -> bool, i: nat)
    requires Inv(T, s) && 0 <= r < |s.rs| && i <= |s.rs[r].c.reqQ|
    ensures var s' := VAFrom(T, s, r, admit, i);
            Inv(T, s') && Elsewhere(s, s', r) && SameClocks(s.rs[r], s'.rs[r])
    decreases |s.rs[r].c.reqQ| - i
  {
    var c := s.rs[r].c;
    if i < |c.reqQ| {
      var x := FirstVC(T, c, admit, c.reqQ[i].0, c.reqQ[i].1, 0);
      FirstVCIs(T, c, admit, c.reqQ[i].0, c.reqQ[i].1, 0);
      if x.None? {
        VAFromInv(T, s, r, admit, i + 1);
      } else {
        AllocateInv(T, s, r, i, x.value);
        var s1 := Upd(s, r, s.rs[r].(c := Allocate(c, i, x.value, s.now)));
        VAFromInv(T, s1, r, admit, i);
        ElsewhereTrans(s, s1, VAFrom(T, s, r, admit, i), r);
      }
    }
  }

  // ---------- stageRC ----------

  ghost predicate RCDone(T: Topo, s: Net, s': Net, r: int)
    requires 0 <= r < |s.rs|
  {
    Inv(T, s') && Elsewhere(s, s', r) && SameClocks(s.rs[r], s'.rs[r])
  }

  lemma RouteKeyInv(T: Topo, s: Net, s1: Net, r: int, route: VC -> Option<int>, k: VC)
    requires 0 <= r < |s.rs| && RCDone(T, s, s1, r) && RouteOk(T, r, route) && T.ValidVC(r, k)
    ensures RCDone(T, s, RouteKey(s1, r, route, k), r)
  {
    var c := s1.rs[r].c;
    if In(c, k).st.I? && Q(c, k) != [] && Q(c, k)[0].IsHead() && route(k).Some? {
      RouteInv(T, s1, r, k, route(k).value);
      ElsewhereTrans(s, s1, RouteKey(s1, r, route, k), r);
    }
  }

  lemma {:induction false} RouteRowInv(T: Topo, s: Net, s1: Net, r: int, route: VC -> Option<int>, pc: int, n: nat)
    requires 0 <= r < |s.rs| && RCDone(T, s, s1, r) && RouteOk(T, r, route) && 0 <= pc < T.npc[r] && n <= T.nvc
    ensures RCDone(T, s, RouteRow(s1, r, route, pc, n), r)
  {
    if n > 0 {
      RouteRowInv(T, s, s1, r, route, pc, n - 1);
      RouteKeyInv(T, s, RouteRow(s1, r, route, pc, n - 1), r, route, VC(pc, n - 1));
    }
  }

  lemma {:induction false} RouteUptoInv(T: Topo, s: Net, r: int, route: VC -> Option<int>, n: nat)
    requires 0 <= r < |s.rs| && RCDone(T, s, s, r) && RouteOk(T, r, route) && n <= T.npc[r]
    ensures RCDone(T, s, RouteUpto(T, s, r, route, n), r)
  {
    if n > 0 {
      RouteUptoInv(T, s, r, route, n - 1);
      RouteRowInv(T, s, RouteUpto(T, s, r, route, n - 1), r, route, n - 1, T.nvc);
    }
  }
}
