// Every action conserves the credits of every output VC.

module CreditProofs {
  import opened Wiring
  import opened Flits
  import opened Protocol
  import opened Invariant
  import opened ControlProofs
  import opened StreamProofs

  // ---------- sums ----------

  lemma DepSumAppend(d: seq<Credit>, e: Credit, o: VC)
    ensures DepSum(d + [e], o) == DepSum(d, o) + (if e.outPc == o.pc && e.outVc == o.vc then e.num else 0)
  {
    if d == [] {
      assert d + [e] == [e];
    } else {
      assert (d + [e])[1..] == d[1..] + [e];
      DepSumAppend(d[1..], e, o);
    }
  }

  lemma SumCreditSet(T: Topo, cred: map<VC, Cred>, o: VC, m: Cred, op: int, n: nat)
    ensures SumCredit(T, cred[o := m], op, n) ==
              SumCredit(T, cred, op, n) + (if o.pc == op && 0 <= o.vc < n then m.num - Cr(T, cred, o).num else 0)
  {
    if n > 0 { SumCreditSet(T, cred, o, m, op, n - 1); }
  }

  // ---------- the balance of one router ----------

  lemma IncBalance(T: Topo, rs: RouterState, o: VC)
    requires rs.deps != []
    ensures Balance(T, Inc(T, rs), o) == Balance(T, rs, o)
  {}

  lemma DepositBalance(T: Topo, rs: RouterState, d: Credit, o: VC)
    ensures Balance(T, Deposit(rs, d), o) ==
              Balance(T, rs, o) + (if d.outPc == o.pc && d.outVc == o.vc then d.num else 0)
  {
    DepSumAppend(rs.deps, d, o);
  }

  lemma UnloadBalance(T: Topo, rs: RouterState, op: int, o: VC)
    requires Link(rs.link, op) != []
    ensures Balance(T, Unload(rs, op), o) ==
              Balance(T, rs, o) - (if op == o.pc && Link(rs.link, op)[0].vc == o.vc then 1 else 0)
  {}

  // The flit moves from the crossbar to the wire.
  lemma CrossBalance(T: Topo, r: int, rs: RouterState, ip: int, now: int, o: VC)
    requires Waiting(rs.c, ip) != INVALID_VC && Q(rs.c, VC(ip, Waiting(rs.c, ip))) != []
    requires WaitOk(T, r, rs.c, ip) && InOk(T, r, rs.c, VC(ip, Waiting(rs.c, ip))) && XOk(T, r, rs.c, o.pc)
    requires !T.IsEject(r, o.pc)
    ensures Balance(T, Cross(T, r, rs, ip, now), o) == Balance(T, rs, o)
  {
    var k := VC(ip, Waiting(rs.c, ip));
    var m := In(rs.c, k);
    OnLinkAppend(Link(rs.link, m.outPc), Wire(Q(rs.c, k)[0], m.outVc, now), o.vc);
    CrossXbar(T, r, rs.c, ip, o);
  }

  lemma CrossXbar(T: Topo, r: int, c: Ctl, ip: int, o: VC)
    requires Waiting(c, ip) != INVALID_VC && Q(c, VC(ip, Waiting(c, ip))) != []
    requires WaitOk(T, r, c, ip) && InOk(T, r, c, VC(ip, Waiting(c, ip))) && XOk(T, r, c, o.pc)
    ensures var m := In(c, VC(ip, Waiting(c, ip)));
            InXbar(Traverse(c, ip), o) == InXbar(c, o) - (if o == VC(m.outPc, m.outVc) then 1 else 0)
  {}

  // The credit goes to the flit in the crossbar.
  lemma TakeBalance(T: Topo, r: int, rs: RouterState, k: VC, now: int, o: VC)
    requires Grantable(rs.c, k) && T.ValidVC(r, k) && InOk(T, r, rs.c, k) && XOk(T, r, rs.c, o.pc)
    requires !T.IsEject(r, o.pc)
    ensures Balance(T, Take(T, r, rs, k, now), o) == Balance(T, rs, o)
  {
    GrantXbar(T, r, rs.c, k, o);
  }

  lemma GrantXbar(T: Topo, r: int, c: Ctl, k: VC, o: VC)
    requires Grantable(c, k) && T.ValidVC(r, k) && InOk(T, r, c, k) && XOk(T, r, c, o.pc)
    ensures InXbar(Grant(c, k), o) == InXbar(c, o) + (if o == VC(c.sw[k].outPc, c.sw[k].outVc) then 1 else 0)
  {}

  lemma AllocateXbar(T: Topo, r: int, c: Ctl, i: nat, ov: int, now: int, o: VC)
    requires Allocatable(T, c, i, ov) && ReqOk(T, r, c) && XOk(T, r, c, o.pc)
    ensures InXbar(Allocate(c, i, ov, now), o) == InXbar(c, o)
  {}

  lemma RouteXbar(T: Topo, r: int, c: Ctl, k: VC, op: int, o: VC)
    requires In(c, k).st.I? && XOk(T, r, c, o.pc)
    ensures InXbar(Route(c, k, op), o) == InXbar(c, o)
  {}

  // ---------- the counters stay in range ----------

  ghost predicate CredOk(T: Topo, m: Cred) {
    0 <= m.rsv <= T.rsv && (!T.damq ==> m.num >= 0 && m.rsv == T.rsv)
  }

  lemma AddCreditOk(T: Topo, cred: map<VC, Cred>, d: VC, num: nat, o: VC)
    requires CredOk(T, Cr(T, cred, o)) && CredOk(T, Cr(T, cred, d))
    ensures CredOk(T, Cr(T, AddCredit(T, cred, d, num), o))
    ensures T.damq ==> SumCredit(T, AddCredit(T, cred, d, num), o.pc, T.nvc) >= SumCredit(T, cred, o.pc, T.nvc)
  {
    SumCreditSet(T, cred, d, AddCredit(T, cred, d, num)[d], o.pc, T.nvc);
  }

  // hasCredit makes the next decCredit safe.
  lemma DecCreditOk(T: Topo, cred: map<VC, Cred>, d: VC, o: VC)
    requires CredOk(T, Cr(T, cred, o)) && CredOk(T, Cr(T, cred, d)) && HasCredit(T, cred, d) && 0 <= d.vc < T.nvc
    ensures CredOk(T, Cr(T, DecCredit(T, cred, d), o))
    ensures T.damq && SumCredit(T, cred, o.pc, T.nvc) >= 0 ==> SumCredit(T, DecCredit(T, cred, d), o.pc, T.nvc) >= 0
  {
    SumCreditSet(T, cred, d, DecCredit(T, cred, d)[d], o.pc, T.nvc);
  }

  // The credits a port has, shared ones and reserves, of its first n VCs.
  function SumReserve(T: Topo, cred: map<VC, Cred>, op: int, n: nat): int {
    if n == 0 then 0 else SumReserve(T, cred, op, n - 1) + Cr(T, cred, VC(op, n - 1)).rsv
  }

  lemma SumReserveSet(T: Topo, cred: map<VC, Cred>, o: VC, m: Cred, op: int, n: nat)
    ensures SumReserve(T, cred[o := m], op, n) ==
              SumReserve(T, cred, op, n) + (if o.pc == op && 0 <= o.vc < n then m.rsv - Cr(T, cred, o).rsv else 0)
  {
    if n > 0 { SumReserveSet(T, cred, o, m, op, n - 1); }
  }

  // Under sharing a credit comes from the shared ones while there are any, and only then from the VC's own reserve; no
  // other VC's credits change.
  lemma SharedFirst(T: Topo, cred: map<VC, Cred>, o: VC, p: VC)
    requires T.damq && HasCredit(T, cred, o) && 0 <= o.vc < T.nvc && SumCredit(T, cred, o.pc, T.nvc) >= 0
    ensures var cred' := DecCredit(T, cred, o);
            && SumCredit(T, cred', o.pc, T.nvc) + SumReserve(T, cred', o.pc, T.nvc) ==
                 SumCredit(T, cred, o.pc, T.nvc) + SumReserve(T, cred, o.pc, T.nvc) - 1
            && (Cr(T, cred', o).rsv < Cr(T, cred, o).rsv <==> SumCredit(T, cred, o.pc, T.nvc) == 0)
            && Cr(T, cred', o).rsv <= Cr(T, cred, o).rsv && (p != o ==> Cr(T, cred', p) == Cr(T, cred, p))
  {
    SumCreditSet(T, cred, o, DecCredit(T, cred, o)[o], o.pc, T.nvc);
    SumReserveSet(T, cred, o, DecCredit(T, cred, o)[o], o.pc, T.nvc);
  }

  // Credits that come back fill the VC's own reserve, and only what is over joins the shared ones.
  lemma ReserveFirst(T: Topo, cred: map<VC, Cred>, o: VC, num: nat, p: VC)
    requires T.damq && 0 <= o.vc < T.nvc && Cr(T, cred, o).rsv <= T.rsv
    ensures var cred' := AddCredit(T, cred, o, num);
            && SumCredit(T, cred', o.pc, T.nvc) + SumReserve(T, cred', o.pc, T.nvc) ==
                 SumCredit(T, cred, o.pc, T.nvc) + SumReserve(T, cred, o.pc, T.nvc) + num
            && (SumCredit(T, cred', o.pc, T.nvc) > SumCredit(T, cred, o.pc, T.nvc) ==> Cr(T, cred', o).rsv == T.rsv)
            && SumCredit(T, cred', o.pc, T.nvc) >= SumCredit(T, cred, o.pc, T.nvc)
            && Cr(T, cred, o).rsv <= Cr(T, cred', o).rsv <= T.rsv && (p != o ==> Cr(T, cred', p) == Cr(T, cred, p))
  {
    SumCreditSet(T, cred, o, AddCredit(T, cred, o, num)[o], o.pc, T.nvc);
    SumReserveSet(T, cred, o, AddCredit(T, cred, o, num)[o], o.pc, T.nvc);
  }

  // ---------- the network ----------

  // x may take the place of rs: it accounts for the same credits and its buffers hold as many flits.
  ghost predicate SameCredits(T: Topo, r: int, rs: RouterState, x: RouterState) {
    && (forall o {:trigger Balance(T, x, o)} :: T.ValidVC(r, o) && T.Down(Port(r, o.pc)).Some? ==>
          Balance(T, x, o) == Balance(T, rs, o) && CredOk(T, Cr(T, x.cred, o)))
    && (forall op {:trigger SharedOk(T, r, x, op)} :: SharedOk(T, r, x, op))
    && DepsOk(T, r, x)
    && x.c.q == rs.c.q
  }

  lemma CreditsFrame(T: Topo, s: Net, r: int, x: RouterState)
    requires Sized(T, s) && Credits(T, s) && 0 <= r < |s.rs| && SameCredits(T, r, s.rs[r], x)
    ensures Credits(T, Upd(s, r, x))
  {
    var s' := Upd(s, r, x);
    forall r', o | 0 <= r' < |s.rs| && T.ValidVC(r', o) ensures CreditOk(T, s', r', o) {
      assert CreditOk(T, s, r', o);
    }
    forall r', op | 0 <= r' < |s.rs| ensures SharedOk(T, r', s'.rs[r'], op) { assert SharedOk(T, r', s.rs[r'], op); }
    forall r' | 0 <= r' < |s.rs| ensures DepsOk(T, r', s'.rs[r']) { assert DepsOk(T, r', s.rs[r']); }
  }

  lemma IncCredits(T: Topo, s: Net, r: int)
    requires Sized(T, s) && Credits(T, s) && 0 <= r < |s.rs| && s.rs[r].deps != []
    requires T.Valid()
    ensures Credits(T, Upd(s, r, Inc(T, s.rs[r])))
  {
    var rs := s.rs[r];
    var x := Inc(T, rs);
    var d := VC(rs.deps[0].outPc, rs.deps[0].outVc);
    assert DepsOk(T, r, rs);
    T.WiredAt(Port(r, d.pc), T.Down(Port(r, d.pc)).value);
    assert CreditOk(T, s, r, d);
    forall o | T.ValidVC(r, o) && T.Down(Port(r, o.pc)).Some?
      ensures Balance(T, x, o) == Balance(T, rs, o) && CredOk(T, Cr(T, x.cred, o)) {
      assert CreditOk(T, s, r, o);
      IncBalance(T, rs, o);
      AddCreditOk(T, rs.cred, d, rs.deps[0].num, o);
    }
    forall op ensures SharedOk(T, r, x, op) {
      assert SharedOk(T, r, rs, op);
      if op == d.pc {
        AddCreditOk(T, rs.cred, d, rs.deps[0].num, d);
      } else {
        SumCreditSet(T, rs.cred, d, x.cred[d], op, T.nvc);
      }
    }
    CreditsFrame(T, s, r, x);
  }

  lemma TakeCredits(T: Topo, s: Net, r: int, k: VC)
    requires T.Valid() && Sized(T, s) && Credits(T, s) && Controls(T, s) && 0 <= r < |s.rs|
    requires Grantable(s.rs[r].c, k) && T.ValidVC(r, k) && Q(s.rs[r].c, k) != []
    requires var q := s.rs[r].c.sw[k]; T.IsEject(r, q.outPc) || HasCredit(T, s.rs[r].cred, VC(q.outPc, q.outVc))
    ensures Credits(T, Upd(s, r, Take(T, r, s.rs[r], k, s.now)))
  {
    var rs := s.rs[r];
    var x := Take(T, r, rs, k, s.now);
    var d := VC(rs.c.sw[k].outPc, rs.c.sw[k].outVc);
    assert Control(T, r, rs.c) && DepsOk(T, r, rs);
    assert InOk(T, r, rs.c, k);
    forall o | T.ValidVC(r, o) && T.Down(Port(r, o.pc)).Some?
      ensures Balance(T, x, o) == Balance(T, rs, o) && CredOk(T, Cr(T, x.cred, o)) {
      assert CreditOk(T, s, r, o) && CreditOk(T, s, r, d) && XOk(T, r, rs.c, o.pc);
      T.WiredAt(Port(r, o.pc), T.Down(Port(r, o.pc)).value);
      TakeBalance(T, r, rs, k, s.now, o);
      if !T.IsEject(r, d.pc) { DecCreditOk(T, rs.cred, d, o); }
    }
    forall op ensures SharedOk(T, r, x, op) {
      assert SharedOk(T, r, rs, op) && CreditOk(T, s, r, d);
      if !T.IsEject(r, d.pc) {
        if op == d.pc { DecCreditOk(T, rs.cred, d, d); } else { SumCreditSet(T, rs.cred, d, x.cred[d], op, T.nvc); }
      }
    }
    CreditsFrame(T, s, r, x);
  }

  lemma MoveCredits(T: Topo, s: Net, r: int, op: int)
    requires T.Valid() && Sized(T, s) && Credits(T, s) && 0 <= r < |s.rs|
    requires Link(s.rs[r].link, op) != [] && T.Down(Port(r, op)).Some?
    ensures Credits(T, Move(T, s, r, op))
  {
    var s' := Move(T, s, r, op);
    var p := T.Down(Port(r, op)).value;
    forall r', o | 0 <= r' < |s.rs| && T.ValidVC(r', o) ensures CreditOk(T, s', r', o) {
      assert CreditOk(T, s, r', o);
      MoveBalance(T, s, r, op, r', o);
      T.WiredAt(Port(r', o.pc), p);
      T.WiredAt(Port(r, op), p);
      if T.Down(Port(r', o.pc)).Some? {
        MoveQ(T, s, r, op, T.Down(Port(r', o.pc)).value.router, VC(T.Down(Port(r', o.pc)).value.pc, o.vc));
      }
    }
    forall r', op | 0 <= r' < |s.rs| ensures SharedOk(T, r', s'.rs[r'], op) { assert SharedOk(T, r', s.rs[r'], op); }
    forall r' | 0 <= r' < |s.rs| ensures DepsOk(T, r', s'.rs[r']) { assert DepsOk(T, r', s.rs[r']); }
  }

  lemma MoveBalance(T: Topo, s: Net, r: int, op: int, r': int, o: VC)
    requires Sized(T, s) && 0 <= r < |s.rs| && 0 <= r' < |s.rs|
    requires Link(s.rs[r].link, op) != [] && T.Down(Port(r, op)).Some?
    ensures Balance(T, Move(T, s, r, op).rs[r'], o) ==
              Balance(T, s.rs[r'], o) - (if r' == r && op == o.pc && Link(s.rs[r].link, op)[0].vc == o.vc then 1 else 0)
    ensures Move(T, s, r, op).rs[r'].cred == s.rs[r'].cred
  {
    UnloadBalance(T, s.rs[r], op, o);
  }

  lemma MoveQ(T: Topo, s: Net, r: int, op: int, r': int, k: VC)
    requires Sized(T, s) && 0 <= r < |s.rs| && 0 <= r' < |s.rs|
    requires Link(s.rs[r].link, op) != [] && T.Down(Port(r, op)).Some?
    ensures var p := T.Down(Port(r, op)).value;
            |Q(Move(T, s, r, op).rs[r'].c, k)| ==
              |Q(s.rs[r'].c, k)| + (if r' == p.router && k == VC(p.pc, Link(s.rs[r].link, op)[0].vc) then 1 else 0)
  {}

  lemma STCredits(T: Topo, s: Net, r: int, ip: int, o: VC, f: Flit)
    requires T.Valid() && Sized(T, s) && Credits(T, s) && Controls(T, s) && 0 <= r < |s.rs| && 0 <= ip < T.npc[r]
    requires Waiting(s.rs[r].c, ip) != INVALID_VC && Leaves(s.rs[r].c, ip, o, f)
    ensures Credits(T, STPort(T, s, r, ip))
  {
    var s' := STPort(T, s, r, ip);
    var k := VC(ip, Waiting(s.rs[r].c, ip));
    assert Control(T, r, s.rs[r].c);
    assert WaitOk(T, r, s.rs[r].c, ip) && InOk(T, r, s.rs[r].c, k);
    forall r', o' | 0 <= r' < |s.rs| && T.ValidVC(r', o') ensures CreditOk(T, s', r', o') {
      assert CreditOk(T, s, r', o');
      assert r' == r ==> XOk(T, r, s.rs[r].c, o'.pc);
      T.WiredAt(Port(r', o'.pc), Port(r, ip));
      if T.Down(Port(r', o'.pc)).Some? {
        var d := T.Down(Port(r', o'.pc)).value;
        T.WiredAt(Port(r', o'.pc), d);
        STBalance(T, s, r, ip, o, f, r', o');
        STQ(T, s, r, ip, d.router, VC(d.pc, o'.vc));
      }
    }
    STRest(T, s, r, ip);
  }

  lemma SharedSame(T: Topo, r: int, a: RouterState, b: RouterState, op: int)
    requires SharedOk(T, r, a, op) && a.cred == b.cred
    ensures SharedOk(T, r, b, op)
  {}

  lemma DepsSame(T: Topo, r: int, a: RouterState, b: RouterState)
    requires DepsOk(T, r, a) && a.deps == b.deps
    ensures DepsOk(T, r, b)
  {}

  lemma DepsMore(T: Topo, r: int, a: RouterState, b: RouterState, d: Credit)
    requires DepsOk(T, r, a) && b.deps == a.deps + [d] && T.Down(Port(r, d.outPc)).Some? && 0 <= d.outVc < T.nvc
    ensures DepsOk(T, r, b)
  {}

  // What stageST leaves alone: the usable credits, and the deposited ones but for the one it gives back.
  lemma STFields(T: Topo, s: Net, r: int, ip: int, r': int)
    requires Sized(T, s) && 0 <= r < |s.rs| && 0 <= r' < |s.rs|
    requires Q(s.rs[r].c, VC(ip, Waiting(s.rs[r].c, ip))) != []
    ensures var x := STPort(T, s, r, ip).rs[r'];
            var up := T.Up(Port(r, ip));
            && x.cred == s.rs[r'].cred
            && x.deps == (if up.Some? && up.value.router == r'
                          then s.rs[r'].deps + [Credit(up.value.pc, Waiting(s.rs[r].c, ip), 1, s.now + T.Lat(up.value))]
                          else s.rs[r'].deps)
  {
    CrossFields(T, r, s.rs[r], ip, s.now);
    GiveBackFields(T, Upd(s, r, Cross(T, r, s.rs[r], ip, s.now)), VC(ip, Waiting(s.rs[r].c, ip)), T.Up(Port(r, ip)),
                   r');
  }

  lemma CrossFields(T: Topo, r: int, rs: RouterState, ip: int, now: int)
    requires Q(rs.c, VC(ip, Waiting(rs.c, ip))) != []
    ensures Cross(T, r, rs, ip, now).cred == rs.cred && Cross(T, r, rs, ip, now).deps == rs.deps
  {}

  lemma GiveBackFields(T: Topo, s: Net, k: VC, up: Option<Port>, r': int)
    requires up.Some? ==> 0 <= up.value.router < |s.rs|
    requires 0 <= r' < |s.rs|
    ensures var x := GiveBack(T, s, k, up).rs[r'];
            && x.cred == s.rs[r'].cred
            && x.deps == (if up.Some? && up.value.router == r'
                          then s.rs[r'].deps + [Credit(up.value.pc, k.vc, 1, s.now + T.Lat(up.value))]
                          else s.rs[r'].deps)
  {}

  lemma STRest(T: Topo, s: Net, r: int, ip: int)
    requires T.Valid() && Sized(T, s) && Credits(T, s) && 0 <= r < |s.rs|
    requires Q(s.rs[r].c, VC(ip, Waiting(s.rs[r].c, ip))) != [] && T.ValidVC(r, VC(ip, Waiting(s.rs[r].c, ip)))
    ensures var s' := STPort(T, s, r, ip);
            && (forall r', op | 0 <= r' < |s.rs| :: SharedOk(T, r', s'.rs[r'], op))
            && (forall r' | 0 <= r' < |s.rs| :: DepsOk(T, r', s'.rs[r']))
  {
    var s' := STPort(T, s, r, ip);
    var up := T.Up(Port(r, ip));
    if up.Some? { T.WiredAt(up.value, Port(r, ip)); }
    forall r', op | 0 <= r' < |s.rs| ensures SharedOk(T, r', s'.rs[r'], op) {
      assert SharedOk(T, r', s.rs[r'], op);
      STFields(T, s, r, ip, r');
      SharedSame(T, r', s.rs[r'], s'.rs[r'], op);
    }
    forall r' | 0 <= r' < |s.rs| ensures DepsOk(T, r', s'.rs[r']) {
      assert DepsOk(T, r', s.rs[r']);
      STFields(T, s, r, ip, r');
      if up.Some? && up.value.router == r' {
        DepsMore(T, r', s.rs[r'], s'.rs[r'], Credit(up.value.pc, Waiting(s.rs[r].c, ip), 1, s.now + T.Lat(up.value)));
      } else {
        DepsSame(T, r', s.rs[r'], s'.rs[r']);
      }
    }
  }

  lemma STBalance(T: Topo, s: Net, r: int, ip: int, o: VC, f: Flit, r': int, o': VC)
    requires Sized(T, s) && 0 <= r < |s.rs| && 0 <= r' < |s.rs|
    requires Waiting(s.rs[r].c, ip) != INVALID_VC && Leaves(s.rs[r].c, ip, o, f)
    requires WaitOk(T, r, s.rs[r].c, ip) && InOk(T, r, s.rs[r].c, VC(ip, Waiting(s.rs[r].c, ip)))
    requires r' == r ==> XOk(T, r, s.rs[r].c, o'.pc)
    requires !T.IsEject(r', o'.pc)
    ensures Balance(T, STPort(T, s, r, ip).rs[r'], o') ==
              Balance(T, s.rs[r'], o') +
              (if T.Up(Port(r, ip)) == Some(Port(r', o'.pc)) && o'.vc == Waiting(s.rs[r].c, ip) then 1 else 0)
    ensures STPort(T, s, r, ip).rs[r'].cred == s.rs[r'].cred
  {
    var k := VC(ip, Waiting(s.rs[r].c, ip));
    var s1 := Upd(s, r, Cross(T, r, s.rs[r], ip, s.now));
    assert Balance(T, s1.rs[r'], o') == Balance(T, s.rs[r'], o') by {
      if r' == r { CrossBalance(T, r, s.rs[r], ip, s.now, o'); }
    }
    GiveBackBalance(T, s1, k, T.Up(Port(r, ip)), r', o');
  }

  lemma GiveBackBalance(T: Topo, s: Net, k: VC, up: Option<Port>, r': int, o': VC)
    requires up.Some? ==> 0 <= up.value.router < |s.rs|
    requires 0 <= r' < |s.rs|
    ensures Balance(T, GiveBack(T, s, k, up).rs[r'], o') ==
              Balance(T, s.rs[r'], o') + (if up == Some(Port(r', o'.pc)) && o'.vc == k.vc then 1 else 0)
    ensures GiveBack(T, s, k, up).rs[r'].cred == s.rs[r'].cred
  {
    if up.Some? {
      DepositBalance(T, s.rs[up.value.router], Credit(up.value.pc, k.vc, 1, s.now + T.Lat(up.value)), o');
    }
  }

  lemma STQ(T: Topo, s: Net, r: int, ip: int, r': int, k': VC)
    requires Sized(T, s) && 0 <= r < |s.rs| && 0 <= r' < |s.rs|
    requires Q(s.rs[r].c, VC(ip, Waiting(s.rs[r].c, ip))) != []
    ensures |Q(STPort(T, s, r, ip).rs[r'].c, k')| ==
              |Q(s.rs[r'].c, k')| - (if r' == r && k' == VC(ip, Waiting(s.rs[r].c, ip)) then 1 else 0)
  {}

  lemma InjectFields(T: Topo, s: Net, r: int, k: VC, r': int, o: VC)
    requires Sized(T, s) && 0 <= r < |s.rs| && 0 <= r' < |s.rs| && Pending(s.rs[r], k) != []
    ensures var x := Upd(s, r, Inject(s.rs[r], k)).rs[r'];
            && x.cred == s.rs[r'].cred && x.deps == s.rs[r'].deps && Balance(T, x, o) == Balance(T, s.rs[r'], o)
            && (r' != r || o != k ==> Q(x.c, o) == Q(s.rs[r'].c, o))
  {}

  lemma InjectCredits(T: Topo, s: Net, r: int, k: VC)
    requires T.Valid() && Sized(T, s) && Credits(T, s) && 0 <= r < |s.rs|
    requires T.Up(Port(r, k.pc)).None? && Pending(s.rs[r], k) != []
    ensures Credits(T, Upd(s, r, Inject(s.rs[r], k)))
  {
    var s' := Upd(s, r, Inject(s.rs[r], k));
    forall r', o | 0 <= r' < |s.rs| && T.ValidVC(r', o) ensures CreditOk(T, s', r', o) {
      assert CreditOk(T, s, r', o);
      T.WiredAt(Port(r', o.pc), Port(r, k.pc));
      InjectFields(T, s, r, k, r', o);
      var d := T.Down(Port(r', o.pc));
      if d.Some? { InjectFields(T, s, r, k, d.value.router, VC(d.value.pc, o.vc)); }
    }
    forall r', op | 0 <= r' < |s.rs| ensures SharedOk(T, r', s'.rs[r'], op) {
      assert SharedOk(T, r', s.rs[r'], op);
      InjectFields(T, s, r, k, r', k);
      SharedSame(T, r', s.rs[r'], s'.rs[r'], op);
    }
    forall r' | 0 <= r' < |s.rs| ensures DepsOk(T, r', s'.rs[r']) {
      assert DepsOk(T, r', s.rs[r']);
      InjectFields(T, s, r, k, r', k);
      DepsSame(T, r', s.rs[r'], s'.rs[r']);
    }
  }

  // ---------- what conservation buys ----------

  // Under SAMQ every counter stays between 0 and what it started with.
  lemma CreditBounds(T: Topo, s: Net, r: int, o: VC)
    requires Sized(T, s) && Credits(T, s) && 0 <= r < |s.rs| && T.ValidVC(r, o) && T.Down(Port(r, o.pc)).Some?
    ensures !T.damq ==> 0 <= Cr(T, s.rs[r].cred, o).num <= T.depth - T.rsv
    ensures 0 <= Cr(T, s.rs[r].cred, o).rsv <= T.rsv
    ensures T.damq ==> SumCredit(T, s.rs[r].cred, o.pc, T.nvc) >= 0
  {
    assert CreditOk(T, s, r, o) && SharedOk(T, r, s.rs[r], o.pc);
  }

  // A flit that reaches the end of its wire finds room in the downstream buffer.
  lemma RoomDownstream(T: Topo, s: Net, r: int, op: int, p: Port)
    requires T.Valid() && Sized(T, s) && Credits(T, s) && 0 <= r < |s.rs|
    requires T.Down(Port(r, op)) == Some(p)
    requires Link(s.rs[r].link, op) != [] && 0 <= Link(s.rs[r].link, op)[0].vc < T.nvc
    ensures !IsFull(T, s.rs[p.router].c, VC(p.pc, Link(s.rs[r].link, op)[0].vc))
  {
    var vc := Link(s.rs[r].link, op)[0].vc;
    T.WiredAt(Port(r, op), p);
    assert CreditOk(T, s, r, VC(op, vc)) && SharedOk(T, r, s.rs[r], op);
    if T.damq { PortRoom(T, s, r, op, p, vc, T.nvc); }
  }

  lemma PortRoom(T: Topo, s: Net, r: int, op: int, p: Port, vc: int, n: nat)
    requires Sized(T, s) && Credits(T, s) && 0 <= r < |s.rs| && T.Down(Port(r, op)) == Some(p) && T.ValidRouter(r)
    requires 0 <= op < T.npc[r] && n <= T.nvc
    requires Link(s.rs[r].link, op) != [] && Link(s.rs[r].link, op)[0].vc == vc && 0 <= vc
    ensures RowQ(s.rs[p.router].c.q, p.pc, n) + SumCredit(T, s.rs[r].cred, op, n) +
            (if vc < n then 1 else 0) <= n * T.depth
  {
    if n > 0 {
      PortRoom(T, s, r, op, p, vc, n - 1);
      assert CreditOk(T, s, r, VC(op, n - 1));
      assert n * T.depth == (n - 1) * T.depth + T.depth;
    }
  }
}
