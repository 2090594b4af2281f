// Every single action keeps the whole invariant, and finds the program's assertions true.

module StepProofs {
  import opened Wiring
  import opened Flits
  import opened Protocol
  import opened Invariant
  import opened ControlProofs
  import opened StreamProofs
  import opened CreditProofs
  import opened LinkProofs

  lemma ControlsFrame(T: Topo, s: Net, r: int, x: RouterState)
    requires Sized(T, s) && Controls(T, s) && 0 <= r < |s.rs| && Control(T, r, x.c)
    ensures Controls(T, Upd(s, r, x))
  {
    forall r' | 0 <= r' < |s.rs| ensures Control(T, r', Upd(s, r, x).rs[r'].c) { assert Control(T, r', s.rs[r'].c); }
  }

  // A change of one router that touches neither its streams, its credits nor its wires.
  ghost predicate ControlOnly(T: Topo, r: int, rs: RouterState, x: RouterState) {
    && x == rs.(c := x.c)
    && x.c.q == rs.c.q && x.c.got == rs.c.got && x.c.sent == rs.c.sent && x.c.xown == rs.c.xown
    && (forall o {:trigger InXbar(x.c, o)} :: T.ValidVC(r, o) ==> InXbar(x.c, o) == InXbar(rs.c, o))
  }

  lemma CreditsUntouched(T: Topo, s: Net, r: int, x: RouterState)
    requires Sized(T, s) && Credits(T, s) && 0 <= r < |s.rs|
    requires x.cred == s.rs[r].cred && x.link == s.rs[r].link && x.deps == s.rs[r].deps && x.c.q == s.rs[r].c.q
    requires forall o {:trigger InXbar(x.c, o)} :: T.ValidVC(r, o) ==> InXbar(x.c, o) == InXbar(s.rs[r].c, o)
    ensures Credits(T, Upd(s, r, x))
  {
    var rs := s.rs[r];
    forall o | T.ValidVC(r, o) && T.Down(Port(r, o.pc)).Some?
      ensures Balance(T, x, o) == Balance(T, rs, o) && CredOk(T, Cr(T, x.cred, o)) {
      assert CreditOk(T, s, r, o);
    }
    forall op ensures SharedOk(T, r, x, op) { assert SharedOk(T, r, rs, op); }
    assert DepsOk(T, r, rs);
    CreditsFrame(T, s, r, x);
  }

  lemma ControlOnlyInv(T: Topo, s: Net, r: int, x: RouterState)
    requires Inv(T, s) && 0 <= r < |s.rs| && Control(T, r, x.c) && ControlOnly(T, r, s.rs[r], x)
    ensures Inv(T, Upd(s, r, x))
  {
    var rs := s.rs[r];
    ControlsFrame(T, s, r, x);
    StreamsFrame(T, s, r, x);
    CreditsUntouched(T, s, r, x);
    LinksFrame(T, s, r, x);
    assert InsideOk(T, r, rs);
    CountsFrame(T, s, r, x);
  }

  // ---------- incCredit ----------

  lemma IncInv(T: Topo, s: Net, r: int)
    requires Inv(T, s) && 0 <= r < |s.rs| && s.rs[r].deps != []
    ensures Inv(T, Upd(s, r, Inc(T, s.rs[r])))
  {
    var x := Inc(T, s.rs[r]);
    assert Control(T, r, s.rs[r].c) && InsideOk(T, r, s.rs[r]);
    ControlsFrame(T, s, r, x);
    StreamsFrame(T, s, r, x);
    IncCredits(T, s, r);
    LinksFrame(T, s, r, x);
    CountsFrame(T, s, r, x);
  }

  // ---------- stageLT ----------

  lemma StampInv(T: Topo, s: Net, r: int, op: int)
    requires Inv(T, s) && 0 <= r < |s.rs|
    ensures var s' := Upd(s, r, StampLT(s.rs[r], op, s.now));
            Controls(T, s') && Streams(T, s') && Credits(T, s') && Counts(T, s')
  {
    var rs := s.rs[r];
    var x := StampLT(rs, op, s.now);
    assert Control(T, r, rs.c) && InsideOk(T, r, rs);
    ControlsFrame(T, s, r, x);
    StreamsFrame(T, s, r, x);
    CreditsUntouched(T, s, r, x);
    CountsFrame(T, s, r, x);
  }

  lemma MoveControls(T: Topo, s: Net, r: int, op: int)
    requires T.Valid() && Sized(T, s) && Controls(T, s) && Streams(T, s) && 0 <= r < |s.rs|
    requires Link(s.rs[r].link, op) != [] && T.Down(Port(r, op)).Some? && 0 <= Link(s.rs[r].link, op)[0].vc < T.nvc
    ensures Controls(T, Move(T, s, r, op))
  {
    var w := Link(s.rs[r].link, op)[0];
    var p := T.Down(Port(r, op)).value;
    var k := VC(p.pc, w.vc);
    T.WiredAt(Port(r, op), p);
    assert StreamOk(T, s, p.router, k);
    var rest := Rest(T, s, p.router, k);
    assert rest == OnLink(Link(s.rs[r].link, op), w.vc) && rest[0] == w.flit;
    WormholeCut(Here(s.rs[p.router].c, k), rest);
    assert Control(T, r, s.rs[r].c) && Control(T, p.router, s.rs[p.router].c);
    var s1 := Upd(s, r, Unload(s.rs[r], op));
    ControlsFrame(T, s, r, Unload(s.rs[r], op));
    EnqueueControl(T, p.router, s.rs[p.router].c, k, w.flit);
    ControlsFrame(T, s1, p.router, Receive(s1.rs[p.router], k, w.flit));
  }

  lemma MoveCounts(T: Topo, s: Net, r: int, op: int)
    requires T.Valid() && Sized(T, s) && Counts(T, s) && 0 <= r < |s.rs|
    requires Link(s.rs[r].link, op) != [] && T.Down(Port(r, op)).Some? && 0 <= Link(s.rs[r].link, op)[0].vc < T.nvc
    ensures Counts(T, Move(T, s, r, op))
  {
    var w := Link(s.rs[r].link, op)[0];
    var p := T.Down(Port(r, op)).value;
    T.WiredAt(Port(r, op), p);
    assert InsideOk(T, r, s.rs[r]);
    UnloadInside(T, r, s.rs[r], op);
    var s1 := Upd(s, r, Unload(s.rs[r], op));
    CountsFrame(T, s, r, Unload(s.rs[r], op));
    assert InsideOk(T, p.router, s1.rs[p.router]);
    ReceiveInside(T, p.router, s1.rs[p.router], VC(p.pc, w.vc), w.flit);
    CountsFrame(T, s1, p.router, Receive(s1.rs[p.router], VC(p.pc, w.vc), w.flit));
  }

  lemma LTInv(T: Topo, s: Net, r: int, op: int)
    requires Inv(T, s) && 0 <= r < |s.rs| && LastLT(s.rs[r], op) < s.now
    ensures Inv(T, LTPort(T, s, r, op))
  {
    LTLinks(T, s, r, op);
    StampInv(T, s, r, op);
    var s0 := Upd(s, r, StampLT(s.rs[r], op, s.now));
    assert LinkOk(T, r, s.rs[r], s.now, op);
    if Due(T, s, r, op) {
      assert Link(s0.rs[r].link, op) == Link(s.rs[r].link, op);
      MoveControls(T, s0, r, op);
      MoveStreams(T, s0, r, op);
      MoveCredits(T, s0, r, op);
      MoveCounts(T, s0, r, op);
    }
  }

  // ---------- stageST ----------

  lemma STControls(T: Topo, s: Net, r: int, ip: int)
    requires Sized(T, s) && Controls(T, s) && 0 <= r < |s.rs| && 0 <= ip < T.npc[r] &&
             Waiting(s.rs[r].c, ip) != INVALID_VC
    requires Q(s.rs[r].c, VC(ip, Waiting(s.rs[r].c, ip))) != []
    ensures Control(T, r, Traverse(s.rs[r].c, ip))
    ensures Controls(T, STPort(T, s, r, ip))
  {
    assert Control(T, r, s.rs[r].c);
    TraverseControl(T, r, s.rs[r].c, ip);
    var x := Cross(T, r, s.rs[r], ip, s.now);
    ControlsFrame(T, s, r, x);
    var s1 := Upd(s, r, x);
    if T.Up(Port(r, ip)).Some? {
      var u := T.Up(Port(r, ip)).value;
      assert Control(T, u.router, s1.rs[u.router].c);
      ControlsFrame(T, s1, u.router,
                    Deposit(s1.rs[u.router], Credit(u.pc, Waiting(s.rs[r].c, ip), 1, s.now + T.Lat(u))));
    }
  }

  // The crossbar only ever waits for a flit that is there, of a packet that holds its output VC.
  lemma CrossbarFlit(T: Topo, s: Net, r: int, ip: int) returns (o: VC, f: Flit)
    requires Sized(T, s) && Controls(T, s) && 0 <= r < |s.rs| && 0 <= ip < T.npc[r] &&
             Waiting(s.rs[r].c, ip) != INVALID_VC
    ensures Leaves(s.rs[r].c, ip, o, f) && T.ValidVC(r, o) && T.Routable(r, o.pc)
    ensures T.ValidVC(r, VC(ip, Waiting(s.rs[r].c, ip)))
    ensures In(s.rs[r].c, VC(ip, Waiting(s.rs[r].c, ip))).st.S?
    ensures o.pc in s.rs[r].c.taken && o.pc in s.rs[r].c.xown && o in s.rs[r].c.busy
    ensures Wormhole(Sent(s.rs[r].c, o) + [f])
    ensures CanExtend(Got(s.rs[r].c, VC(ip, Waiting(s.rs[r].c, ip))), f)
  {
    var c := s.rs[r].c;
    var k := VC(ip, Waiting(c, ip));
    assert Control(T, r, c);
    assert WaitOk(T, r, c, ip) && InOk(T, r, c, k);
    o := VC(In(c, k).outPc, In(c, k).outVc);
    f := Q(c, k)[0];
    assert OutOk(T, r, c, o) && XOk(T, r, c, o.pc) && Wormhole(Here(c, k));
    WormholeCut(Got(c, k), Q(c, k));
    WormholeAppend(Sent(c, o), f);
  }

  lemma STInv(T: Topo, s: Net, r: int, ip: int, o: VC, f: Flit)
    requires Inv(T, s) && 0 <= r < |s.rs| && 0 <= ip < T.npc[r] && Waiting(s.rs[r].c, ip) != INVALID_VC
    requires Leaves(s.rs[r].c, ip, o, f) && LastLT(s.rs[r], o.pc) == s.now && XClk(s.rs[r], o.pc) < s.now
    ensures Inv(T, STPort(T, s, r, ip))
  {
    var o', f' := CrossbarFlit(T, s, r, ip);
    var k := VC(ip, Waiting(s.rs[r].c, ip));
    var x := Cross(T, r, s.rs[r], ip, s.now);
    var s1 := Upd(s, r, x);
    STControls(T, s, r, ip);
    CrossStreams(T, s, r, ip, o, f);
    STCredits(T, s, r, ip, o, f);
    CrossLinks(T, s, r, ip, o, f);
    assert InsideOk(T, r, s.rs[r]);
    CrossInside(T, r, s.rs[r], ip, o, f, s.now);
    CountsFrame(T, s, r, x);
    GiveBackInv(T, s1, k, T.Up(Port(r, ip)));
  }

  lemma GiveBackInv(T: Topo, s: Net, k: VC, up: Option<Port>)
    requires Sized(T, s) && Streams(T, s) && Links(T, s) && Counts(T, s)
    requires up.Some? ==> 0 <= up.value.router < |s.rs|
    ensures var s' := GiveBack(T, s, k, up); Streams(T, s') && Links(T, s') && Counts(T, s')
  {
    if up.Some? {
      var u := up.value;
      var x := Deposit(s.rs[u.router], Credit(u.pc, k.vc, 1, s.now + T.Lat(u)));
      StreamsFrame(T, s, u.router, x);
      LinksFrame(T, s, u.router, x);
      assert InsideOk(T, u.router, s.rs[u.router]);
      CountsFrame(T, s, u.router, x);
    }
  }

  // ---------- stageSA and stageSSA ----------

  lemma RequestInv(T: Topo, s: Net, r: int, k: VC)
    requires Inv(T, s) && 0 <= r < |s.rs| && T.ValidVC(r, k)
    requires In(s.rs[r].c, k).st.S? && Waiting(s.rs[r].c, k.pc) != k.vc && Q(s.rs[r].c, k) != []
    ensures Inv(T, Upd(s, r, s.rs[r].(c := Request(s.rs[r].c, k, s.now))))
  {
    assert Control(T, r, s.rs[r].c);
    RequestControl(T, r, s.rs[r].c, k, s.now);
    ControlOnlyInv(T, s, r, s.rs[r].(c := Request(s.rs[r].c, k, s.now)));
  }

  // What the arbiter checks before it grants the request of input VC k.
  ghost predicate GrantOk(T: Topo, r: int, rs: RouterState, k: VC) {
    T.ValidVC(r, k) && Grantable(rs.c, k) &&
    (T.IsEject(r, rs.c.sw[k].outPc) || HasCredit(T, rs.cred, VC(rs.c.sw[k].outPc, rs.c.sw[k].outVc)))
  }

  lemma TakeInv(T: Topo, s: Net, r: int, k: VC)
    requires Inv(T, s) && 0 <= r < |s.rs| && GrantOk(T, r, s.rs[r], k)
    ensures Q(s.rs[r].c, k) != []
    ensures Inv(T, Upd(s, r, Take(T, r, s.rs[r], k, s.now)))
  {
    var rs := s.rs[r];
    assert Control(T, r, rs.c) && InsideOk(T, r, rs);
    GrantControl(T, r, rs.c, k);
    var x := Take(T, r, rs, k, s.now);
    ControlsFrame(T, s, r, x);
    StreamsFrame(T, s, r, x);
    TakeCredits(T, s, r, k);
    TakeLinks(T, s, r, k);
    CountsFrame(T, s, r, x);
  }

  // ---------- stageVA and stageRC ----------

  lemma AllocateInv(T: Topo, s: Net, r: int, i: nat, ov: int)
    requires Inv(T, s) && 0 <= r < |s.rs| && Allocatable(T, s.rs[r].c, i, ov)
    ensures Inv(T, Upd(s, r, s.rs[r].(c := Allocate(s.rs[r].c, i, ov, s.now))))
  {
    var c := s.rs[r].c;
    assert Control(T, r, c);
    AllocateControl(T, r, c, i, ov, s.now);
    var x := s.rs[r].(c := Allocate(c, i, ov, s.now));
    forall o | T.ValidVC(r, o) ensures InXbar(x.c, o) == InXbar(c, o) {
      assert XOk(T, r, c, o.pc);
      AllocateXbar(T, r, c, i, ov, s.now, o);
    }
    ControlOnlyInv(T, s, r, x);
  }

  lemma RouteInv(T: Topo, s: Net, r: int, k: VC, op: int)
    requires Inv(T, s) && 0 <= r < |s.rs| && T.ValidVC(r, k)
    requires In(s.rs[r].c, k).st.I? && Q(s.rs[r].c, k) != [] && T.Routable(r, op)
    ensures Inv(T, Upd(s, r, s.rs[r].(c := Route(s.rs[r].c, k, op))))
    ensures Q(s.rs[r].c, k)[0].IsHead()
  {
    var c := s.rs[r].c;
    assert Control(T, r, c);
    assert InOk(T, r, c, k) && Wormhole(Here(c, k));
    WormholeCut(Got(c, k), Q(c, k));
    RouteControl(T, r, c, k, op);
    var x := s.rs[r].(c := Route(c, k, op));
    forall o | T.ValidVC(r, o) ensures InXbar(x.c, o) == InXbar(c, o) {
      assert XOk(T, r, c, o.pc);
      RouteXbar(T, r, c, k, op, o);
    }
    ControlOnlyInv(T, s, r, x);
  }

  // ---------- network interfaces ----------

  lemma ReserveInv(T: Topo, s: Net, r: int, k: VC, pkt: nat, start: nat, n: nat)
    requires Inv(T, s) && 0 <= r < |s.rs| && T.ValidVC(r, k)
    requires T.Up(Port(r, k.pc)).None? && Pending(s.rs[r], k) == []
    ensures Inv(T, Upd(s, r, Reserve(s.rs[r], k, pkt, start, n)))
  {
    var rs := s.rs[r];
    var x := Reserve(rs, k, pkt, start, n);
    assert Control(T, r, rs.c) && InsideOk(T, r, rs);
    ControlsFrame(T, s, r, x);
    ReserveStreams(T, s, r, k, pkt, start, n);
    CreditsUntouched(T, s, r, x);
    LinksFrame(T, s, r, x);
    CountsFrame(T, s, r, x);
  }

  lemma InjectInv(T: Topo, s: Net, r: int, k: VC)
    requires Inv(T, s) && 0 <= r < |s.rs| && T.ValidVC(r, k)
    requires T.Up(Port(r, k.pc)).None? && Pending(s.rs[r], k) != []
    ensures Inv(T, Upd(s, r, Inject(s.rs[r], k)))
  {
    var rs := s.rs[r];
    var f := Pending(rs, k)[0];
    var x := Inject(rs, k);
    assert Control(T, r, rs.c) && InsideOk(T, r, rs) && StreamOk(T, s, r, k);
    WormholeCut(Here(rs.c, k), Rest(T, s, r, k));
    EnqueueControl(T, r, rs.c, k, f);
    ControlsFrame(T, s, r, x);
    InjectStreams(T, s, r, k);
    InjectCredits(T, s, r, k);
    LinksFrame(T, s, r, x);
    ReceiveInside(T, r, rs, k, f);
    CountsFrame(T, s, r, x);
  }
}
