// Two packets of one flit travel through the network, each by way of three routers, in runs that keep the
// program's time: where they are, and what one call of router_sim does to them.

module Travels {
  import opened Wiring
  import opened Flits
  import opened Protocol
  import opened Invariant
  import opened ControlProofs
  import opened StepProofs
  import opened Stages
  import opened StageProofs
  import opened Runs
  import opened Changes
  import opened Priorities
  import opened Arbiter
  import opened SwArb
  import opened Folds
  import opened Timing

  // A packet is injected at router u, goes through its port p to input port i of the next router, through
  // that one's port o to d, and leaves router d by port x.
  datatype Trip = Trip(u: int, k: VC, p: int, i: Port, o: int, d: Port, x: int) {
    // The three routers it comes to, the input VC it has there and the output port it takes.
    function Router(h: nat): int { if h == 0 then u else if h == 1 then i.router else d.router }

    function Key(h: nat): VC { if h == 0 then k else if h == 1 then VC(i.pc, 0) else VC(d.pc, 0) }

    function Out(h: nat): int { if h == 0 then p else if h == 1 then o else x }

    // The first n output ports.
    function Ports(n: nat): set<Port> {
      if n == 0 then {}
      else if n == 1 then {Port(u, p)}
      else if n == 2 then {Port(u, p), Port(i.router, o)}
      else {Port(u, p), Port(i.router, o), Port(d.router, x)}
    }
  }

  // Where the flit is: not yet in the network, in a buffer with its input module in state st, on the wire since
  // clk, or out of the network again.
  datatype Pos = Before | Inside(h: nat, st: InState) | Flying(h: nat, clk: int) | Gone

  datatype Tok = Tok(t: Trip, f: Flit, pos: Pos) {
    predicate At(z: int) { (pos.Inside? || pos.Flying?) && t.Router(pos.h) == z }

    predicate Lies(z: int, k: VC) { pos.Inside? && t.Router(pos.h) == z && t.Key(pos.h) == k }

    predicate Crosses(z: int, ip: int) { pos.Inside? && pos.st.S? && t.Router(pos.h) == z && t.Key(pos.h).pc == ip }

    predicate Flies(z: int, op: int) { pos.Flying? && t.Router(pos.h) == z && t.Out(pos.h) == op }

    function Mod(): InMod
      requires pos.Inside?
    {
      match pos.st
      case I => InMod(I, INVALID_PC, INVALID_VC)
      case R => InMod(R, t.Out(pos.h), INVALID_VC)
      case _ => InMod(pos.st, t.Out(pos.h), 0)
    }

    // The ports through which it has been granted the way.
    function Paid(): set<Port> {
      match pos
      case Before => {}
      case Inside(h, st) => t.Ports(if st.S? then h + 1 else h)
      case Flying(h, clk) => t.Ports(h + 1)
      case Gone => t.Ports(3)
    }

    function To(pos': Pos): Tok { this.(pos := pos') }
  }

  ghost predicate TripOk(T: Topo, t: Trip) {
    && T.ValidVC(t.u, t.k) && T.IsEject(t.u, t.k.pc)
    && T.Down(Port(t.u, t.p)) == Some(t.i) && T.Down(Port(t.i.router, t.o)) == Some(t.d) && T.Routable(t.d.router, t.x)
    && t.u != t.i.router && t.d.router != t.i.router
  }

  // The routing function lets the packet make the trip.
  ghost predicate LawfulTrip(T: Topo, g: Routing, t: Trip, p: nat) {
    && g.may(t.u, t.k, p) && MaySend(T, g, t.u, t.k, p, t.p)
    && MaySend(T, g, t.i.router, VC(t.i.pc, 0), p, t.o) && MaySend(T, g, t.d.router, VC(t.d.pc, 0), p, t.x)
  }

  ghost predicate TokOk(T: Topo, g: Routing, a: Tok) {
    && TripOk(T, a.t) && LawfulTrip(T, g, a.t, a.f.pkt) && a.f.kind == Atom
    && (a.pos.Inside? || a.pos.Flying? ==> a.pos.h < 3)
  }

  // Where they come to the same router they take different ports.
  ghost predicate Compatible(a: Trip, b: Trip) {
    forall n: nat, n': nat {:trigger a.Router(n), b.Router(n')} :: n < 3 && n' < 3 && a.Router(n) == b.Router(n') ==>
      a.Key(n).pc != b.Key(n').pc && a.Out(n) != b.Out(n')
  }

  // Nothing else is in router z.
  ghost predicate Stands(z: int, rs: RouterState, a: Tok, b: Tok) {
    && (forall k {:trigger Q(rs.c, k)} ::
          Q(rs.c, k) == if a.Lies(z, k) then [a.f] else if b.Lies(z, k) then [b.f] else [])
    && (forall k {:trigger In(rs.c, k)} :: In(rs.c, k) ==
          if a.Lies(z, k) then a.Mod() else if b.Lies(z, k) then b.Mod() else InMod(I, INVALID_PC, INVALID_VC))
    && (forall ip {:trigger Waiting(rs.c, ip)} :: Waiting(rs.c, ip) ==
          if a.Crosses(z, ip) then a.t.Key(a.pos.h).vc else if b.Crosses(z, ip) then b.t.Key(b.pos.h).vc
            else INVALID_VC)
    && (forall op {:trigger Link(rs.link, op)} :: Link(rs.link, op) ==
          if a.Flies(z, op) then [Wire(a.f, 0, a.pos.clk)] else if b.Flies(z, op) then [Wire(b.f, 0, b.pos.clk)]
            else [])
    && (forall k {:trigger Pending(rs, k)} :: Pending(rs, k) == [])
  }

  // Credits have been taken or given back only where they have passed.
  ghost predicate Purse(z: int, rs: RouterState, a: Tok, b: Tok) {
    && (forall o {:trigger o in rs.cred} :: o in rs.cred ==> Port(z, o.pc) in a.Paid() + b.Paid())
    && (forall i {:trigger rs.deps[i]} :: 0 <= i < |rs.deps| ==>
          Port(z, rs.deps[i].outPc) in a.Paid() + b.Paid())
  }

  ghost predicate World(s: Net, a: Tok, b: Tok) {
    forall z {:trigger s.rs[z]} :: 0 <= z < |s.rs| ==> Stands(z, s.rs[z], a, b) && Purse(z, s.rs[z], a, b)
  }

  lemma StandsSwap(z: int, rs: RouterState, a: Tok, b: Tok)
    requires Compatible(a.t, b.t) && Stands(z, rs, a, b) && (a.pos.Inside? || a.pos.Flying? ==> a.pos.h < 3)
    requires b.pos.Inside? || b.pos.Flying? ==> b.pos.h < 3
    ensures Stands(z, rs, b, a)
  {}

  lemma WorldSwap(T: Topo, g: Routing, s: Net, a: Tok, b: Tok)
    requires World(s, a, b) && Compatible(a.t, b.t) && TokOk(T, g, a) && TokOk(T, g, b)
    ensures World(s, b, a) && Compatible(b.t, a.t)
  {
    forall z | 0 <= z < |s.rs| ensures Stands(z, s.rs[z], b, a) && Purse(z, s.rs[z], b, a) {
      StandsSwap(z, s.rs[z], a, b);
    }
  }

  // ---------- incCredit ----------

  // Only the credits of router z have changed.
  ghost predicate CreditsOnly(s: Net, s': Net, z: int) {
    && 0 <= z < |s.rs| == |s'.rs| && s'.now == s.now
    && s'.rs[z].c == s.rs[z].c && s'.rs[z].link == s.rs[z].link && s'.rs[z].pending == s.rs[z].pending
    && s'.rs[z].ran == s.rs[z].ran
    && forall w {:trigger s'.rs[w]} :: 0 <= w < |s.rs| && w != z ==> s'.rs[w] == s.rs[w]
  }

  lemma {:induction false} IncTravels(T: Topo, s: Net, z: int, a: Tok, b: Tok)
    requires Sized(T, s) && 0 <= z < |s.rs| && Purse(z, s.rs[z], a, b)
    ensures CreditsOnly(s, IncAll(T, s, z), z) && Purse(z, IncAll(T, s, z).rs[z], a, b)
    ensures s.rs[z].deps == [] || s.rs[z].deps[0].clk > s.now ==> IncAll(T, s, z) == s
    decreases |s.rs[z].deps|
  {
    if s.rs[z].deps != [] && s.rs[z].deps[0].clk <= s.now {
      var s1 := Upd(s, z, Inc(T, s.rs[z]));
      assert s1.rs[z].deps == s.rs[z].deps[1..];
      assert Port(z, s.rs[z].deps[0].outPc) in a.Paid() + b.Paid();
      IncTravels(T, s1, z, a, b);
    }
  }

  lemma IncWorld(T: Topo, s: Net, z: int, a: Tok, b: Tok)
    requires Sized(T, s) && 0 <= z < |s.rs| && World(s, a, b)
    ensures World(IncAll(T, s, z), a, b) && CreditsOnly(s, IncAll(T, s, z), z)
    ensures s.rs[z].deps == [] || s.rs[z].deps[0].clk > s.now ==> IncAll(T, s, z) == s
  {
    IncTravels(T, s, z, a, b);
    var s' := IncAll(T, s, z);
    forall w | 0 <= w < |s'.rs| ensures Stands(w, s'.rs[w], a, b) && Purse(w, s'.rs[w], a, b) {
      if w == z { SameStands(z, s.rs[z], s'.rs[z], a, b); }
    }
  }

  lemma SameStands(z: int, x: RouterState, y: RouterState, a: Tok, b: Tok)
    requires Stands(z, x, a, b) && y.c == x.c && y.link == x.link && y.pending == x.pending
    ensures Stands(z, y, a, b)
  {
    forall k ensures Pending(y, k) == [] { assert Pending(x, k) == []; }
  }

  // ---------- stageLT ----------

  // Everything but the clocks and the count is the same.
  ghost predicate Kin(a: RouterState, b: RouterState) {
    b.c == a.c && b.link == a.link && b.cred == a.cred && b.deps == a.deps && b.pending == a.pending && b.ran == a.ran
  }

  // The wire of output port op of router r has delivered its flit to input port d.
  ghost predicate Delivered(s: Net, s': Net, r: int, op: int, d: Port, w: Wire)
    requires 0 <= r < |s.rs| && 0 <= d.router < |s.rs| && d.router != r
  {
    && |s'.rs| == |s.rs| && s'.now == s.now
    && (forall z {:trigger s'.rs[z]} :: 0 <= z < |s.rs| && z != r && z != d.router ==> Kin(s.rs[z], s'.rs[z]))
    && s'.rs[r].c == s.rs[r].c && s'.rs[r].cred == s.rs[r].cred && s'.rs[r].deps == s.rs[r].deps
    && s'.rs[r].pending == s.rs[r].pending && s'.rs[r].ran == s.rs[r].ran
    && (forall op' {:trigger Link(s'.rs[r].link, op')} ::
          Link(s'.rs[r].link, op') == if op' == op then [] else Link(s.rs[r].link, op'))
    && s'.rs[d.router].c == Enqueue(s.rs[d.router].c, VC(d.pc, w.vc), w.flit) &&
       s'.rs[d.router].link == s.rs[d.router].link
    && s'.rs[d.router].cred == s.rs[d.router].cred && s'.rs[d.router].deps == s.rs[d.router].deps
    && s'.rs[d.router].pending == s.rs[d.router].pending && s'.rs[d.router].ran == s.rs[d.router].ran
  }

  lemma LTDelivers(T: Topo, s: Net, s1: Net, r: int, op: int, d: Port, w: Wire)
    requires Sized(T, s1) && Within(s, s1, r) && s1.rs[r].c == s.rs[r].c && s1.rs[r].cred == s.rs[r].cred
    requires 0 <= d.router < |s.rs| && d.router != r && s1.rs[r].ran == s.rs[r].ran
    requires Due(T, s, r, op) && T.Down(Port(r, op)) == Some(d) && Link(s.rs[r].link, op) == [w]
    ensures Delivered(s, LTPort(T, s1, r, op), r, op, d, w)
  {
    var s' := LTPort(T, s1, r, op);
    assert Link(s1.rs[r].link, op) == [w];
    assert Due(T, s1, r, op);
    forall z | 0 <= z < |s.rs| && z != r && z != d.router ensures Kin(s.rs[z], s'.rs[z]) {
      assert s'.rs[z] == s1.rs[z];
    }
    forall op' ensures Link(s'.rs[r].link, op') == if op' == op then [] else Link(s.rs[r].link, op') {
      assert Link(s1.rs[r].link, op') == Link(s.rs[r].link, op');
    }
    assert s1.rs[d.router] == s.rs[d.router];
  }

  lemma LTAfter(T: Topo, s: Net, s1: Net, r: int, op: int, d: Port, w: Wire, next: int)
    requires Sized(T, s1) && 0 <= r < |s.rs| && 0 <= d.router < |s.rs| && d.router != r && next != op
    requires Delivered(s, s1, r, op, d, w) && !Due(T, s, r, next)
    ensures Delivered(s, LTPort(T, s1, r, next), r, op, d, w)
  {
    assert Link(s1.rs[r].link, next) == Link(s.rs[r].link, next);
    var s' := LTPort(T, s1, r, next);
    forall z | 0 <= z < |s.rs| && z != r && z != d.router ensures Kin(s.rs[z], s'.rs[z]) {
      assert Kin(s.rs[z], s1.rs[z]);
    }
    forall op' ensures Link(s'.rs[r].link, op') == if op' == op then [] else Link(s.rs[r].link, op') {
      assert Link(s1.rs[r].link, op') == Link(s'.rs[r].link, op');
    }
  }

  lemma LTFirst(T: Topo, s: Net, r: int, op: nat, d: Port, w: Wire)
    requires Sized(T, s) && 0 <= r < |s.rs| && Due(T, s, r, op) && T.Down(Port(r, op)) == Some(d) && d.router != r
    requires Link(s.rs[r].link, op) == [w] && forall op' :: 0 <= op' < op ==> !Due(T, s, r, op')
    ensures Delivered(s, LTUpto(T, s, r, op + 1), r, op, d, w)
  {
    LTRuns(T, s, r, op);
    LTDelivers(T, s, LTUpto(T, s, r, op), r, op, d, w);
  }

  lemma LTNext(T: Topo, s: Net, r: int, n: nat, op: nat, d: Port, w: Wire)
    requires Sized(T, s) && 0 <= r < |s.rs| && op < n && 0 <= d.router < |s.rs| && d.router != r && !Due(T, s, r, n)
    requires Delivered(s, LTUpto(T, s, r, n), r, op, d, w)
    ensures Delivered(s, LTUpto(T, s, r, n + 1), r, op, d, w)
  {
    LTAfter(T, s, LTUpto(T, s, r, n), r, op, d, w, n);
  }

  // After n ports of stageLT the wire of port op has delivered, if it was one of them.
  ghost predicate HasDelivered(T: Topo, s: Net, r: int, op: int, d: Port, w: Wire, n: nat)
    requires Sized(T, s) && 0 <= r < |s.rs| && 0 <= d.router < |s.rs| && d.router != r
  {
    n > op ==> Delivered(s, LTUpto(T, s, r, n), r, op, d, w)
  }

  lemma LTStep(T: Topo, s: Net, r: int, op: nat, d: Port, w: Wire, n: nat)
    requires Sized(T, s) && 0 <= r < |s.rs| && Due(T, s, r, op) && T.Down(Port(r, op)) == Some(d)
    requires d.router != r && Link(s.rs[r].link, op) == [w] && forall op' :: op' != op ==> !Due(T, s, r, op')
    requires HasDelivered(T, s, r, op, d, w, n)
    ensures HasDelivered(T, s, r, op, d, w, n + 1)
  {
    if n == op { LTFirst(T, s, r, op, d, w); } else if n > op { LTNext(T, s, r, n, op, d, w); }
  }

  lemma {:induction false} LTOnce(T: Topo, s: Net, r: int, op: nat, d: Port, w: Wire, n: nat)
    requires Sized(T, s) && 0 <= r < |s.rs| && Due(T, s, r, op) && T.Down(Port(r, op)) == Some(d)
    requires d.router != r && Link(s.rs[r].link, op) == [w] && forall op' :: op' != op ==> !Due(T, s, r, op')
    ensures HasDelivered(T, s, r, op, d, w, n)
  {
    if n > 0 {
      LTOnce(T, s, r, op, d, w, n - 1);
      LTStep(T, s, r, op, d, w, n - 1);
    }
  }

  // It is due at the far end of its wire.
  predicate DueAt(T: Topo, now: int, a: Tok) {
    a.pos.Flying? && (T.Lat(Port(a.t.Router(a.pos.h), a.t.Out(a.pos.h))) > 1 ==>
      now - a.pos.clk >= T.Lat(Port(a.t.Router(a.pos.h), a.t.Out(a.pos.h))))
  }

  // What stageLT of router z makes of the flit.
  function Carried(T: Topo, now: int, z: int, a: Tok): Tok {
    if a.pos.Flying? && a.t.Router(a.pos.h) == z && DueAt(T, now, a) then a.To(Inside(a.pos.h + 1, I)) else a
  }

  // The router the flit comes to next.
  function NextPort(t: Trip, h: nat): Port { if h == 0 then t.i else t.d }

  lemma OneDue(T: Topo, g: Routing, s: Net, z: int, a: Tok, b: Tok, op: int)
    requires Sized(T, s) && 0 <= z < |s.rs| && Stands(z, s.rs[z], a, b) && TokOk(T, g, a) && TokOk(T, g, b)
    ensures Due(T, s, z, op) ==> (a.Flies(z, op) && DueAt(T, s.now, a)) || (b.Flies(z, op) && DueAt(T, s.now, b))
    ensures a.Flies(z, op) && DueAt(T, s.now, a) && a.pos.h < 2 ==> Due(T, s, z, op)
  {
    assert Link(s.rs[z].link, op) ==
      if a.Flies(z, op) then [Wire(a.f, 0, a.pos.clk)] else if b.Flies(z, op) then [Wire(b.f, 0, b.pos.clk)] else [];
  }

  // The flit of a has come over its wire from router z to the next one.
  ghost predicate Arrives(s: Net, s': Net, z: int, a: Tok) {
    && 0 <= z < |s.rs| && a.pos.Flying? && a.pos.h < 2 && a.t.Router(a.pos.h) == z && a.f.kind == Atom
    && var d := NextPort(a.t, a.pos.h);
       && 0 <= d.router < |s.rs| && d.router != z
       && Delivered(s, s', z, a.t.Out(a.pos.h), d, Wire(a.f, 0, a.pos.clk))
  }

  lemma ArriveElsewhere(s: Net, s': Net, z: int, a: Tok, b: Tok, w: int)
    requires Arrives(s, s', z, a) && 0 <= w < |s.rs| && w != z && w != NextPort(a.t, a.pos.h).router
    requires Stands(w, s.rs[w], a, b)
    ensures Stands(w, s'.rs[w], a.To(Inside(a.pos.h + 1, I)), b)
  {
    var x, y := s.rs[w], s'.rs[w];
    assert Kin(x, y);
    SameStands(w, x, y, a, b);
  }

  lemma ArriveFrom(s: Net, s': Net, z: int, a: Tok, b: Tok)
    requires Arrives(s, s', z, a) && Stands(z, s.rs[z], a, b) && Compatible(a.t, b.t)
    requires b.pos.Inside? || b.pos.Flying? ==> b.pos.h < 3
    ensures Stands(z, s'.rs[z], a.To(Inside(a.pos.h + 1, I)), b)
  {
    var a' := a.To(Inside(a.pos.h + 1, I));
    var x, y := s.rs[z], s'.rs[z];
    forall k ensures Pending(y, k) == [] { assert Pending(x, k) == []; }
    forall op
      ensures Link(y.link, op) ==
              if a'.Flies(z, op) then [Wire(a.f, 0, a'.pos.clk)] else if b.Flies(z, op) then [Wire(b.f, 0, b.pos.clk)]
                else []
    {
      assert Link(x.link, op) ==
        if a.Flies(z, op) then [Wire(a.f, 0, a.pos.clk)] else if b.Flies(z, op) then [Wire(b.f, 0, b.pos.clk)] else [];
    }
  }

  lemma ArriveAt(s: Net, s': Net, z: int, a: Tok, b: Tok)
    requires Arrives(s, s', z, a) && Compatible(a.t, b.t) && (b.pos.Inside? || b.pos.Flying? ==> b.pos.h < 3)
    requires var w := NextPort(a.t, a.pos.h).router; Stands(w, s.rs[w], a, b)
    ensures var w := NextPort(a.t, a.pos.h).router; Stands(w, s'.rs[w], a.To(Inside(a.pos.h + 1, I)), b)
  {
    var d := NextPort(a.t, a.pos.h);
    var w := d.router;
    var a' := a.To(Inside(a.pos.h + 1, I));
    var x, y := s.rs[w], s'.rs[w];
    assert a.t.Router(a.pos.h + 1) == w && a.t.Key(a.pos.h + 1) == VC(d.pc, 0);
    assert y.c == Enqueue(x.c, VC(d.pc, 0), a.f);
    assert !b.Lies(w, VC(d.pc, 0));
    forall k ensures Pending(y, k) == [] { assert Pending(x, k) == []; }
    EnqueueStands(w, x, y, a, b, a', VC(d.pc, 0));
  }

  lemma EnqueueStands(w: int, x: RouterState, y: RouterState, a: Tok, b: Tok, a': Tok, k0: VC)
    requires Stands(w, x, a, b) && y.c == Enqueue(x.c, k0, a.f) && y.link == x.link
    requires forall k {:trigger Pending(y, k)} :: Pending(y, k) == []
    requires !a.At(w) && !b.Lies(w, k0) && a'.f == a.f && a'.pos.Inside? && a'.pos.st.I?
    requires forall k :: a'.Lies(w, k) <==> k == k0
    ensures Stands(w, y, a', b)
  {
    forall k ensures In(y.c, k) == In(x.c, k) && Q(y.c, k) == if k == k0 then Q(x.c, k) + [a.f] else Q(x.c, k) {}
    forall ip ensures Waiting(y.c, ip) == Waiting(x.c, ip) {}
  }

  lemma ArriveOne(T: Topo, g: Routing, s: Net, s': Net, z: int, a: Tok, b: Tok, w: int)
    requires Arrives(s, s', z, a) && 0 <= w < |s.rs| && Stands(w, s.rs[w], a, b) && Purse(w, s.rs[w], a, b)
    requires Compatible(a.t, b.t) && (b.pos.Inside? || b.pos.Flying? ==> b.pos.h < 3)
    ensures var a' := a.To(Inside(a.pos.h + 1, I)); Stands(w, s'.rs[w], a', b) && Purse(w, s'.rs[w], a', b)
  {
    if w == z {
      ArriveFrom(s, s', z, a, b);
    } else if w == NextPort(a.t, a.pos.h).router {
      ArriveAt(s, s', z, a, b);
    } else {
      ArriveElsewhere(s, s', z, a, b, w);
    }
    assert s'.rs[w].cred == s.rs[w].cred && s'.rs[w].deps == s.rs[w].deps by {
      if w != z && w != NextPort(a.t, a.pos.h).router { assert Kin(s.rs[w], s'.rs[w]); }
    }
  }

  lemma ArriveWorld(T: Topo, g: Routing, s: Net, s': Net, z: int, a: Tok, b: Tok)
    requires Arrives(s, s', z, a) && World(s, a, b) && Compatible(a.t, b.t) && TokOk(T, g, b)
    ensures World(s', a.To(Inside(a.pos.h + 1, I)), b)
  {
    forall w | 0 <= w < |s'.rs|
      ensures var a' := a.To(Inside(a.pos.h + 1, I)); Stands(w, s'.rs[w], a', b) && Purse(w, s'.rs[w], a', b)
    {
      ArriveOne(T, g, s, s', z, a, b, w);
    }
  }

  // No router's deposits or credits have changed, none has run, and nothing has been read.
  ghost predicate SameBooks(s: Net, s': Net) {
    && |s'.rs| == |s.rs| && s'.now == s.now
    && forall w {:trigger s'.rs[w]} :: 0 <= w < |s.rs| ==>
         s'.rs[w].deps == s.rs[w].deps && s'.rs[w].ran == s.rs[w].ran && s'.rs[w].c.got == s.rs[w].c.got
  }

  // On its wires there is nothing that goes further than the trip.
  predicate Homeward(a: Tok, z: int) { a.pos.Flying? && a.t.Router(a.pos.h) == z ==> a.pos.h < 2 }

  lemma NextIs(T: Topo, g: Routing, a: Tok, h: nat)
    requires T.Valid() && TokOk(T, g, a) && h < 2
    ensures T.Down(Port(a.t.Router(h), a.t.Out(h))) == Some(NextPort(a.t, h)) &&
            NextPort(a.t, h).router != a.t.Router(h)
    ensures 0 <= a.t.Out(h) < T.npc[a.t.Router(h)] && T.ValidRouter(a.t.Router(h)) &&
            T.ValidRouter(NextPort(a.t, h).router)
  {
    T.WiredAt(Port(a.t.Router(h), a.t.Out(h)), NextPort(a.t, h));
  }

  // The flit of a is the only one due at router z.
  lemma OneCarried(T: Topo, g: Routing, s: Net, z: int, a: Tok, b: Tok) returns (u: Net)
    requires T.Valid() && Sized(T, s) && World(s, a, b) && Compatible(a.t, b.t) && TokOk(T, g, a) && TokOk(T, g, b)
    requires 0 <= z < |s.rs| && a.At(z) && DueAt(T, s.now, a) && Homeward(a, z) && !(b.At(z) && DueAt(T, s.now, b))
    ensures u == LTUpto(T, s, z, T.npc[z]) && World(u, Carried(T, s.now, z, a), b) && SameBooks(s, u)
  {
    var op, h := a.t.Out(a.pos.h), a.pos.h;
    var d := NextPort(a.t, h);
    NextIs(T, g, a, h);
    assert Stands(z, s.rs[z], a, b);
    forall op' ensures op' != op ==> !Due(T, s, z, op') { OneDue(T, g, s, z, a, b, op'); }
    OneDue(T, g, s, z, a, b, op);
    assert Link(s.rs[z].link, op) == [Wire(a.f, 0, a.pos.clk)];
    LTOnce(T, s, z, op, d, Wire(a.f, 0, a.pos.clk), T.npc[z]);
    u := LTUpto(T, s, z, T.npc[z]);
    ArriveWorld(T, g, s, u, z, a, b);
    BooksDelivered(s, u, z, op, d, Wire(a.f, 0, a.pos.clk));
  }

  lemma BooksDelivered(s: Net, u: Net, z: int, op: int, d: Port, w: Wire)
    requires 0 <= z < |s.rs| && 0 <= d.router < |s.rs| && d.router != z && Delivered(s, u, z, op, d, w)
    ensures SameBooks(s, u)
  {
    forall x | 0 <= x < |s.rs| && x != z && x != d.router ensures Kin(s.rs[x], u.rs[x]) {}
  }

  lemma NoneCarried(T: Topo, g: Routing, s: Net, z: int, a: Tok, b: Tok) returns (u: Net)
    requires T.Valid() && Sized(T, s) && World(s, a, b) && TokOk(T, g, a) && TokOk(T, g, b)
    requires 0 <= z < |s.rs| && !(a.At(z) && DueAt(T, s.now, a)) && !(b.At(z) && DueAt(T, s.now, b))
    ensures u == LTUpto(T, s, z, T.npc[z]) && World(u, a, b) && SameBooks(s, u)
  {
    assert Stands(z, s.rs[z], a, b);
    forall op | 0 <= op < T.npc[z] ensures !Due(T, s, z, op) { OneDue(T, g, s, z, a, b, op); }
    LTRuns(T, s, z, T.npc[z]);
    u := LTUpto(T, s, z, T.npc[z]);
    WithinWorld(s, u, z, a, b);
  }

  lemma WithinWorld(s: Net, u: Net, z: int, a: Tok, b: Tok)
    requires World(s, a, b) && Within(s, u, z) && u.rs[z].c == s.rs[z].c && u.rs[z].cred == s.rs[z].cred
    ensures World(u, a, b)
  {
    forall w | 0 <= w < |u.rs| ensures Stands(w, u.rs[w], a, b) && Purse(w, u.rs[w], a, b) {
      assert Stands(w, s.rs[w], a, b) && Purse(w, s.rs[w], a, b);
      if w == z { SameStands(z, s.rs[z], u.rs[z], a, b); }
    }
  }

  // stageLT.
  lemma LTWorld(T: Topo, g: Routing, s: Net, z: int, a: Tok, b: Tok) returns (u: Net)
    requires T.Valid() && Sized(T, s) && World(s, a, b) && Compatible(a.t, b.t) && TokOk(T, g, a) && TokOk(T, g, b)
    requires 0 <= z < |s.rs| && Homeward(a, z) && Homeward(b, z)
    requires !(a.At(z) && DueAt(T, s.now, a) && b.At(z) && DueAt(T, s.now, b))
    ensures u == LTUpto(T, s, z, T.npc[z]) && World(u, Carried(T, s.now, z, a), Carried(T, s.now, z, b)) &&
            SameBooks(s, u)
  {
    if a.At(z) && DueAt(T, s.now, a) {
      u := OneCarried(T, g, s, z, a, b);
    } else if b.At(z) && DueAt(T, s.now, b) {
      WorldSwap(T, g, s, a, b);
      u := OneCarried(T, g, s, z, b, a);
      WorldSwap(T, g, u, Carried(T, s.now, z, b), a);
    } else {
      u := NoneCarried(T, g, s, z, a, b);
    }
  }

  // ---------- stageST ----------

  // What stageST of router z makes of the flit.
  function Sent(T: Topo, now: int, z: int, a: Tok): Tok {
    if a.pos.Inside? && a.pos.st.S? && a.t.Router(a.pos.h) == z then
      a.To(if T.IsEject(z, a.t.Out(a.pos.h)) then Gone else Flying(a.pos.h, now))
    else a
  }

  predicate Crossing(a: Tok, z: int) { a.pos.Inside? && a.pos.st.S? && a.t.Router(a.pos.h) == z }

  // The credit that goes back for the flit.
  function Refund(T: Topo, now: int, a: Tok): Credit
    requires a.pos.Inside? && 0 < a.pos.h
  {
    var q := Port(a.t.Router(a.pos.h - 1), a.t.Out(a.pos.h - 1));
    Credit(q.pc, 0, 1, now + T.Lat(q))
  }

  // The deposits of router w after stageST of router z has read the flit of a.
  function Refunded(T: Topo, s: Net, w: int, a: Tok, z: int): seq<Credit>
    requires 0 <= w < |s.rs|
  {
    if Crossing(a, z) && a.pos.h > 0 && a.t.Router(a.pos.h - 1) == w then s.rs[w].deps + [Refund(T, s.now, a)]
    else s.rs[w].deps
  }

  function Behind(a: Tok): Option<Port>
    requires a.pos.Inside?
  {
    if a.pos.h == 0 then None else Some(Port(a.t.Router(a.pos.h - 1), a.t.Out(a.pos.h - 1)))
  }

  lemma KeyUp(T: Topo, g: Routing, a: Tok)
    requires T.Valid() && TokOk(T, g, a) && a.pos.Inside? && T.nvc >= 1
    ensures T.ValidVC(a.t.Router(a.pos.h), a.t.Key(a.pos.h))
    ensures T.Up(Port(a.t.Router(a.pos.h), a.t.Key(a.pos.h).pc)) == Behind(a)
    ensures a.pos.h > 0 ==> a.t.Router(a.pos.h - 1) != a.t.Router(a.pos.h) && a.t.Key(a.pos.h).vc == 0
  {
    if a.pos.h == 0 {
      NotFed(T, a.t.u, a.t.k.pc);
    } else {
      NextIs(T, g, a, a.pos.h - 1);
      T.WiredAt(Port(a.t.Router(a.pos.h - 1), a.t.Out(a.pos.h - 1)), NextPort(a.t, a.pos.h - 1));
    }
  }

  lemma OneWaits(z: int, rs: RouterState, a: Tok, b: Tok)
    requires Stands(z, rs, a, b) && Crossing(a, z) && !Crossing(b, z) && a.t.Key(a.pos.h).vc != INVALID_VC
    ensures var k := a.t.Key(a.pos.h);
            && OneWaiting(rs.c, k) && Waiting(rs.c, k.pc) == k.vc && Q(rs.c, k) == [a.f]
            && In(rs.c, k) == InMod(S, a.t.Out(a.pos.h), 0)
  {
    var k := a.t.Key(a.pos.h);
    assert a.Lies(z, k);
    assert Q(rs.c, k) == [a.f] && In(rs.c, k) == a.Mod();
    forall ip ensures Waiting(rs.c, ip) == if ip == k.pc then k.vc else INVALID_VC {}
  }

  lemma CrossStands(T: Topo, z: int, x: RouterState, a: Tok, b: Tok, now: int)
    requires Stands(z, x, a, b) && Crossing(a, z) && !Crossing(b, z) && Compatible(a.t, b.t) && a.f.kind == Atom
    requires a.t.Key(a.pos.h).vc != INVALID_VC && a.pos.h < 3 && (b.pos.Inside? || b.pos.Flying? ==> b.pos.h < 3)
    requires Waiting(x.c, a.t.Key(a.pos.h).pc) == a.t.Key(a.pos.h).vc && Q(x.c, a.t.Key(a.pos.h)) == [a.f]
    requires In(x.c, a.t.Key(a.pos.h)) == InMod(S, a.t.Out(a.pos.h), 0)
    ensures Stands(z, Cross(T, z, x, a.t.Key(a.pos.h).pc, now), Sent(T, now, z, a), b)
  {
    var k0, op := a.t.Key(a.pos.h), a.t.Out(a.pos.h);
    var a' := Sent(T, now, z, a);
    var y := Cross(T, z, x, k0.pc, now);
    forall k
      ensures Q(y.c, k) == if b.Lies(z, k) then [b.f] else []
      ensures In(y.c, k) == if b.Lies(z, k) then b.Mod() else InMod(I, INVALID_PC, INVALID_VC)
    {
      assert Q(x.c, k) == if a.Lies(z, k) then [a.f] else if b.Lies(z, k) then [b.f] else [];
      assert In(x.c, k) == if a.Lies(z, k) then a.Mod() else if b.Lies(z, k) then b.Mod()
                           else InMod(I, INVALID_PC, INVALID_VC);
    }
    forall ip ensures Waiting(y.c, ip) == INVALID_VC {
      assert Waiting(x.c, ip) == if a.Crosses(z, ip) then k0.vc else INVALID_VC;
    }
    forall op' ensures Link(y.link, op') ==
      if a'.Flies(z, op') then [Wire(a.f, 0, now)] else if b.Flies(z, op') then [Wire(b.f, 0, b.pos.clk)] else [] {
      assert Link(x.link, op') == if b.Flies(z, op') then [Wire(b.f, 0, b.pos.clk)] else [];
      assert Link(x.link, op) == [];
    }
    forall k ensures Pending(y, k) == [] { assert Pending(x, k) == []; }
  }

  // Router z has read nothing but what crossed, and has sent back the credits for it.
  ghost predicate SentBooks(T: Topo, s: Net, s': Net, z: int, a: Tok, b: Tok) {
    && 0 <= z < |s.rs| == |s'.rs| && s'.now == s.now
    && (forall w {:trigger s'.rs[w]} :: 0 <= w < |s.rs| ==>
          && s'.rs[w].ran == s.rs[w].ran && (w != z ==> s'.rs[w].c.got == s.rs[w].c.got)
          && s'.rs[w].deps == (if Crossing(a, z) then Refunded(T, s, w, a, z) else Refunded(T, s, w, b, z)))
    && (forall k {:trigger Got(s'.rs[z].c, k)} ::
          (Crossing(a, z) ==> k != a.t.Key(a.pos.h)) && (Crossing(b, z) ==> k != b.t.Key(b.pos.h)) ==>
            Got(s'.rs[z].c, k) == Got(s.rs[z].c, k))
  }

  lemma SentPaid(T: Topo, now: int, z: int, a: Tok)
    requires Crossing(a, z) && a.pos.h < 3
    ensures a.Paid() <= Sent(T, now, z, a).Paid()
    ensures a.pos.h > 0 ==> Port(a.t.Router(a.pos.h - 1), a.t.Out(a.pos.h - 1)) in a.Paid()
  {}

  // What becomes of router w.
  function SentTo(T: Topo, s: Net, z: int, a: Tok, w: int): RouterState
    requires 0 <= z < |s.rs| && 0 <= w < |s.rs| && Crossing(a, z)
    requires Q(s.rs[z].c, VC(a.t.Key(a.pos.h).pc, Waiting(s.rs[z].c, a.t.Key(a.pos.h).pc))) != []
  {
    if w == z then Cross(T, z, s.rs[z], a.t.Key(a.pos.h).pc, s.now)
    else if a.pos.h > 0 && a.t.Router(a.pos.h - 1) == w then Deposit(s.rs[w], Refund(T, s.now, a))
    else s.rs[w]
  }

  lemma PortSends(T: Topo, g: Routing, s: Net, z: int, a: Tok, w: int)
    requires T.Valid() && Sized(T, s) && 0 <= z < |s.rs| && 0 <= w < |s.rs| && TokOk(T, g, a) && T.nvc >= 1
    requires Crossing(a, z) && Waiting(s.rs[z].c, a.t.Key(a.pos.h).pc) == a.t.Key(a.pos.h).vc
    requires Q(s.rs[z].c, a.t.Key(a.pos.h)) == [a.f]
    ensures |STPort(T, s, z, a.t.Key(a.pos.h).pc).rs| == |s.rs| && STPort(T, s, z, a.t.Key(a.pos.h).pc).now == s.now
    ensures STPort(T, s, z, a.t.Key(a.pos.h).pc).rs[w] == SentTo(T, s, z, a, w)
  {
    KeyUp(T, g, a);
  }

  lemma SentAt(T: Topo, g: Routing, s: Net, z: int, a: Tok, b: Tok, w: int, y: RouterState)
    requires 0 <= z < |s.rs| && 0 <= w < |s.rs| && Stands(w, s.rs[w], a, b) && Purse(w, s.rs[w], a, b)
    requires Compatible(a.t, b.t) && TokOk(T, g, a) && TokOk(T, g, b)
    requires Crossing(a, z) && !Crossing(b, z) && a.t.Key(a.pos.h).vc != INVALID_VC
    requires Waiting(s.rs[z].c, a.t.Key(a.pos.h).pc) == a.t.Key(a.pos.h).vc && Q(s.rs[z].c, a.t.Key(a.pos.h)) == [a.f]
    requires In(s.rs[z].c, a.t.Key(a.pos.h)) == InMod(S, a.t.Out(a.pos.h), 0) && y == SentTo(T, s, z, a, w)
    ensures Stands(w, y, Sent(T, s.now, z, a), b) && Purse(w, y, Sent(T, s.now, z, a), b)
  {
    SentPaid(T, s.now, z, a);
    if w == z {
      CrossStands(T, z, s.rs[z], a, b, s.now);
    } else {
      SentElsewhere(T, s, w, z, a, b);
      SameStands(w, s.rs[w], y, Sent(T, s.now, z, a), b);
    }
  }

  lemma SentElsewhere(T: Topo, s: Net, w: int, z: int, a: Tok, b: Tok)
    requires 0 <= w < |s.rs| && Stands(w, s.rs[w], a, b) && Crossing(a, z) && w != z
    ensures Stands(w, s.rs[w], Sent(T, s.now, z, a), b)
  {}

  lemma OneSent(T: Topo, g: Routing, s: Net, z: int, a: Tok, b: Tok) returns (u: Net)
    requires T.Valid() && Sized(T, s) && World(s, a, b) && Compatible(a.t, b.t) && TokOk(T, g, a) && TokOk(T, g, b)
    requires 0 <= z < |s.rs| && Crossing(a, z) && !Crossing(b, z) && T.nvc >= 1
    ensures u == STUpto(T, s, z, T.npc[z]) && Sized(T, u) && World(u, Sent(T, s.now, z, a), b)
    ensures SentBooks(T, s, u, z, a, b)
  {
    var k := a.t.Key(a.pos.h);
    KeyUp(T, g, a);
    assert Stands(z, s.rs[z], a, b);
    OneWaits(z, s.rs[z], a, b);
    u := STLone(T, s, z, k);
    forall w | 0 <= w < |s.rs| ensures u.rs[w] == SentTo(T, s, z, a, w) { PortSends(T, g, s, z, a, w); }
    SentWorld(T, g, s, u, z, a, b);
    SentKeeps(T, s, u, z, a, b);
  }

  // Every router has become what stageST of router z makes of it.
  ghost predicate AllSent(T: Topo, s: Net, u: Net, z: int, a: Tok) {
    && 0 <= z < |s.rs| == |u.rs| && u.now == s.now && Crossing(a, z) && (a.pos.h > 0 ==> a.t.Router(a.pos.h - 1) != z)
    && Waiting(s.rs[z].c, a.t.Key(a.pos.h).pc) == a.t.Key(a.pos.h).vc && Q(s.rs[z].c, a.t.Key(a.pos.h)) == [a.f]
    && (forall w {:trigger u.rs[w]} :: 0 <= w < |s.rs| ==> u.rs[w] == SentTo(T, s, z, a, w))
  }

  lemma SentWorld(T: Topo, g: Routing, s: Net, u: Net, z: int, a: Tok, b: Tok)
    requires AllSent(T, s, u, z, a) && World(s, a, b) && Compatible(a.t, b.t) && TokOk(T, g, a) && TokOk(T, g, b)
    requires !Crossing(b, z) && a.t.Key(a.pos.h).vc != INVALID_VC
    requires In(s.rs[z].c, a.t.Key(a.pos.h)) == InMod(S, a.t.Out(a.pos.h), 0)
    ensures World(u, Sent(T, s.now, z, a), b)
  {
    forall w | 0 <= w < |s.rs|
      ensures Stands(w, u.rs[w], Sent(T, s.now, z, a), b) && Purse(w, u.rs[w], Sent(T, s.now, z, a), b)
    {
      assert Stands(w, s.rs[w], a, b) && Purse(w, s.rs[w], a, b);
      SentAt(T, g, s, z, a, b, w, u.rs[w]);
    }
  }

  lemma SentKeeps(T: Topo, s: Net, u: Net, z: int, a: Tok, b: Tok)
    requires AllSent(T, s, u, z, a) && !Crossing(b, z)
    ensures SentBooks(T, s, u, z, a, b)
  {
    assert u.rs[z] == SentTo(T, s, z, a, z);
    forall k | k != a.t.Key(a.pos.h) ensures Got(u.rs[z].c, k) == Got(s.rs[z].c, k) {}
  }

  // stageST.
  lemma STWorld(T: Topo, g: Routing, s: Net, z: int, a: Tok, b: Tok) returns (u: Net)
    requires T.Valid() && Sized(T, s) && World(s, a, b) && Compatible(a.t, b.t) && TokOk(T, g, a) && TokOk(T, g, b)
    requires 0 <= z < |s.rs| && !(Crossing(a, z) && Crossing(b, z)) && T.nvc >= 1
    ensures u == STUpto(T, s, z, T.npc[z]) && Sized(T, u)
    ensures World(u, Sent(T, s.now, z, a), Sent(T, s.now, z, b)) && SentBooks(T, s, u, z, a, b)
  {
    if Crossing(a, z) {
      u := OneSent(T, g, s, z, a, b);
    } else if Crossing(b, z) {
      WorldSwap(T, g, s, a, b);
      u := OneSent(T, g, s, z, b, a);
      WorldSwap(T, g, u, Sent(T, s.now, z, b), a);
    } else {
      assert Stands(z, s.rs[z], a, b);
      STNone(T, s, z, T.npc[z]);
      u := s;
    }
  }

  // ---------- the stages that only change router z ----------

  predicate IsHere(x: Tok, z: int) { x.pos.Inside? && x.t.Router(x.pos.h) == z }

  // The flit of y does nothing in these stages: if it is here it has just come.
  predicate Quiet(y: Tok, z: int) { IsHere(y, z) ==> y.pos.st.I? }

  // x has not crossed.
  ghost predicate Scene(T: Topo, g: Routing, s: Net, z: int, x: Tok, y: Tok) {
    && Inv(T, s) && World(s, x, y) && Compatible(x.t, y.t) && TokOk(T, g, x) && TokOk(T, g, y) && T.nvc >= 1
    && 0 <= z < |s.rs| && Quiet(y, z) && (IsHere(x, z) ==> !x.pos.st.S?)
  }

  function Step(x: Tok, st: InState): Tok
    requires x.pos.Inside?
  {
    x.To(Inside(x.pos.h, st))
  }

  // Nobody has asked for the switch but x, in state V.
  lemma OnlyAsks(T: Topo, g: Routing, s: Net, z: int, x: Tok, y: Tok, k: VC)
    requires Scene(T, g, s, z, x, y) && T.ValidVC(z, k) && k in s.rs[z].c.sw
    ensures IsHere(x, z) && x.pos.st.V? && k == x.t.Key(x.pos.h) && s.rs[z].c.sw[k].outPc == x.t.Out(x.pos.h)
    ensures Q(s.rs[z].c, k) == [x.f] && In(s.rs[z].c, k) == InMod(V, x.t.Out(x.pos.h), 0)
  {
    var c := s.rs[z].c;
    assert Control(T, z, c);
    assert InOk(T, z, c, k) && Stands(z, s.rs[z], x, y);
    assert Q(c, k) == if x.Lies(z, k) then [x.f] else if y.Lies(z, k) then [y.f] else [];
  }

  lemma SceneWaits(T: Topo, g: Routing, s: Net, z: int, x: Tok, y: Tok)
    requires Scene(T, g, s, z, x, y)
    ensures NoneWaiting(s.rs[z].c) && forall op :: 0 <= op < T.npc[z] ==> op !in s.rs[z].c.taken
  {
    var c := s.rs[z].c;
    assert Stands(z, s.rs[z], x, y);
    forall ip ensures Waiting(c, ip) == INVALID_VC {}
    assert Control(T, z, c);
    forall op | 0 <= op < T.npc[z] ensures op !in c.taken { assert XOk(T, z, c, op); }
  }

  // Some credit is usable: there is room behind the reserve, or with shared credits any room at all.
  predicate Funded(T: Topo) { T.nvc >= 1 && T.rsv <= T.depth && (if T.damq then T.depth >= 1 else T.depth > T.rsv) }

  lemma {:induction false} FreshSum(T: Topo, cred: map<VC, Cred>, op: int, n: nat)
    requires forall o :: o in cred ==> o.pc != op
    ensures SumCredit(T, cred, op, n) == n * (T.depth - T.rsv)
  {
    if n > 0 {
      FreshSum(T, cred, op, n - 1);
      assert n * (T.depth - T.rsv) == (n - 1) * (T.depth - T.rsv) + (T.depth - T.rsv);
    }
  }

  lemma FreshCredit(T: Topo, cred: map<VC, Cred>, op: int)
    requires Funded(T) && forall o :: o in cred ==> o.pc != op
    ensures HasCredit(T, cred, VC(op, 0))
  {
    FreshSum(T, cred, op, T.nvc);
    if T.depth > T.rsv { AtLeast(T.nvc, T.depth - T.rsv); }
  }

  // The port x wants has never been used, or leads out.
  ghost predicate Unused(T: Topo, x: Tok, y: Tok)
    requires x.pos.Inside?
  {
    var q := Port(x.t.Router(x.pos.h), x.t.Out(x.pos.h));
    T.IsEject(q.router, q.pc) || (Funded(T) && q !in x.Paid() + y.Paid())
  }

  lemma WayOut(T: Topo, g: Routing, x: Tok)
    requires T.Valid() && TokOk(T, g, x) && x.pos.Inside?
    ensures 0 <= x.t.Out(x.pos.h) < T.npc[x.t.Router(x.pos.h)] && T.Routable(x.t.Router(x.pos.h), x.t.Out(x.pos.h))
  {
    if x.pos.h < 2 { NextIs(T, g, x, x.pos.h); }
  }

  lemma SoleAsker(T: Topo, g: Routing, s: Net, z: int, x: Tok, y: Tok)
    requires Scene(T, g, s, z, x, y) && IsHere(x, z) && x.pos.st.V? && Unused(T, x, y)
    ensures AllFor(T, z, s.rs[z], x.t.Out(x.pos.h)) && x.t.Key(x.pos.h) in s.rs[z].c.sw
    ensures T.ValidVC(z, x.t.Key(x.pos.h))
  {
    var rs, k, op := s.rs[z], x.t.Key(x.pos.h), x.t.Out(x.pos.h);
    SceneWaits(T, g, s, z, x, y);
    KeyUp(T, g, x);
    WayOut(T, g, x);
    assert Stands(z, rs, x, y) && Control(T, z, rs.c);
    assert In(rs.c, k) == x.Mod() && InOk(T, z, rs.c, k);
    if !T.IsEject(z, op) {
      forall o | o in rs.cred ensures o.pc != op { assert Port(z, o.pc) in x.Paid() + y.Paid(); }
      FreshCredit(T, rs.cred, op);
    }
    forall k' | T.ValidVC(z, k') && k' in rs.c.sw
      ensures rs.c.sw[k'].outPc == op && Q(rs.c, k') != [] && k' == k && In(rs.c, k').outVc == 0
    {
      OnlyAsks(T, g, s, z, x, y, k');
    }
  }

  // Router z may have changed; x has become x'.
  ghost predicate Goes(s: Net, s': Net, z: int, x': Tok, y: Tok) {
    && Within(s, s', z) && World(s', x', y) && s'.rs[z].c.got == s.rs[z].c.got && s'.rs[z].ran == s.rs[z].ran
  }

  lemma GoesWorld(s: Net, s': Net, z: int, x: Tok, y: Tok, x': Tok)
    requires World(s, x, y) && Within(s, s', z) && x'.t == x.t && Stands(z, s'.rs[z], x', y) &&
             Purse(z, s'.rs[z], x', y)
    requires x'.f == x.f && x.Paid() <= x'.Paid() && IsHere(x, z) && IsHere(x', z)
    ensures World(s', x', y)
  {
    forall w | 0 <= w < |s'.rs| ensures Stands(w, s'.rs[w], x', y) && Purse(w, s'.rs[w], x', y) {
      if w != z {
        assert Stands(w, s.rs[w], x, y) && Purse(w, s.rs[w], x, y);
        ElsewhereStands(w, s.rs[w], x, y, x');
      }
    }
  }

  lemma ElsewhereStands(w: int, rs: RouterState, x: Tok, y: Tok, x': Tok)
    requires Stands(w, rs, x, y) && !x.At(w) && !x'.At(w)
    ensures Stands(w, rs, x', y)
  {}

  lemma TakeStands(T: Topo, g: Routing, z: int, rs: RouterState, x: Tok, y: Tok, now: int)
    requires Stands(z, rs, x, y) && Purse(z, rs, x, y) && Compatible(x.t, y.t) && TokOk(T, g, x) && TokOk(T, g, y)
    requires IsHere(x, z) && x.pos.st.V? && Quiet(y, z) && x.t.Key(x.pos.h) in rs.c.sw && NoneWaiting(rs.c)
    requires rs.c.sw[x.t.Key(x.pos.h)].outPc == x.t.Out(x.pos.h) && Q(rs.c, x.t.Key(x.pos.h)) == [x.f]
    ensures var rs' := Take(T, z, rs, x.t.Key(x.pos.h), now);
            Stands(z, rs', Step(x, S), y) && Purse(z, rs', Step(x, S), y)
  {
    var k, op := x.t.Key(x.pos.h), x.t.Out(x.pos.h);
    var rs', x' := Take(T, z, rs, k, now), Step(x, S);
    assert Port(z, op) in x'.Paid() && x.Paid() <= x'.Paid();
    forall k' ensures Q(rs'.c, k') == Q(rs.c, k') && Pending(rs', k') == [] { assert Pending(rs, k') == []; }
    forall k' ensures In(rs'.c, k') ==
      if x'.Lies(z, k') then x'.Mod() else if y.Lies(z, k') then y.Mod() else InMod(I, INVALID_PC, INVALID_VC) {
      assert In(rs.c, k') ==
        if x.Lies(z, k') then x.Mod() else if y.Lies(z, k') then y.Mod() else InMod(I, INVALID_PC, INVALID_VC);
    }
    forall ip ensures Waiting(rs'.c, ip) == if ip == k.pc then k.vc else INVALID_VC {
      assert Waiting(rs.c, ip) == INVALID_VC;
    }
  }

  // The request x makes in the stage.
  predicate Bids(s: Net, z: int, x: Tok, spec: bool)
    requires 0 <= z < |s.rs|
  {
    IsHere(x, z) && x.pos.st.V? && x.t.Key(x.pos.h) in s.rs[z].c.sw &&
      (spec ==> s.rs[z].c.sw[x.t.Key(x.pos.h)].clk == s.now)
  }

  lemma OneGrant(T: Topo, r: int, rs: RouterState, now: int, a: Arb, e: int, spec: bool, k: VC)
    requires T.ValidRouter(r) && ValidArb(a, T.npc[r], T.nvc) && AllFor(T, r, rs, e)
    requires T.ValidVC(r, k) && Wants(rs, now, spec, k) && forall k' :: T.ValidVC(r, k') && k' in rs.c.sw ==> k' == k
    ensures Grants(a, RoundOf(ViewOf(T, r, rs, now), rs.c.sw, spec), T.npc[r]) == [k]
  {
    var gs := GrantsOne(T, r, rs, now, a, e, spec);
    assert gs[0] in gs;
  }

  lemma GrantsHim(T: Topo, g: Routing, s: Net, z: int, x: Tok, y: Tok, a: Arb, spec: bool)
    requires Scene(T, g, s, z, x, y) && ValidArb(a, T.npc[z], T.nvc) && Bids(s, z, x, spec) && Unused(T, x, y)
    ensures Grants(a, Requests(T, z, s, spec), T.npc[z]) == [x.t.Key(x.pos.h)]
    ensures s.rs[z].c.sw[x.t.Key(x.pos.h)].outPc == x.t.Out(x.pos.h) && Q(s.rs[z].c, x.t.Key(x.pos.h)) == [x.f]
    ensures NoneWaiting(s.rs[z].c)
  {
    var k := x.t.Key(x.pos.h);
    SoleAsker(T, g, s, z, x, y);
    forall k' | T.ValidVC(z, k') && k' in s.rs[z].c.sw ensures k' == k { OnlyAsks(T, g, s, z, x, y, k'); }
    OnlyAsks(T, g, s, z, x, y, k);
    OneGrant(T, z, s.rs[z], s.now, a, x.t.Out(x.pos.h), spec, k);
  }

  lemma TakesIt(T: Topo, g: Routing, s: Net, z: int, x: Tok, y: Tok) returns (v: Net)
    requires Sized(T, s) && World(s, x, y) && Compatible(x.t, y.t) && TokOk(T, g, x) && TokOk(T, g, y)
    requires 0 <= z < |s.rs| && IsHere(x, z) && x.pos.st.V? && Quiet(y, z) && NoneWaiting(s.rs[z].c)
    requires var k := x.t.Key(x.pos.h);
             k in s.rs[z].c.sw && s.rs[z].c.sw[k].outPc == x.t.Out(x.pos.h) && Q(s.rs[z].c, k) == [x.f]
    ensures v == GrantUpto(T, s, z, [x.t.Key(x.pos.h)], 1) && Goes(s, v, z, Step(x, S), y)
  {
    var k := x.t.Key(x.pos.h);
    TakesOne(T, s, z, [k]);
    v := Upd(s, z, Take(T, z, s.rs[z], k, s.now));
    assert Stands(z, s.rs[z], x, y) && Purse(z, s.rs[z], x, y);
    TakeStands(T, g, z, s.rs[z], x, y, s.now);
    GoesWorld(s, v, z, x, y, Step(x, S));
  }

  // Only a flit in state V asks.
  lemma NobodyBids(T: Topo, g: Routing, s: Net, z: int, x: Tok, y: Tok, k: VC)
    requires Inv(T, s) && World(s, x, y) && 0 <= z < |s.rs| && Quiet(y, z) && !(IsHere(x, z) && x.pos.st.V?)
    requires T.ValidVC(z, k)
    ensures k !in s.rs[z].c.sw
  {
    var c := s.rs[z].c;
    assert Control(T, z, c);
    assert InOk(T, z, c, k) && Stands(z, s.rs[z], x, y);
    assert In(c, k) ==
      if x.Lies(z, k) then x.Mod() else if y.Lies(z, k) then y.Mod() else InMod(I, INVALID_PC, INVALID_VC);
    assert Waiting(c, k.pc) == if x.Crosses(z, k.pc) then x.t.Key(x.pos.h).vc else INVALID_VC;
  }

  lemma GrantsNothing(T: Topo, g: Routing, s: Net, z: int, x: Tok, y: Tok, a: Arb, spec: bool)
    requires Inv(T, s) && World(s, x, y) && 0 <= z < |s.rs| && ValidArb(a, T.npc[z], T.nvc)
    requires Quiet(y, z) && !(IsHere(x, z) && x.pos.st.V?)
    ensures Grants(a, Requests(T, z, s, spec), T.npc[z]) == []
  {
    forall k | T.ValidVC(z, k) ensures k !in s.rs[z].c.sw { NobodyBids(T, g, s, z, x, y, k); }
    GrantsNone(T, z, s.rs[z], s.now, a, spec);
  }

  // In what state the flit is after stageSA or stageSSA.
  function Granted(z: int, x: Tok): Tok { if IsHere(x, z) && x.pos.st.V? then Step(x, S) else x }

  // It is in state V only with a request of its own, and of this cycle in stageSSA.
  ghost predicate Bidding(s: Net, z: int, x: Tok, spec: bool)
    requires 0 <= z < |s.rs|
  {
    IsHere(x, z) && x.pos.st.V? ==> Bids(s, z, x, spec)
  }

  lemma GrantTravels(T: Topo, g: Routing, s: Net, z: int, x: Tok, y: Tok, a: Arb, spec: bool)
    returns (gs: seq<VC>, v: Net)
    requires Inv(T, s) && World(s, x, y) && Compatible(x.t, y.t) && TokOk(T, g, x) && TokOk(T, g, y) && T.nvc >= 1
    requires 0 <= z < |s.rs| && Quiet(y, z) && ValidArb(a, T.npc[z], T.nvc)
    requires Bidding(s, z, x, spec) && (x.pos.Inside? ==> x.pos.st.S? || Unused(T, x, y))
    ensures gs == Grants(a, Requests(T, z, s, spec), T.npc[z]) && v == GrantUpto(T, s, z, gs, |gs|)
    ensures Goes(s, v, z, Granted(z, x), y) && Inv(T, v)
  {
    assert Control(T, z, s.rs[z].c);
    GrantsServe(T, z, s.rs[z], s.now, spec, a);
    if IsHere(x, z) && x.pos.st.V? {
      GrantsHim(T, g, s, z, x, y, a, spec);
      gs := [x.t.Key(x.pos.h)];
      v := TakesIt(T, g, s, z, x, y);
    } else {
      GrantsNothing(T, g, s, z, x, y, a, spec);
      gs, v := [], s;
    }
    GrantUptoInv(T, s, z, spec, gs, |gs|);
  }

  // Only the input VC of x is given a port, while x is in state I and does not enter the router in this cycle.
  function Way(x: Tok, z: int, live: bool): VC -> Option<int> {
    if live && IsHere(x, z) && x.pos.st.I? then (k => if k == x.t.Key(x.pos.h) then Some(x.t.Out(x.pos.h)) else None)
    else (_ => None)
  }

  // In what state the flit is after stageRC, and after stageVA.
  function Routed(z: int, x: Tok, live: bool): Tok { if live && IsHere(x, z) && x.pos.st.I? then Step(x, R) else x }

  function Allocated(z: int, x: Tok): Tok { if IsHere(x, z) && x.pos.st.R? then Step(x, V) else x }

  // The flits of router z and its wires are the same, and so is what waits in the crossbar.
  ghost predicate SameContents(a: RouterState, b: RouterState) {
    && b.c.q == a.c.q && b.c.waiting == a.c.waiting && b.link == a.link && b.pending == a.pending && b.cred == a.cred
    && b.deps == a.deps
  }

  // x has only changed its state.
  lemma StateStands(z: int, a: RouterState, b: RouterState, x: Tok, y: Tok, x': Tok)
    requires Stands(z, a, x, y) && Purse(z, a, x, y) && SameContents(a, b) && x'.t == x.t && x'.f == x.f
    requires x' == x || (IsHere(x, z) && !x.pos.st.S? && IsHere(x', z) && !x'.pos.st.S? && x'.pos.h == x.pos.h)
    requires forall k {:trigger In(b.c, k)} :: In(b.c, k) ==
               if x'.Lies(z, k) then x'.Mod() else if y.Lies(z, k) then y.Mod() else InMod(I, INVALID_PC, INVALID_VC)
    ensures Stands(z, b, x', y) && Purse(z, b, x', y)
  {
    forall k ensures Q(b.c, k) == Q(a.c, k) && Pending(b, k) == [] { assert Pending(a, k) == []; }
    forall ip ensures Waiting(b.c, ip) == Waiting(a.c, ip) {}
  }

  lemma RouteStands(T: Topo, g: Routing, z: int, a: RouterState, c': Ctl, x: Tok, y: Tok, live: bool)
    requires Stands(z, a, x, y) && Purse(z, a, x, y) && Compatible(x.t, y.t) && TokOk(T, g, x) && TokOk(T, g, y)
    requires RoutedAll(T, z, a.c, c', Way(x, z, live)) && (IsHere(x, z) ==> T.ValidVC(z, x.t.Key(x.pos.h)))
    ensures Stands(z, a.(c := c'), Routed(z, x, live), y) && Purse(z, a.(c := c'), Routed(z, x, live), y)
  {
    var x', b := Routed(z, x, live), a.(c := c');
    forall k ensures In(c', k) ==
      if x'.Lies(z, k) then x'.Mod() else if y.Lies(z, k) then y.Mod() else InMod(I, INVALID_PC, INVALID_VC) {
      assert In(a.c, k) ==
        if x.Lies(z, k) then x.Mod() else if y.Lies(z, k) then y.Mod() else InMod(I, INVALID_PC, INVALID_VC);
      assert Q(a.c, k) == if x.Lies(z, k) then [x.f] else if y.Lies(z, k) then [y.f] else [];
    }
    if live && IsHere(x, z) && x.pos.st.I? { StateStands(z, a, b, x, y, x'); } else { StateStands(z, a, b, x, y, x); }
  }

  lemma RouteGoes(T: Topo, g: Routing, s: Net, z: int, x: Tok, y: Tok, live: bool) returns (v: Net)
    requires Sized(T, s) && World(s, x, y) && Compatible(x.t, y.t) && TokOk(T, g, x) && TokOk(T, g, y)
    requires 0 <= z < |s.rs| && (IsHere(x, z) ==> T.ValidVC(z, x.t.Key(x.pos.h)))
    ensures v == RouteUpto(T, s, z, Way(x, z, live), T.npc[z]) && Goes(s, v, z, Routed(z, x, live), y)
  {
    var c' := RouteIs(T, s, z, Way(x, z, live));
    v := Put(s, z, c');
    assert Stands(z, s.rs[z], x, y) && Purse(z, s.rs[z], x, y);
    RouteStands(T, g, z, s.rs[z], c', x, y, live);
    if live && IsHere(x, z) && x.pos.st.I? { GoesWorld(s, v, z, x, y, Step(x, R)); } else { SameGoes(s, v, z, x, y); }
  }

  lemma WayOk(T: Topo, g: Routing, z: int, x: Tok, live: bool)
    requires T.Valid() && TokOk(T, g, x)
    ensures RouteOk(T, z, Way(x, z, live))
  {
    if IsHere(x, z) { WayOut(T, g, x); }
  }

  lemma RoutesInv(T: Topo, s: Net, z: int, route: VC -> Option<int>)
    requires Inv(T, s) && 0 <= z < |s.rs| && RouteOk(T, z, route)
    ensures Inv(T, RouteUpto(T, s, z, route, T.npc[z]))
  {
    RouteUptoInv(T, s, z, route, T.npc[z]);
  }

  // stageRC.
  lemma RouteTravels(T: Topo, g: Routing, s: Net, z: int, x: Tok, y: Tok, live: bool) returns (v: Net)
    requires Inv(T, s) && World(s, x, y) && Compatible(x.t, y.t) && TokOk(T, g, x) && TokOk(T, g, y) && T.nvc >= 1
    requires 0 <= z < |s.rs|
    ensures v == RouteUpto(T, s, z, Way(x, z, live), T.npc[z]) && RouteOk(T, z, Way(x, z, live)) && Inv(T, v)
    ensures Goes(s, v, z, Routed(z, x, live), y)
  {
    WayOk(T, g, z, x, live);
    if IsHere(x, z) { KeyUp(T, g, x); }
    v := RouteGoes(T, g, s, z, x, y, live);
    RoutesInv(T, s, z, Way(x, z, live));
  }

  lemma SameGoes(s: Net, v: Net, z: int, x: Tok, y: Tok)
    requires World(s, x, y) && Within(s, v, z) && Stands(z, v.rs[z], x, y) && Purse(z, v.rs[z], x, y)
    ensures World(v, x, y)
  {
    forall w | 0 <= w < |v.rs| ensures Stands(w, v.rs[w], x, y) && Purse(w, v.rs[w], x, y) {
      assert Stands(w, s.rs[w], x, y) && Purse(w, s.rs[w], x, y);
    }
  }

  // An input module that is not idle belongs to one of the flits.
  lemma ModIs(z: int, rs: RouterState, x: Tok, y: Tok, k: VC)
    requires Stands(z, rs, x, y)
    ensures !In(rs.c, k).st.I? ==> (x.Lies(z, k) && In(rs.c, k) == x.Mod()) || (y.Lies(z, k) && In(rs.c, k) == y.Mod())
  {}

  lemma EntryTravels(T: Topo, s: Net, z: int, x: Tok, y: Tok, i: nat)
    requires Inv(T, s) && World(s, x, y) && 0 <= z < |s.rs| && Quiet(y, z) && i < |s.rs[z].c.reqQ|
    ensures IsHere(x, z) && x.pos.st.R? && s.rs[z].c.reqQ[i] == (x.t.Key(x.pos.h), x.t.Out(x.pos.h))
  {
    var c := s.rs[z].c;
    assert Control(T, z, c) && Stands(z, s.rs[z], x, y);
    ModIs(z, s.rs[z], x, y, c.reqQ[i].0);
  }

  // The VC arbiter's queue.
  lemma QueueTravels(T: Topo, g: Routing, s: Net, z: int, x: Tok, y: Tok)
    requires Inv(T, s) && World(s, x, y) && TokOk(T, g, x) && T.nvc >= 1 && 0 <= z < |s.rs| && Quiet(y, z)
    ensures s.rs[z].c.reqQ == if IsHere(x, z) && x.pos.st.R? then [(x.t.Key(x.pos.h), x.t.Out(x.pos.h))] else []
  {
    var c := s.rs[z].c;
    assert Control(T, z, c) && Stands(z, s.rs[z], x, y);
    if c.reqQ != [] {
      EntryTravels(T, s, z, x, y, 0);
      EntryTravels(T, s, z, x, y, |c.reqQ| - 1);
      assert |c.reqQ| == 1;
    }
    if IsHere(x, z) && x.pos.st.R? {
      KeyUp(T, g, x);
      assert In(c, x.t.Key(x.pos.h)) == x.Mod() && InOk(T, z, c, x.t.Key(x.pos.h));
    }
  }

  // Nobody holds an output VC of the port x asks for.
  lemma PortIdle(T: Topo, g: Routing, s: Net, z: int, x: Tok, y: Tok)
    requires Inv(T, s) && World(s, x, y) && 0 <= z < |s.rs| && Quiet(y, z) && IsHere(x, z) && x.pos.st.R?
    requires TokOk(T, g, x) && 0 <= x.t.Out(x.pos.h) < T.npc[z]
    ensures BusyBelow(T, s.rs[z].c, x.t.Out(x.pos.h), 0)
  {
    var c, op := s.rs[z].c, x.t.Out(x.pos.h);
    assert Control(T, z, c) && Stands(z, s.rs[z], x, y);
    forall ov | 0 <= ov < T.nvc ensures VC(op, ov) !in c.busy {
      assert OutOk(T, z, c, VC(op, ov));
    }
  }

  lemma HouseStands(z: int, a: RouterState, c': Ctl, x: Tok, y: Tok, now: int)
    requires Stands(z, a, x, y) && Purse(z, a, x, y) && IsHere(x, z) && x.pos.st.R?
    requires a.c.reqQ == [(x.t.Key(x.pos.h), x.t.Out(x.pos.h))] && HousedAll(a.c, c', x.t.Out(x.pos.h), 0, now)
    ensures Stands(z, a.(c := c'), Step(x, V), y) && Purse(z, a.(c := c'), Step(x, V), y)
  {
    var x' := Step(x, V);
    forall k ensures In(c', k) ==
      if x'.Lies(z, k) then x'.Mod() else if y.Lies(z, k) then y.Mod() else InMod(I, INVALID_PC, INVALID_VC) {
      assert In(a.c, k) ==
        if x.Lies(z, k) then x.Mod() else if y.Lies(z, k) then y.Mod() else InMod(I, INVALID_PC, INVALID_VC);
      if k == x.t.Key(x.pos.h) { assert a.c.reqQ[0].0 == k; } else { assert !InQueue(a.c, k); }
    }
    StateStands(z, a, a.(c := c'), x, y, x');
  }

  // stageVA: the request of x, if there is one, gets VC 0, and asks for the switch in this cycle.
  lemma AllocateTravels(T: Topo, g: Routing, s: Net, z: int, x: Tok, y: Tok) returns (v: Net)
    requires Inv(T, s) && World(s, x, y) && TokOk(T, g, x) && T.nvc >= 1 && 0 <= z < |s.rs| && Quiet(y, z)
    ensures v == VAFrom(T, s, z, Accept(), 0) && Goes(s, v, z, Allocated(z, x), y) && Inv(T, v)
    ensures IsHere(x, z) && x.pos.st.R? ==> Bids(v, z, Step(x, V), true)
  {
    QueueTravels(T, g, s, z, x, y);
    if IsHere(x, z) && x.pos.st.R? {
      WayOut(T, g, x);
      PortIdle(T, g, s, z, x, y);
      v := AllocatesIt(T, s, z, x, y);
    } else {
      v := s;
    }
    VAFromInv(T, s, z, Accept(), 0);
  }

  lemma AllocatesIt(T: Topo, s: Net, z: int, x: Tok, y: Tok) returns (v: Net)
    requires Sized(T, s) && World(s, x, y) && 0 <= z < |s.rs| && IsHere(x, z) && x.pos.st.R? && T.nvc >= 1
    requires s.rs[z].c.reqQ == [(x.t.Key(x.pos.h), x.t.Out(x.pos.h))]
    requires BusyBelow(T, s.rs[z].c, x.t.Out(x.pos.h), 0)
    ensures v == VAFrom(T, s, z, Accept(), 0) && Goes(s, v, z, Step(x, V), y)
    ensures Bids(v, z, Step(x, V), true)
  {
    var c' := VAHouses(T, s, z, Accept(), x.t.Out(x.pos.h), 0);
    v := Put(s, z, c');
    assert Stands(z, s.rs[z], x, y) && Purse(z, s.rs[z], x, y);
    HouseStands(z, s.rs[z], c', x, y, s.now);
    GoesWorld(s, v, z, x, y, Step(x, V));
    assert s.rs[z].c.reqQ[0].0 == x.t.Key(x.pos.h);
  }

  // ---------- one call of router_sim ----------

  // The input VC of a flit in state I has been read as often as it was at the start of the cycle; the flit was
  // there already, or has come since.
  ghost predicate Dated(start: Net, c: Ctl, z: int, x: Tok, live: bool)
    requires 0 <= z < |start.rs|
  {
    IsHere(x, z) && x.pos.st.I? ==> (live <==> !EnteredNow(start, z, c, x.t.Key(x.pos.h)))
  }

  lemma LegHas(T: Topo, g: Routing, x: Tok)
    requires TokOk(T, g, x) && x.pos.Inside?
    ensures MaySend(T, g, x.t.Router(x.pos.h), x.t.Key(x.pos.h), x.f.pkt, x.t.Out(x.pos.h))
  {}

  lemma WayExact(T: Topo, g: Routing, start: Net, s: Net, z: int, x: Tok, y: Tok, live: bool)
    requires World(s, x, y) && Compatible(x.t, y.t) && TokOk(T, g, x) && TokOk(T, g, y) && 0 <= z < |s.rs|
    requires Quiet(y, z) && 0 <= z < |start.rs| && Dated(start, s.rs[z].c, z, x, live)
    requires Dated(start, s.rs[z].c, z, y, false)
    ensures ExactRoute(g, start, z, s.rs[z].c, Way(x, z, live))
  {
    var c := s.rs[z].c;
    assert Stands(z, s.rs[z], x, y);
    if IsHere(x, z) { LegHas(T, g, x); }
    forall k | HeadWaits(c, k)
      ensures if EnteredNow(start, z, c, k) then Way(x, z, live)(k).None?
              else Way(x, z, live)(k).Some? && g.out(z, k, Q(c, k)[0].pkt, Way(x, z, live)(k).value)
    {
      assert Q(c, k) == if x.Lies(z, k) then [x.f] else if y.Lies(z, k) then [y.f] else [];
      assert In(c, k) ==
        if x.Lies(z, k) then x.Mod() else if y.Lies(z, k) then y.Mod() else InMod(I, INVALID_PC, INVALID_VC);
    }
  }

  lemma AdmitExact(T: Topo, g: Routing, s: Net, z: int, x: Tok, y: Tok)
    requires Inv(T, s) && World(s, x, y) && TokOk(T, g, x) && T.nvc >= 1 && 0 <= z < |s.rs| && Quiet(y, z)
    ensures ExactAdmit(T, g, z, s.rs[z].c, Accept())
  {
    var c := s.rs[z].c;
    QueueTravels(T, g, s, z, x, y);
    assert Stands(z, s.rs[z], x, y);
    if IsHere(x, z) { LegHas(T, g, x); }
    forall k, op, ov | 0 <= ov < T.nvc && (k, op) in c.reqQ && Q(c, k) != []
      ensures g.admits(z, k, Q(c, k)[0].pkt, op, ov)
    {
      assert Q(c, k) == if x.Lies(z, k) then [x.f] else if y.Lies(z, k) then [y.f] else [];
    }
  }

  // What the later stages make of the flit.
  function MidTok(T: Topo, z: int, x: Tok, live: bool): Tok {
    Allocated(z, if T.lookahead then Routed(z, Granted(z, x), live) else Granted(z, x))
  }

  function EndTok(T: Topo, z: int, x: Tok, live: bool): Tok {
    var x1 := MidTok(T, z, x, live);
    var x2 := if T.spec then Granted(z, x1) else x1;
    if T.lookahead then x2 else Routed(z, x2, live)
  }

  lemma Asking(T: Topo, g: Routing, s: Net, z: int, x: Tok, y: Tok)
    requires Inv(T, s) && World(s, x, y) && TokOk(T, g, x) && T.nvc >= 1 && 0 <= z < |s.rs|
    ensures Bidding(s, z, x, false)
  {
    if IsHere(x, z) && x.pos.st.V? {
      KeyUp(T, g, x);
      assert Control(T, z, s.rs[z].c) && Stands(z, s.rs[z], x, y);
      assert In(s.rs[z].c, x.t.Key(x.pos.h)) == x.Mod() && InOk(T, z, s.rs[z].c, x.t.Key(x.pos.h));
    }
  }

  // A router that runs: x is what moves in it, if anything does.
  ghost predicate Turn(T: Topo, g: Routing, s: Net, start: Net, z: int, x: Tok, y: Tok, live: bool) {
    && Inv(T, s) && World(s, x, y) && Compatible(x.t, y.t) && TokOk(T, g, x) && TokOk(T, g, y) && T.nvc >= 1
    && 0 <= z < |s.rs| && 0 <= z < |start.rs| && Quiet(y, z)
    && Dated(start, s.rs[z].c, z, x, live) && Dated(start, s.rs[z].c, z, y, false)
    && (x.pos.Inside? ==> x.pos.st.S? || Unused(T, x, y))
  }

  lemma TurnNext(T: Topo, g: Routing, s: Net, v: Net, start: Net, z: int, x: Tok, y: Tok, live: bool, x': Tok)
    requires Turn(T, g, s, start, z, x, y, live) && Goes(s, v, z, x', y) && Inv(T, v) && x'.t == x.t && x'.f == x.f
    requires x' == x || (IsHere(x, z) && IsHere(x', z) && x'.pos.h == x.pos.h && !x.pos.st.S? && !x'.pos.st.I?)
    ensures Turn(T, g, v, start, z, x', y, live)
  {}

  // stageSA, stageRC with look-ahead, and stageVA.
  lemma MiddleTravels(T: Topo, g: Routing, s: Net, start: Net, z: int, x: Tok, y: Tok, live: bool, a: Arb)
    returns (ch: Choice, v: Net)
    requires Turn(T, g, s, start, z, x, y, live) && ValidArb(a, T.npc[z], T.nvc)
    ensures ch == Choice(Way(x, z, live), Accept(), Grants(a, Requests(T, z, s, false), T.npc[z]), [])
    ensures v == Middle(T, s, z, ch) && Turn(T, g, v, start, z, MidTok(T, z, x, live), y, live)
    ensures Goes(s, v, z, MidTok(T, z, x, live), y) && Bidding(v, z, MidTok(T, z, x, live), true)
    ensures ExactAdmit(T, g, z, BeforeVA(T, s, z, ch).rs[z].c, ch.admit)
    ensures T.lookahead ==> ExactRoute(g, start, z, BeforeRC(T, s, z, ch).rs[z].c, ch.route)
  {
    Asking(T, g, s, z, x, y);
    var gs, u1 := GrantTravels(T, g, s, z, x, y, a, false);
    ch := Choice(Way(x, z, live), Accept(), gs, []);
    var x1 := Granted(z, x);
    TurnNext(T, g, s, u1, start, z, x, y, live, x1);
    var u2, x2 := u1, x1;
    if T.lookahead {
      SameWay(x, z, live);
      WayExact(T, g, start, u1, z, x1, y, live);
      u2 := RouteTravels(T, g, u1, z, x1, y, live);
      x2 := Routed(z, x1, live);
      TurnNext(T, g, u1, u2, start, z, x1, y, live, x2);
    }
    AdmitExact(T, g, u2, z, x2, y);
    v := AllocateTravels(T, g, u2, z, x2, y);
    TurnNext(T, g, u2, v, start, z, x2, y, live, Allocated(z, x2));
    WithinTrans(s, u1, u2, z);
    WithinTrans(s, u2, v, z);
  }

  lemma SameWay(x: Tok, z: int, live: bool)
    ensures Way(Granted(z, x), z, live) == Way(x, z, live)
  {}

  // stageSSA, and stageRC without look-ahead; v is the state after stageVA.
  lemma BackTravels(T: Topo, g: Routing, v: Net, start: Net, z: int, x0: Tok, x: Tok, y: Tok, live: bool, a: Arb)
    returns (ssa: seq<VC>, u: Net, w: Net)
    requires Turn(T, g, v, start, z, x, y, live) && ValidArb(a, T.npc[z], T.nvc) && Bidding(v, z, x, true)
    requires x == MidTok(T, z, x0, live)
    ensures T.spec ==> ssa == Grants(a, Requests(T, z, v, true), T.npc[z])
    ensures u == if T.spec then GrantUpto(T, v, z, ssa, |ssa|) else v
    ensures w == if T.lookahead then u else RouteUpto(T, u, z, Way(x0, z, live), T.npc[z])
    ensures !T.lookahead ==> ExactRoute(g, start, z, u.rs[z].c, Way(x0, z, live))
    ensures Goes(v, w, z, EndTok(T, z, x0, live), y) && Sized(T, u) && Sized(T, w)
  {
    ssa, u := [], v;
    var x1 := x;
    if T.spec {
      ssa, u := GrantTravels(T, g, v, z, x, y, a, true);
      x1 := Granted(z, x);
      TurnNext(T, g, v, u, start, z, x, y, live, x1);
    }
    w := u;
    if !T.lookahead {
      SameWayLater(T, z, x0, live);
      WayExact(T, g, start, u, z, x1, y, live);
      w := RouteTravels(T, g, u, z, x1, y, live);
      WithinTrans(v, u, w, z);
    }
  }

  lemma SameWayLater(T: Topo, z: int, x: Tok, live: bool)
    requires !T.lookahead
    ensures Way(MidTok(T, z, x, live), z, live) == Way(x, z, live)
    ensures Way(Granted(z, MidTok(T, z, x, live)), z, live) == Way(x, z, live)
  {}

  lemma RearTravels(T: Topo, g: Routing, m: Moment, f: Net, z: int, x: Tok, y: Tok, live: bool)
    returns (ch: Choice, v: Net, u: Net, w: Net)
    requires Timed(T, m) && 0 <= z < |m.net.rs| && f == Front(T, m.net, z) && Turn(T, g, f, m.start, z, x, y, live)
    ensures Course(T, g, m, z, ch, v, u, w) && Goes(f, w, z, EndTok(T, z, x, live), y)
  {
    ch, v := MiddleTravels(T, g, f, m.start, z, x, y, live, m.arbs[z].regular);
    var ssa;
    ssa, u, w := BackTravels(T, g, v, m.start, z, x, MidTok(T, z, x, live), y, live, m.arbs[z].speculative);
    ch := ch.(ssa := ssa);
    WayOk(T, g, z, x, live);
    WithinTrans(f, v, w, z);
  }

  // ---------- the first stages of router_sim ----------

  // What the first stages make of the flit.
  function Fore(T: Topo, now: int, z: int, x: Tok): Tok { Sent(T, now, z, Carried(T, now, z, x)) }

  // The deposits of router w after the stages of router z.
  function Deposits(T: Topo, s: Net, w: int, x: Tok, y: Tok, z: int): seq<Credit>
    requires 0 <= w < |s.rs|
  {
    if Crossing(x, z) then Refunded(T, s, w, x, z) else Refunded(T, s, w, y, z)
  }

  // Nobody has run; nothing has been read but what crossed; the deposits are what they were, with the credit for
  // what crossed, but for those router z has taken.
  ghost predicate ForeBooks(T: Topo, s: Net, u: Net, z: int, x: Tok, y: Tok) {
    && 0 <= z < |s.rs| == |u.rs| && u.now == s.now
    && (forall w {:trigger u.rs[w]} :: 0 <= w < |s.rs| ==>
          && u.rs[w].ran == s.rs[w].ran && (w != z ==> u.rs[w].c.got == s.rs[w].c.got)
          && (w != z || s.rs[z].deps == [] || s.rs[z].deps[0].clk > s.now ==>
              u.rs[w].deps == Deposits(T, s, w, x, y, z)))
    && (forall k {:trigger Got(u.rs[z].c, k)} ::
          (Crossing(x, z) ==> k != x.t.Key(x.pos.h)) && (Crossing(y, z) ==> k != y.t.Key(y.pos.h)) ==>
            Got(u.rs[z].c, k) == Got(s.rs[z].c, k))
  }

  // Only one of the two flits is due, or crosses, at router z.
  ghost predicate OneMoves(T: Topo, now: int, z: int, x: Tok, y: Tok) {
    && Homeward(x, z) && Homeward(y, z) && !(x.At(z) && DueAt(T, now, x) && y.At(z) && DueAt(T, now, y))
    && !(Crossing(x, z) && Crossing(y, z))
  }

  lemma BooksJoin(T: Topo, s: Net, s1: Net, s2: Net, u: Net, z: int, x: Tok, y: Tok)
    requires CreditsOnly(s, s1, z) && SameBooks(s1, s2)
    requires SentBooks(T, s2, u, z, Carried(T, s.now, z, x), Carried(T, s.now, z, y))
    requires s.rs[z].deps == [] || s.rs[z].deps[0].clk > s.now ==> s1 == s
    requires OneMoves(T, s.now, z, x, y)
    ensures ForeBooks(T, s, u, z, x, y)
  {
    forall w | 0 <= w < |s.rs|
      ensures u.rs[w].ran == s.rs[w].ran && (w != z ==> u.rs[w].c.got == s.rs[w].c.got)
      ensures w != z || s.rs[z].deps == [] || s.rs[z].deps[0].clk > s.now ==> u.rs[w].deps == Deposits(T, s, w, x, y, z)
    {
      assert s2.rs[w].deps == s1.rs[w].deps && s2.rs[w].ran == s1.rs[w].ran;
      assert w != z ==> s1.rs[w] == s.rs[w];
    }
    forall k
      ensures (Crossing(x, z) ==> k != x.t.Key(x.pos.h)) && (Crossing(y, z) ==> k != y.t.Key(y.pos.h)) ==>
                Got(u.rs[z].c, k) == Got(s.rs[z].c, k)
    {
      assert Got(s2.rs[z].c, k) == Got(s1.rs[z].c, k);
    }
  }

  lemma AsksNone(T: Topo, g: Routing, s: Net, z: int, x: Tok, y: Tok)
    requires Sized(T, s) && World(s, x, y) && TokOk(T, g, x) && TokOk(T, g, y) && 0 <= z < |s.rs|
    ensures Ask(T, s, z) == s
  {
    var ks := FreeKeys(s.rs[z].c.sw, T.npc[z], T.nvc);
    assert Stands(z, s.rs[z], x, y);
    forall k ensures !Asks(s.rs[z].c, k) {
      assert Q(s.rs[z].c, k) == if x.Lies(z, k) then [x.f] else if y.Lies(z, k) then [y.f] else [];
    }
    AskNone(s, z, ks, |ks|);
  }

  lemma ForeTravels(T: Topo, g: Routing, s: Net, z: int, x: Tok, y: Tok) returns (u: Net)
    requires T.Valid() && Sized(T, s) && World(s, x, y) && Compatible(x.t, y.t) && TokOk(T, g, x) && TokOk(T, g, y)
    requires T.nvc >= 1 && 0 <= z < |s.rs| && OneMoves(T, s.now, z, x, y)
    ensures u == Front(T, s, z) && World(u, Fore(T, s.now, z, x), Fore(T, s.now, z, y)) && ForeBooks(T, s, u, z, x, y)
  {
    IncWorld(T, s, z, x, y);
    var s1 := IncAll(T, s, z);
    var s2 := LTWorld(T, g, s1, z, x, y);
    CarriedOk(T, g, s.now, z, x);
    CarriedOk(T, g, s.now, z, y);
    u := STWorld(T, g, s2, z, Carried(T, s.now, z, x), Carried(T, s.now, z, y));
    BooksJoin(T, s, s1, s2, u, z, x, y);
    AsksNone(T, g, u, z, Fore(T, s.now, z, x), Fore(T, s.now, z, y));
  }

  lemma CarriedOk(T: Topo, g: Routing, now: int, z: int, x: Tok)
    requires TokOk(T, g, x) && Homeward(x, z)
    ensures TokOk(T, g, Carried(T, now, z, x)) && TokOk(T, g, Fore(T, now, z, x))
    ensures Crossing(Carried(T, now, z, x), z) ==> Crossing(x, z) && Carried(T, now, z, x) == x
  {}

  // ---------- a router runs ----------

  // What router z makes of the flit in one call.
  function Moved(T: Topo, now: int, z: int, x: Tok, live: bool): Tok { EndTok(T, z, Fore(T, now, z, x), live) }

  // No port is used twice.
  ghost predicate Separate(T: Topo, a: Trip, b: Trip) {
    forall n: nat {:trigger a.Router(n)} :: n < 3 ==>
      T.IsEject(a.Router(n), a.Out(n)) || (Funded(T) && Port(a.Router(n), a.Out(n)) !in a.Ports(n) + b.Ports(3))
  }

  // The two flits, and the routing that takes them along their ways.
  ghost predicate Pair(T: Topo, g: Routing, x: Tok, y: Tok) {
    && T.Valid() && T.nvc >= 1 && TokOk(T, g, x) && TokOk(T, g, y) && Compatible(x.t, y.t) && Compatible(y.t, x.t)
    && Separate(T, x.t, y.t) && Separate(T, y.t, x.t)
  }

  lemma PaidPorts(y: Tok)
    ensures y.Paid() <= y.t.Ports(3)
  {}

  lemma SeparateUnused(T: Topo, g: Routing, x: Tok, y: Tok)
    requires Pair(T, g, x, y) && x.pos.Inside?
    ensures x.pos.st.S? || Unused(T, x, y)
  {
    PaidPorts(y);
    assert x.t.Router(x.pos.h) == x.t.Router(x.pos.h);
  }

  // Where the flits were when the cycle began: those that are not there any more have moved.
  ghost predicate Since(start: Net, s: Net, z: int, x: Tok, y: Tok, live: bool)
    requires 0 <= z < |start.rs| && z < |s.rs|
  {
    && s.rs[z].c.got == start.rs[z].c.got
    && (IsHere(x, z) ==>
          && Q(start.rs[z].c, x.t.Key(x.pos.h)) == (if live then [x.f] else [])
          && (!live ==> x.pos.st.I?))
  }

  // Nothing has been read at router z but what crossed.
  ghost predicate GotKept(s: Net, u: Net, z: int, x: Tok, y: Tok) {
    && 0 <= z < |s.rs| && z < |u.rs|
    && (forall k {:trigger Got(u.rs[z].c, k)} ::
          (Crossing(x, z) ==> k != x.t.Key(x.pos.h)) && (Crossing(y, z) ==> k != y.t.Key(y.pos.h)) ==>
            Got(u.rs[z].c, k) == Got(s.rs[z].c, k))
  }

  lemma SinceDated(start: Net, s: Net, u: Net, z: int, x: Tok, y: Tok, live: bool, x': Tok)
    requires 0 <= z < |start.rs| && z < |s.rs| && Since(start, s, z, x, y, live)
    requires GotKept(s, u, z, x, y) || GotKept(s, u, z, y, x)
    requires Compatible(x.t, y.t) && (x.pos.Inside? ==> x.pos.h < 3) && (y.pos.Inside? ==> y.pos.h < 3)
    requires IsHere(x', z) ==> x' == x
    ensures Dated(start, u.rs[z].c, z, x', live)
  {
    if IsHere(x', z) && x'.pos.st.I? {
      var k := x.t.Key(x.pos.h);
      assert Got(u.rs[z].c, k) == Got(s.rs[z].c, k) == Got(start.rs[z].c, k);
    }
  }

  lemma ForeHere(T: Topo, g: Routing, now: int, z: int, x: Tok)
    requires T.Valid() && TokOk(T, g, x) && Homeward(x, z)
    ensures IsHere(Fore(T, now, z, x), z) ==> Fore(T, now, z, x) == x && !x.pos.st.S?
  {
    if x.pos.Flying? && x.pos.h < 2 { NextIs(T, g, x, x.pos.h); }
  }

  // Not both flits have something to do inside the router.
  ghost predicate OneActs(z: int, x: Tok, y: Tok, lx: bool, ly: bool) {
    !(IsHere(x, z) && lx && !x.pos.st.S? && IsHere(y, z) && ly && !y.pos.st.S?)
  }

  // The flits do not get in each other's way at router z.
  ghost predicate Apart(T: Topo, g: Routing, start: Net, s: Net, z: int, x: Tok, y: Tok, lx: bool, ly: bool) {
    && 0 <= z < |s.rs| && z < |start.rs| && Pair(T, g, x, y) && OneMoves(T, s.now, z, x, y) && OneActs(z, x, y, lx, ly)
    && Since(start, s, z, x, y, lx) && Since(start, s, z, y, x, ly)
  }

  lemma ApartSwap(T: Topo, g: Routing, start: Net, s: Net, z: int, x: Tok, y: Tok, lx: bool, ly: bool)
    requires Apart(T, g, start, s, z, x, y, lx, ly)
    ensures Apart(T, g, start, s, z, y, x, ly, lx)
  {}

  // The moment before router z runs.
  ghost predicate Poised(T: Topo, g: Routing, m: Moment, z: int, x: Tok, y: Tok, lx: bool, ly: bool) {
    && Timed(T, m) && Good(T, m.net) && 0 <= z < |m.net.rs| && m.net.rs[z].ran < m.net.now && World(m.net, x, y)
    && Apart(T, g, m.start, m.net, z, x, y, lx, ly)
  }

  // The router has run.
  ghost predicate HasRun(T: Topo, s: Net, s': Net, z: int, x: Tok, y: Tok, x': Tok, y': Tok) {
    && 0 <= z < |s.rs| == |s'.rs| && s'.now == s.now && World(s', x', y') && s'.rs[z].ran == s.now
    && (forall w {:trigger s'.rs[w]} :: 0 <= w < |s.rs| ==>
          && (w != z ==> s'.rs[w].ran == s.rs[w].ran && s'.rs[w].c.got == s.rs[w].c.got)
          && (w != z || s.rs[z].deps == [] || s.rs[z].deps[0].clk > s.now ==>
              s'.rs[w].deps == Deposits(T, s, w, x, y, z)))
  }

  // x is what moves after the first stages, if anything does.
  lemma RunsWith(T: Topo, g: Routing, m: Moment, z: int, x: Tok, y: Tok, x1: Tok, y1: Tok, f: Net, live: bool)
    returns (ch: Choice)
    requires Timed(T, m) && 0 <= z < |m.net.rs| && f == Front(T, m.net, z) && ForeBooks(T, m.net, f, z, x, y)
    requires Turn(T, g, f, m.start, z, x1, y1, live)
    ensures ExactChoice(T, g, m, z, ch)
    ensures HasRun(T, m.net, RouterSim(T, m.net, z, ch), z, x, y, EndTok(T, z, x1, live), y1)
  {
    var v, u, w;
    ch, v, u, w := RearTravels(T, g, m, f, z, x1, y1, live);
    CourseRuns(T, g, m, z, ch, v, u, w);
    StampedRun(T, m.net, f, w, z, x, y, EndTok(T, z, x1, live), y1);
  }

  lemma StampedRun(T: Topo, s: Net, f: Net, w: Net, z: int, x: Tok, y: Tok, x': Tok, y': Tok)
    requires ForeBooks(T, s, f, z, x, y) && Goes(f, w, z, x', y')
    ensures HasRun(T, s, Upd(w, z, w.rs[z].(ran := w.now)), z, x, y, x', y')
  {
    var s' := Upd(w, z, w.rs[z].(ran := w.now));
    forall v | 0 <= v < |s'.rs| ensures Stands(v, s'.rs[v], x', y') && Purse(v, s'.rs[v], x', y') {
      assert Stands(v, w.rs[v], x', y') && Purse(v, w.rs[v], x', y');
      if v == z { SameStands(z, w.rs[z], s'.rs[z], x', y'); }
    }
    forall v | 0 <= v < |s.rs|
      ensures v != z ==> s'.rs[v].ran == s.rs[v].ran && s'.rs[v].c.got == s.rs[v].c.got
      ensures v != z || s.rs[z].deps == [] || s.rs[z].deps[0].clk > s.now ==>
              s'.rs[v].deps == Deposits(T, s, v, x, y, z)
    {
      assert f.rs[v].ran == s.rs[v].ran && (v != z ==> w.rs[v] == f.rs[v]);
    }
  }

  lemma RestsThen(T: Topo, z: int, y: Tok, live: bool)
    requires IsHere(y, z) ==> y.pos.st.I? && !live
    ensures EndTok(T, z, y, live) == y
  {}

  lemma ForePair(T: Topo, g: Routing, now: int, z: int, x: Tok, y: Tok)
    requires Pair(T, g, x, y) && Homeward(x, z) && Homeward(y, z)
    ensures Pair(T, g, Fore(T, now, z, x), Fore(T, now, z, y))
    ensures var x1 := Fore(T, now, z, x); x1.pos.Inside? ==> x1.pos.st.S? || Unused(T, x1, Fore(T, now, z, y))
  {
    CarriedOk(T, g, now, z, x);
    CarriedOk(T, g, now, z, y);
    var x1, y1 := Fore(T, now, z, x), Fore(T, now, z, y);
    assert x1.t == x.t && y1.t == y.t;
    if x1.pos.Inside? { SeparateUnused(T, g, x1, y1); }
  }

  // Whatever lies here after the first stages was or was not here when the cycle began.
  lemma ForeDated(T: Topo, g: Routing, start: Net, s: Net, f: Net, z: int, x: Tok, y: Tok, lx: bool, ly: bool)
    requires Apart(T, g, start, s, z, x, y, lx, ly) && (GotKept(s, f, z, x, y) || GotKept(s, f, z, y, x))
    ensures Dated(start, f.rs[z].c, z, Fore(T, s.now, z, x), lx) && Dated(start, f.rs[z].c, z, Fore(T, s.now, z, y), ly)
    ensures IsHere(Fore(T, s.now, z, y), z) && !ly ==> Fore(T, s.now, z, y).pos.st.I?
  {
    ForeHere(T, g, s.now, z, x);
    ForeHere(T, g, s.now, z, y);
    SinceDated(start, s, f, z, x, y, lx, Fore(T, s.now, z, x));
    SinceDated(start, s, f, z, y, x, ly, Fore(T, s.now, z, y));
  }

  // The later stages start: y, if it is here, has just come.
  lemma TurnsAfter(T: Topo, g: Routing, start: Net, s: Net, f: Net, z: int, x: Tok, y: Tok, lx: bool, ly: bool)
    requires Inv(T, f) && Apart(T, g, start, s, z, x, y, lx, ly) && World(f, Fore(T, s.now, z, x), Fore(T, s.now, z, y))
    requires (GotKept(s, f, z, x, y) || GotKept(s, f, z, y, x)) && (IsHere(Fore(T, s.now, z, y), z) ==> !ly)
    ensures Turn(T, g, f, start, z, Fore(T, s.now, z, x), Fore(T, s.now, z, y), lx)
    ensures EndTok(T, z, Fore(T, s.now, z, y), ly) == Fore(T, s.now, z, y)
  {
    ForePair(T, g, s.now, z, x, y);
    ForeDated(T, g, start, s, f, z, x, y, lx, ly);
    RestsThen(T, z, Fore(T, s.now, z, y), ly);
  }

  lemma BooksSwap(T: Topo, s: Net, f: Net, z: int, x: Tok, y: Tok)
    requires ForeBooks(T, s, f, z, x, y)
    ensures GotKept(s, f, z, x, y) && (!(Crossing(x, z) && Crossing(y, z)) ==> ForeBooks(T, s, f, z, y, x))
  {}

  lemma RunSwap(T: Topo, g: Routing, s: Net, s': Net, z: int, x: Tok, y: Tok, x': Tok, y': Tok)
    requires HasRun(T, s, s', z, y, x, y', x') && !(Crossing(x, z) && Crossing(y, z))
    requires Compatible(y'.t, x'.t) && TokOk(T, g, x') && TokOk(T, g, y')
    ensures HasRun(T, s, s', z, x, y, x', y')
  {
    WorldSwap(T, g, s', y', x');
    forall w | 0 <= w < |s.rs| ensures Deposits(T, s, w, x, y, z) == Deposits(T, s, w, y, x, z) {}
  }

  lemma EndOk(T: Topo, g: Routing, z: int, x: Tok, live: bool)
    requires TokOk(T, g, x)
    ensures TokOk(T, g, EndTok(T, z, x, live)) && EndTok(T, z, x, live).t == x.t && EndTok(T, z, x, live).f == x.f
  {}

  // After the first stages x acts, or nothing does.
  lemma RunsFirst(T: Topo, g: Routing, m: Moment, z: int, x: Tok, y: Tok, f: Net, lx: bool, ly: bool)
    returns (ch: Choice)
    requires Timed(T, m) && Apart(T, g, m.start, m.net, z, x, y, lx, ly) && f == Front(T, m.net, z) && Inv(T, f)
    requires World(f, Fore(T, m.net.now, z, x), Fore(T, m.net.now, z, y)) && ForeBooks(T, m.net, f, z, x, y)
    requires IsHere(Fore(T, m.net.now, z, y), z) ==> !ly
    ensures ExactChoice(T, g, m, z, ch)
    ensures HasRun(T, m.net, RouterSim(T, m.net, z, ch), z, x, y, Moved(T, m.net.now, z, x, lx),
                   Moved(T, m.net.now, z, y, ly))
  {
    BooksSwap(T, m.net, f, z, x, y);
    TurnsAfter(T, g, m.start, m.net, f, z, x, y, lx, ly);
    ch := RunsWith(T, g, m, z, x, y, Fore(T, m.net.now, z, x), Fore(T, m.net.now, z, y), f, lx);
  }

  // After the first stages y acts.
  lemma RunsSecond(T: Topo, g: Routing, m: Moment, z: int, x: Tok, y: Tok, f: Net, lx: bool, ly: bool)
    returns (ch: Choice)
    requires Timed(T, m) && Apart(T, g, m.start, m.net, z, x, y, lx, ly) && f == Front(T, m.net, z) && Inv(T, f)
    requires World(f, Fore(T, m.net.now, z, x), Fore(T, m.net.now, z, y)) && ForeBooks(T, m.net, f, z, x, y)
    requires IsHere(Fore(T, m.net.now, z, x), z) ==> !lx
    ensures ExactChoice(T, g, m, z, ch)
    ensures HasRun(T, m.net, RouterSim(T, m.net, z, ch), z, x, y, Moved(T, m.net.now, z, x, lx),
                   Moved(T, m.net.now, z, y, ly))
  {
    var x1, y1 := Fore(T, m.net.now, z, x), Fore(T, m.net.now, z, y);
    ForePair(T, g, m.net.now, z, x, y);
    WorldSwap(T, g, f, x1, y1);
    BooksSwap(T, m.net, f, z, x, y);
    ApartSwap(T, g, m.start, m.net, z, x, y, lx, ly);
    ch := RunsFirst(T, g, m, z, y, x, f, ly, lx);
    EndOk(T, g, z, x1, lx);
    EndOk(T, g, z, y1, ly);
    RunSwap(T, g, m.net, RouterSim(T, m.net, z, ch), z, x, y, EndTok(T, z, x1, lx), EndTok(T, z, y1, ly));
  }

  lemma RunTravels(T: Topo, g: Routing, m: Moment, z: int, x: Tok, y: Tok, lx: bool, ly: bool) returns (ch: Choice)
    requires Poised(T, g, m, z, x, y, lx, ly)
    ensures ExactChoice(T, g, m, z, ch)
    ensures HasRun(T, m.net, RouterSim(T, m.net, z, ch), z, x, y, Moved(T, m.net.now, z, x, lx),
                   Moved(T, m.net.now, z, y, ly))
  {
    var f := ForeTravels(T, g, m.net, z, x, y);
    assert Rested(T, z, m.net.rs[z], m.net.now);
    FrontInv(T, m.net, z);
    ForeHere(T, g, m.net.now, z, x);
    ForeHere(T, g, m.net.now, z, y);
    if IsHere(Fore(T, m.net.now, z, x), z) && lx {
      ch := RunsFirst(T, g, m, z, x, y, f, lx, ly);
    } else {
      ch := RunsSecond(T, g, m, z, x, y, f, lx, ly);
    }
  }
}
