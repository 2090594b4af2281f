// Every action keeps the streams whole and in order.

module StreamProofs {
  import opened Wiring
  import opened Flits
  import opened Protocol
  import opened Invariant
  import opened ControlProofs

  lemma AppendAppend(a: seq<Flit>, b: seq<Flit>, c: seq<Flit>)
    ensures a + (b + c) == a + b + c
  {}

  lemma {:induction false} OnLinkAppend(l: seq<Wire>, w: Wire, vc: int)
    ensures OnLink(l + [w], vc) == OnLink(l, vc) + (if w.vc == vc then [w.flit] else [])
  {
    if l == [] {
      assert l + [w] == [w];
    } else {
      assert (l + [w])[1..] == l[1..] + [w];
      OnLinkAppend(l[1..], w, vc);
      AppendAppend(if l[0].vc == vc then [l[0].flit] else [], OnLink(l[1..], vc), if w.vc == vc then [w.flit] else []);
    }
  }

  // The router keeps everything the streams speak of.
  ghost predicate SameStreams(a: RouterState, b: RouterState) {
    a.c.q == b.c.q && a.c.got == b.c.got && a.c.sent == b.c.sent && a.link == b.link && a.pending == b.pending
  }

  lemma StreamsFrame(T: Topo, s: Net, r: int, x: RouterState)
    requires Sized(T, s) && Streams(T, s) && 0 <= r < |s.rs| && SameStreams(s.rs[r], x)
    ensures Streams(T, Upd(s, r, x))
  {
    var s' := Upd(s, r, x);
    forall r', k | 0 <= r' < |s.rs| && T.ValidVC(r', k) ensures StreamOk(T, s', r', k) {
      assert StreamOk(T, s, r', k);
      assert Rest(T, s', r', k) == Rest(T, s, r', k);
    }
  }

  // A flit that leaves the wire and enters the buffer stays where it was in the stream.
  lemma MoveArrivals(T: Topo, s: Net, r: int, op: int, p: Port, r': int, k: VC)
    requires Sized(T, s) && 0 <= r < |s.rs| && 0 <= r' < |s.rs|
    requires Link(s.rs[r].link, op) != [] && T.Down(Port(r, op)) == Some(p)
    requires T.Up(Port(r', k.pc)) == Some(Port(r, op)) <==> p == Port(r', k.pc)
    ensures Arrivals(T, Move(T, s, r, op), r', k) == Arrivals(T, s, r', k)
  {
    var w := Link(s.rs[r].link, op)[0];
    var s' := Move(T, s, r, op);
    MoveHere(T, s, r, op, p, r', k);
    MoveRest(T, s, r, op, p, r', k);
  }

  lemma MoveHere(T: Topo, s: Net, r: int, op: int, p: Port, r': int, k: VC)
    requires Sized(T, s) && 0 <= r < |s.rs| && 0 <= r' < |s.rs|
    requires Link(s.rs[r].link, op) != [] && T.Down(Port(r, op)) == Some(p)
    ensures var w := Link(s.rs[r].link, op)[0];
            Here(Move(T, s, r, op).rs[r'].c, k) ==
              Here(s.rs[r'].c, k) + (if r' == p.router && k == VC(p.pc, w.vc) then [w.flit] else [])
    ensures Sent(Move(T, s, r, op).rs[r'].c, k) == Sent(s.rs[r'].c, k)
  {}

  lemma MoveRest(T: Topo, s: Net, r: int, op: int, p: Port, r': int, k: VC)
    requires Sized(T, s) && 0 <= r < |s.rs| && 0 <= r' < |s.rs|
    requires Link(s.rs[r].link, op) != [] && T.Down(Port(r, op)) == Some(p)
    requires T.Up(Port(r', k.pc)) == Some(Port(r, op)) <==> p == Port(r', k.pc)
    ensures var w := Link(s.rs[r].link, op)[0];
            Rest(T, s, r', k) ==
              (if r' == p.router && k == VC(p.pc, w.vc) then [w.flit] else []) + Rest(T, Move(T, s, r, op), r', k)
  {}

  lemma MoveStreams(T: Topo, s: Net, r: int, op: int)
    requires T.Valid() && Sized(T, s) && Streams(T, s) && 0 <= r < |s.rs|
    requires Link(s.rs[r].link, op) != [] && T.Down(Port(r, op)).Some?
    ensures Streams(T, Move(T, s, r, op))
  {
    var s' := Move(T, s, r, op);
    var p := T.Down(Port(r, op)).value;
    forall r', k | 0 <= r' < |s.rs| && T.ValidVC(r', k) ensures StreamOk(T, s', r', k) {
      assert StreamOk(T, s, r', k);
      T.WiredAt(Port(r, op), Port(r', k.pc));
      MoveArrivals(T, s, r, op, p, r', k);
      if T.Up(Port(r', k.pc)).Some? {
        var u := T.Up(Port(r', k.pc)).value;
        T.WiredAt(Port(r, op), Port(u.router, u.pc));
        MoveHere(T, s, r, op, p, u.router, VC(u.pc, k.vc));
      }
    }
  }

  // The crossbar waits for f at input port ip and will send it on output VC o.
  predicate Leaves(c: Ctl, ip: int, o: VC, f: Flit) {
    var k := VC(ip, Waiting(c, ip));
    Q(c, k) != [] && Q(c, k)[0] == f && o == VC(In(c, k).outPc, In(c, k).outVc)
  }

  // Input VC k' of router r' is the far end of output VC o of router r.
  predicate Feeds(T: Topo, r: int, o: VC, r': int, k': VC) {
    T.Up(Port(r', k'.pc)) == Some(Port(r, o.pc)) && k'.vc == o.vc
  }

  // A flit that crosses the switch is added to one stream, at its end.
  lemma CrossArrivals(T: Topo, s: Net, r: int, ip: int, o: VC, f: Flit, r': int, k': VC)
    requires Sized(T, s) && 0 <= r < |s.rs| && 0 <= r' < |s.rs|
    requires Leaves(s.rs[r].c, ip, o, f)
    requires T.Up(Port(r', k'.pc)) == Some(Port(r, o.pc)) ==> !T.IsEject(r, o.pc)
    ensures Arrivals(T, Upd(s, r, Cross(T, r, s.rs[r], ip, s.now)), r', k') ==
              if Feeds(T, r, o, r', k') then Arrivals(T, s, r', k') + [f] else Arrivals(T, s, r', k')
  {
    var s' := Upd(s, r, Cross(T, r, s.rs[r], ip, s.now));
    assert Here(s'.rs[r'].c, k') == Here(s.rs[r'].c, k') by { CrossHere(T, r, s.rs[r], ip, o, f, s.now, k'); }
    CrossRest(T, s, r, ip, o, f, r', k');
    if Feeds(T, r, o, r', k') { AppendAppend(Here(s.rs[r'].c, k'), Rest(T, s, r', k'), [f]); }
  }

  lemma CrossHere(T: Topo, r: int, rs: RouterState, ip: int, o: VC, f: Flit, now: int, k': VC)
    requires Leaves(rs.c, ip, o, f)
    ensures Here(Cross(T, r, rs, ip, now).c, k') == Here(rs.c, k')
    ensures Sent(Cross(T, r, rs, ip, now).c, k') == if k' == o then Sent(rs.c, k') + [f] else Sent(rs.c, k')
  {
    assert Cross(T, r, rs, ip, now).c == Traverse(rs.c, ip);
    TraverseHere(rs.c, ip, k');
  }

  lemma CrossRest(T: Topo, s: Net, r: int, ip: int, o: VC, f: Flit, r': int, k': VC)
    requires Sized(T, s) && 0 <= r < |s.rs| && 0 <= r' < |s.rs|
    requires Leaves(s.rs[r].c, ip, o, f)
    requires T.Up(Port(r', k'.pc)) == Some(Port(r, o.pc)) ==> !T.IsEject(r, o.pc)
    ensures Rest(T, Upd(s, r, Cross(T, r, s.rs[r], ip, s.now)), r', k') ==
              if Feeds(T, r, o, r', k') then Rest(T, s, r', k') + [f] else Rest(T, s, r', k')
  {
    OnLinkAppend(Link(s.rs[r].link, o.pc), Wire(f, o.vc, s.now), k'.vc);
  }

  // A stream that is as it was, and one that a flit was added to at both ends.
  lemma StreamKept(T: Topo, s: Net, s': Net, r: int, k: VC)
    requires Sized(T, s) && Sized(T, s') && 0 <= r < |s.rs| && StreamOk(T, s, r, k)
    requires Arrivals(T, s', r, k) == Arrivals(T, s, r, k)
    requires T.Up(Port(r, k.pc)).Some? ==>
               var u := T.Up(Port(r, k.pc)).value;
               Sent(s'.rs[u.router].c, VC(u.pc, k.vc)) == Sent(s.rs[u.router].c, VC(u.pc, k.vc))
    ensures StreamOk(T, s', r, k)
  {}

  lemma StreamGrown(T: Topo, s: Net, s': Net, r: int, k: VC, f: Flit)
    requires Sized(T, s) && Sized(T, s') && 0 <= r < |s.rs| && StreamOk(T, s, r, k) && T.Up(Port(r, k.pc)).Some?
    requires Arrivals(T, s', r, k) == Arrivals(T, s, r, k) + [f]
    requires var u := T.Up(Port(r, k.pc)).value;
             var sent := Sent(s.rs[u.router].c, VC(u.pc, k.vc));
             Sent(s'.rs[u.router].c, VC(u.pc, k.vc)) == sent + [f] && Wormhole(sent + [f])
    ensures StreamOk(T, s', r, k)
  {}

  // The stream into an input VC ends with what its upstream router sent.
  lemma CrossSent(T: Topo, s: Net, r: int, ip: int, o: VC, f: Flit, u: Port, vc: int)
    requires Sized(T, s) && 0 <= r < |s.rs| && 0 <= u.router < |s.rs| && Leaves(s.rs[r].c, ip, o, f)
    ensures Sent(Upd(s, r, Cross(T, r, s.rs[r], ip, s.now)).rs[u.router].c, VC(u.pc, vc)) ==
              Sent(s.rs[u.router].c, VC(u.pc, vc)) + (if u == Port(r, o.pc) && vc == o.vc then [f] else [])
  {
    CrossHere(T, r, s.rs[r], ip, o, f, s.now, VC(u.pc, vc));
  }

  lemma CrossStream(T: Topo, s: Net, r: int, ip: int, o: VC, f: Flit, r': int, k': VC)
    requires T.Valid() && Sized(T, s) && 0 <= r < |s.rs| && 0 <= r' < |s.rs| && StreamOk(T, s, r', k')
    requires Leaves(s.rs[r].c, ip, o, f)
    requires Wormhole(Sent(s.rs[r].c, o) + [f])
    ensures StreamOk(T, Upd(s, r, Cross(T, r, s.rs[r], ip, s.now)), r', k')
  {
    var s' := Upd(s, r, Cross(T, r, s.rs[r], ip, s.now));
    T.WiredAt(Port(r, o.pc), Port(r', k'.pc));
    CrossArrivals(T, s, r, ip, o, f, r', k');
    var up := T.Up(Port(r', k'.pc));
    if up.Some? { CrossSent(T, s, r, ip, o, f, up.value, k'.vc); }
    if Feeds(T, r, o, r', k') {
      StreamGrown(T, s, s', r', k', f);
    } else {
      StreamKept(T, s, s', r', k');
    }
  }

  lemma CrossStreams(T: Topo, s: Net, r: int, ip: int, o: VC, f: Flit)
    requires T.Valid() && Sized(T, s) && Streams(T, s) && 0 <= r < |s.rs|
    requires Leaves(s.rs[r].c, ip, o, f)
    requires Wormhole(Sent(s.rs[r].c, o) + [f])
    ensures Streams(T, Upd(s, r, Cross(T, r, s.rs[r], ip, s.now)))
  {
    var s' := Upd(s, r, Cross(T, r, s.rs[r], ip, s.now));
    forall r', k' | 0 <= r' < |s.rs| && T.ValidVC(r', k') ensures StreamOk(T, s', r', k') {
      assert StreamOk(T, s, r', k');
      CrossStream(T, s, r, ip, o, f, r', k');
    }
  }

  // ---------- injection ----------

  lemma InjectStreams(T: Topo, s: Net, r: int, k: VC)
    requires Sized(T, s) && Streams(T, s) && 0 <= r < |s.rs|
    requires T.Up(Port(r, k.pc)).None? && Pending(s.rs[r], k) != []
    ensures Streams(T, Upd(s, r, Inject(s.rs[r], k)))
  {
    var s' := Upd(s, r, Inject(s.rs[r], k));
    forall r', k' | 0 <= r' < |s.rs| && T.ValidVC(r', k') ensures StreamOk(T, s', r', k') {
      assert StreamOk(T, s, r', k');
      InjectArrivals(T, s, r, k, r', k');
    }
  }

  lemma InjectArrivals(T: Topo, s: Net, r: int, k: VC, r': int, k': VC)
    requires Sized(T, s) && 0 <= r < |s.rs| && 0 <= r' < |s.rs|
    requires T.Up(Port(r, k.pc)).None? && Pending(s.rs[r], k) != []
    ensures Arrivals(T, Upd(s, r, Inject(s.rs[r], k)), r', k') == Arrivals(T, s, r', k')
  {
    if r' == r && k' == k {
      assert Pending(s.rs[r], k) == [Pending(s.rs[r], k)[0]] + Pending(s.rs[r], k)[1..];
    }
  }

  lemma ReserveStreams(T: Topo, s: Net, r: int, k: VC, pkt: nat, start: nat, n: nat)
    requires Sized(T, s) && Streams(T, s) && 0 <= r < |s.rs| && T.ValidVC(r, k)
    requires T.Up(Port(r, k.pc)).None? && Pending(s.rs[r], k) == []
    ensures Streams(T, Upd(s, r, Reserve(s.rs[r], k, pkt, start, n)))
  {
    var s' := Upd(s, r, Reserve(s.rs[r], k, pkt, start, n));
    assert StreamOk(T, s, r, k);
    assert Arrivals(T, s, r, k) == Here(s.rs[r].c, k);
    CutIsWholePacket(Here(s.rs[r].c, k), pkt, start, n);
    forall r', k' | 0 <= r' < |s.rs| && T.ValidVC(r', k') ensures StreamOk(T, s', r', k') {
      assert StreamOk(T, s, r', k');
      if r' != r || k' != k {
        assert Arrivals(T, s', r', k') == Arrivals(T, s, r', k');
      }
    }
  }
}
