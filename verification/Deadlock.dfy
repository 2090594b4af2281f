// Deadlock of wormhole packets, for any routing function.

module Deadlock {

  // A virtual channel of one output port of a router, together with the input buffer it leads to.
  datatype Channel = Channel(router: int, pc: int, vc: int)

  // A packet with the channels its head has taken so far; its flits may lie in any of their buffers. out is
  // the output port the routing function has given its head for the next hop.
  datatype Packet = Packet(id: nat, src: int, dest: int, path: seq<Channel>, out: int)

  ghost predicate Ordered(path: seq<Channel>, rank: Channel -> int) {
    forall i, j :: 0 <= i < j < |path| ==> rank(path[i]) < rank(path[j])
  }

  ghost predicate RisesAt(path: seq<Channel>, rank: Channel -> int, i: int) {
    0 <= i < |path| - 1 ==> rank(path[i]) < rank(path[i + 1])
  }

  lemma {:induction false} OrderedFrom(path: seq<Channel>, rank: Channel -> int)
    requires forall i {:trigger RisesAt(path, rank, i)} :: RisesAt(path, rank, i)
    ensures Ordered(path, rank)
  {
    if |path| > 1 {
      var init := path[..|path| - 1];
      forall i ensures RisesAt(init, rank, i) { assert RisesAt(path, rank, i); }
      OrderedFrom(init, rank);
      var n := |path| - 1;
      assert RisesAt(path, rank, n - 1);
      forall i, j | 0 <= i < j < |path| ensures rank(path[i]) < rank(path[j]) {
        assert path[i] == init[i];
        if j < n { assert path[j] == init[j]; }
        else if i < n - 1 { assert rank(init[i]) < rank(init[n - 1]); }
      }
    }
  }

  function Last(p: Packet): Channel
    requires p.path != []
  {
    p.path[|p.path| - 1]
  }

  // The head is in front of its buffer, and each channel it may take next is held in the set.
  ghost predicate Blocked(p: Packet, S: set<Packet>, wants: (Packet, Channel) -> bool) {
    forall c {:trigger wants(p, c)} :: wants(p, c) ==> exists q :: q in S && c in q.path
  }

  // The head waits behind flits of a packet of the set, which has gone on or is blocked in front.
  ghost predicate Behind(p: Packet, S: set<Packet>, wants: (Packet, Channel) -> bool) {
    p.path != [] && exists q :: q in S && Last(p) in q.path && (Last(q) != Last(p) || Blocked(q, S, wants))
  }

  // Every packet of the set waits only for packets of the set.
  ghost predicate Deadlocked(S: set<Packet>, wants: (Packet, Channel) -> bool) {
    S != {} && forall p {:trigger p in S} :: p in S ==> Blocked(p, S, wants) || Behind(p, S, wants)
  }

  // What a rank on channels has to do: it increases along every path and towards every channel wanted.
  ghost predicate Rises(p: Packet, rank: Channel -> int, wants: (Packet, Channel) -> bool) {
    && Ordered(p.path, rank)
    && (exists c :: wants(p, c))
    && (p.path != [] ==> forall c {:trigger wants(p, c)} :: wants(p, c) ==> rank(Last(p)) < rank(c))
    && (forall c {:trigger c in p.path} :: c in p.path ==> rank(c) >= 0)
  }

  // How far the head of a packet has come.
  function Height(p: Packet, rank: Channel -> int): int { if p.path == [] then -1 else rank(Last(p)) }

  lemma Holds(q: Packet, c: Channel, rank: Channel -> int)
    requires Ordered(q.path, rank) && c in q.path
    ensures rank(c) <= Height(q, rank) && (c != Last(q) ==> rank(c) < Height(q, rank))
  {
    var i :| 0 <= i < |q.path| && q.path[i] == c;
  }

  lemma BlockedByHigher(p: Packet, S: set<Packet>, rank: Channel -> int, wants: (Packet, Channel) -> bool)
    returns (q: Packet)
    requires p in S && Blocked(p, S, wants)
    requires forall p {:trigger p in S} :: p in S ==> Rises(p, rank, wants)
    ensures q in S && Height(p, rank) < Height(q, rank)
  {
    assert Rises(p, rank, wants);
    var c :| wants(p, c);
    q :| q in S && c in q.path;
    assert Rises(q, rank, wants);
    Holds(q, c, rank);
  }

  lemma WaitsForHigher(p: Packet, S: set<Packet>, rank: Channel -> int, wants: (Packet, Channel) -> bool)
    returns (q: Packet)
    requires p in S && (Blocked(p, S, wants) || Behind(p, S, wants))
    requires forall p {:trigger p in S} :: p in S ==> Rises(p, rank, wants)
    ensures q in S && Height(p, rank) < Height(q, rank)
  {
    if Blocked(p, S, wants) {
      q := BlockedByHigher(p, S, rank, wants);
    } else {
      q :| q in S && Last(p) in q.path && (Last(q) != Last(p) || Blocked(q, S, wants));
      assert Rises(q, rank, wants);
      Holds(q, Last(p), rank);
      if Last(q) == Last(p) { q := BlockedByHigher(q, S, rank, wants); }
    }
  }

  lemma {:induction false} Highest(S: set<Packet>, rank: Channel -> int) returns (p: Packet)
    requires S != {}
    ensures p in S && forall q {:trigger q in S} :: q in S ==> Height(q, rank) <= Height(p, rank)
  {
    var x :| x in S;
    p := x;
    var R := S - {x};
    if R != {} {
      var y := Highest(R, rank);
      if Height(x, rank) < Height(y, rank) { p := y; }
    }
    forall q | q in S ensures Height(q, rank) <= Height(p, rank) { assert q == x || q in R; }
  }

  // Where a rank rises, no set of packets is deadlocked.
  lemma NoDeadlock(S: set<Packet>, rank: Channel -> int, wants: (Packet, Channel) -> bool)
    requires forall p {:trigger p in S} :: p in S ==> Rises(p, rank, wants)
    ensures !Deadlocked(S, wants)
  {
    if Deadlocked(S, wants) {
      var p := Highest(S, rank);
      var q := WaitsForHigher(p, S, rank, wants);
    }
  }
}
