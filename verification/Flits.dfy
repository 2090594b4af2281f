// Flits, packets cut into flits, and what it means for a flit stream to be made of whole packets.

module Flits {

  datatype Kind = Head | Midl | Tail | Atom

  datatype Flit = Flit(kind: Kind, pkt: nat, id: nat) {
    predicate IsHead() { kind == Head || kind == Atom }
    predicate IsTail() { kind == Tail || kind == Atom }
  }

  // b may come right after a on one virtual channel.
  predicate Follows(a: Flit, b: Flit) {
    if a.IsTail() then b.IsHead() else !b.IsHead() && b.pkt == a.pkt && b.id == a.id + 1
  }

  // The flit at position i and the one after it fit together.
  ghost predicate Joint(s: seq<Flit>, i: int) {
    0 <= i < |s| - 1 ==> Follows(s[i], s[i + 1])
  }

  // The stream is whole packets in flit order, one after the other; only the last one may be unfinished.
  ghost predicate Wormhole(s: seq<Flit>) {
    && (s != [] ==> s[0].IsHead())
    && (forall i {:trigger Joint(s, i)} :: Joint(s, i))
  }

  // The stream stops inside a packet.
  predicate Mid(s: seq<Flit>) { s != [] && !s[|s| - 1].IsTail() }

  ghost predicate CanExtend(s: seq<Flit>, f: Flit) {
    if s == [] then f.IsHead() else Follows(s[|s| - 1], f)
  }

  lemma WormholeAppend(s: seq<Flit>, f: Flit)
    requires Wormhole(s) && CanExtend(s, f)
    ensures Wormhole(s + [f])
  {
    var t := s + [f];
    forall i ensures Joint(t, i) { assert Joint(s, i); }
  }

  // Cutting a well-formed stream in two: the flit at the cut extends the first part.
  lemma WormholeCut(a: seq<Flit>, b: seq<Flit>)
    requires Wormhole(a + b)
    ensures Wormhole(a)
    ensures b != [] ==> CanExtend(a, b[0]) && (b[0].IsHead() <==> !Mid(a))
  {
    var t := a + b;
    forall i ensures Joint(a, i) { assert Joint(t, i); }
    assert Joint(t, |a| - 1);
  }

  // The flits NIInput::pkt2flit cuts a packet into.
  function KindAt(i: nat, n: nat): Kind
    requires i < n
  {
    if i == 0 then (if n == 1 then Atom else Head)
    else if i == n - 1 then Tail
    else Midl
  }

  function Cut(pkt: nat, start: nat, n: nat): (s: seq<Flit>) {
    seq(n, (i: nat) requires i < n => Flit(KindAt(i, n), pkt, start + i))
  }

  // The flits are all of the packet, with the ids it has been given; its first one is a head and its last one a tail,
  // and no other is either.
  lemma CutIs(pkt: nat, start: nat, n: nat, i: nat)
    requires i < n
    ensures var c := Cut(pkt, start, n);
            && |c| == n && c[i].pkt == pkt && c[i].id == start + i
            && (c[i].IsHead() <==> i == 0) && (c[i].IsTail() <==> i == n - 1)
  {
    assert KindAt(i, n) == Cut(pkt, start, n)[i].kind;
  }

  // A packet may follow any stream that does not stop inside another packet, and leaves none open.
  lemma CutIsWholePacket(s: seq<Flit>, pkt: nat, start: nat, n: nat)
    requires Wormhole(s) && !Mid(s)
    ensures Wormhole(s + Cut(pkt, start, n))
    ensures !Mid(s + Cut(pkt, start, n))
  {
    var c := Cut(pkt, start, n);
    var t := s + c;
    forall i ensures Joint(t, i) { assert Joint(s, i); }
  }
}
