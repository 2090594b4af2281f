// The input side of a network interface: the bounded packet queue with its spill queue, the processes that
// read it and the events they wait for, the choice of a virtual channel, and the cutting into flits.

module NIInputs {
  import opened Wiring
  import opened Flits
  import opened MapSize

  // perVC: NIin_type is NI_INPUT_TYPE_PER_VC, with one reading process for each VC, not NI_INPUT_TYPE_PER_PC,
  // with one for the port.
  datatype Config = Config(depth: nat, nvc: nat, perVC: bool) {
    function Readers(): nat { if perVC then nvc else 1 }

    predicate Reader(v: int) { 0 <= v < Readers() }
  }

  // An event of the simulator is set or not, and a process may wait for it: set() lets the process go on if
  // there is one and otherwise leaves the event set; wait() goes on at once if the event is set, and clears it.
  datatype Ni = Ni(
    pktQ: seq<nat>,          // m_pktQ
    extraQ: seq<nat>,        // m_extra_pktQ
    freeVC: seq<bool>,       // m_vc_free_vec
    lastFreeVC: int,         // m_last_free_vc
    waiting: set<int>,       // the readers in m_ev_wakeup_vec[v]->wait()
    rung: set<int>)          // the events of m_ev_wakeup_vec that are set
  {
    // The one unbounded queue the two stand for.
    function Contents(): seq<nat> { pktQ + extraQ }

    // The spill queue is used only while the bounded one is full.
    ghost predicate Valid(c: Config) {
      && |pktQ| <= c.depth && (extraQ != [] ==> |pktQ| == c.depth) && |freeVC| == c.nvc && 0 <= lastFreeVC < c.nvc
      && (forall v {:trigger v in waiting} :: v in waiting ==> c.Reader(v))
    }

    predicate Usable(isFull: int -> bool, v: int) { 0 <= v < |freeVC| && freeVC[v] && !isFull(v) }
  }

  function FirstNi(c: Config): Ni { Ni([], [], seq(c.nvc, _ => true), 0, {}, {}) }

  function Ring(s: Ni, v: int): Ni {
    if v in s.waiting then s.(waiting := s.waiting - {v}) else s.(rung := s.rung + {v})
  }

  // Reader v alone is told: it goes on if it waits, and otherwise its event is set.
  predicate Wakes(s: Ni, s': Ni, v: int) {
    s'.waiting == s.waiting - {v} && s'.rung == s.rung + if v in s.waiting then {} else {v}
  }

  // writePacket
  function Written(c: Config, s: Ni, pkt: nat): Ni
    requires c.nvc >= 1
  {
    if |s.pktQ| >= c.depth then s.(extraQ := s.extraQ + [pkt])
    else
      var s' := s.(pktQ := s.pktQ + [pkt]);
      if s.pktQ != [] then s'
      else if c.perVC then Ring(s', s.lastFreeVC).(lastFreeVC := (s.lastFreeVC + 1) % c.nvc)
      else Ring(s', 0)
  }

  // One round of readPacket: reader v takes a packet, or finds its event set and comes round again, or waits.
  function Read(s: Ni, v: int): Ni {
    if s.pktQ != [] then
      if s.extraQ != [] then s.(pktQ := s.pktQ[1..] + [s.extraQ[0]], extraQ := s.extraQ[1..])
        else s.(pktQ := s.pktQ[1..])
    else if v in s.rung then s.(rung := s.rung - {v})
    else s.(waiting := s.waiting + {v})
  }

  // ---------- the network interface as the program keeps it ----------

  class NIInput {
    const c: Config
    var pktQ: seq<nat>
    var extraQ: seq<nat>
    var freeVC: seq<bool>
    var lastFreeVC: int
    var waiting: set<int>
    var rung: set<int>

    ghost function State(): Ni
      reads this
    {
      Ni(pktQ, extraQ, freeVC, lastFreeVC, waiting, rung)
    }

    ghost function Contents(): seq<nat>
      reads this
    {
      State().Contents()
    }

    ghost predicate Valid()
      reads this
    {
      State().Valid(c)
    }

    constructor (c: Config)
      requires c.nvc >= 1
      ensures Valid() && this.c == c && State() == FirstNi(c)
    {
      this.c := c;
      pktQ, extraQ, freeVC, lastFreeVC, waiting, rung := [], [], seq(c.nvc, _ => true), 0, {}, {};
    }

    method Set(v: int)
      modifies this`waiting, this`rung
      ensures State() == Ring(old(State()), v)
    {
      if v in waiting { waiting := waiting - {v}; } else { rung := rung + {v}; }
    }

    // A packet joins the one queue behind all others. When the bounded queue stops being empty one reader is told;
    // with one reader for each VC it is that of the VC last taken, and the turn passes to the next.
    method WritePacket(pkt: nat)
      requires Valid()
      modifies this`pktQ, this`extraQ, this`lastFreeVC, this`waiting, this`rung
      ensures Valid() && State() == Written(c, old(State()), pkt) && Contents() == old(Contents()) + [pkt]
      ensures old(pktQ) == [] && c.depth >= 1 ==>
                Wakes(old(State()), State(), if c.perVC then old(lastFreeVC) else 0) &&
                if c.perVC then Turn(old(lastFreeVC), lastFreeVC, c.nvc) == 0 else lastFreeVC == old(lastFreeVC)
      ensures old(pktQ) != [] || c.depth == 0 ==>
                waiting == old(waiting) && rung == old(rung) && lastFreeVC == old(lastFreeVC)
    {
      if |pktQ| < c.depth {
        var before := |pktQ|;
        pktQ := pktQ + [pkt];
        if before == 0 && |pktQ| == 1 {
          if c.perVC {
            Set(lastFreeVC);
            lastFreeVC := (lastFreeVC + 1) % c.nvc;
          } else {
            Set(0);
          }
        }
      } else {
        extraQ := extraQ + [pkt];
      }
    }

    // One round of the loop in readPacket. The oldest packet of the queue is returned; a reader that gets
    // none found nothing in the bounded queue.
    method ReadPacket(v: int) returns (pkt: Option<nat>)
      requires Valid() && c.Reader(v) && v !in waiting
      modifies this`pktQ, this`extraQ, this`waiting, this`rung
      ensures Valid() && State() == Read(old(State()), v)
      ensures pkt.Some? ==> [pkt.value] + Contents() == old(Contents())
      ensures pkt.None? ==> Contents() == old(Contents()) && old(pktQ) == [] && (v in waiting <==> v !in old(rung))
    {
      if |pktQ| == 0 {
        if v in rung { rung := rung - {v}; } else { waiting := waiting + {v}; }
        return None;
      }
      pkt := Some(pktQ[0]);
      pktQ := pktQ[1..];
      if |extraQ| > 0 {
        var moved := extraQ[0];
        extraQ := extraQ[1..];
        pktQ := pktQ + [moved];
      }
    }

    // With one reader for each VC segmentPacket takes the first VC after the last one taken that is free and
    // whose buffer is not full.
    method PickVC(isFull: int -> bool) returns (vc: Option<int>)
      requires Valid()
      modifies this`freeVC, this`lastFreeVC
      ensures Valid()
      ensures vc.Some? ==>
              FirstUsable(old(State()), isFull, vc.value) && State() == Picked(c, old(State()), vc.value, true)
      ensures vc.None? ==> (forall v :: !old(State()).Usable(isFull, v)) && State() == old(State())
    {
      for i := 0 to c.nvc
        invariant State() == old(State())
        invariant forall v :: 0 <= v < c.nvc && Turn(lastFreeVC, v, c.nvc) < i ==> !State().Usable(isFull, v)
      {
        var check := (i + lastFreeVC + 1) % c.nvc;
        TurnOf(lastFreeVC, i, c.nvc);
        if freeVC[check] && !isFull(check) {
          freeVC, lastFreeVC := freeVC[check := false], check;
          return Some(check);
        }
        forall v | 0 <= v < c.nvc && Turn(lastFreeVC, v, c.nvc) < i + 1 ensures !State().Usable(isFull, v) {
          assert Turn(lastFreeVC, v, c.nvc) == i ==> v == check;
        }
      }
      vc := None;
    }
  }

  // Of the usable VCs, vc is the first in the search after the last one taken.
  ghost predicate FirstUsable(s: Ni, isFull: int -> bool, vc: int) {
    && s.Usable(isFull, vc)
    && forall v {:trigger s.Usable(isFull, v)} :: s.Usable(isFull, v) ==>
         Turn(s.lastFreeVC, vc, |s.freeVC|) <= Turn(s.lastFreeVC, v, |s.freeVC|)
  }

  function Picked(c: Config, s: Ni, vc: int, moves: bool): Ni
    requires 0 <= vc < |s.freeVC|
  {
    s.(freeVC := s.freeVC[vc := false], lastFreeVC := if moves then vc else s.lastFreeVC)
  }

  // The position of VC v in the search that starts after VC last.
  function Turn(last: int, v: int, nvc: int): int { if v > last then v - last - 1 else v - last - 1 + nvc }

  lemma TurnOf(last: int, i: int, nvc: nat)
    requires 0 <= last < nvc && 0 <= i < nvc
    ensures var v := (i + last + 1) % nvc;
            0 <= v < nvc && Turn(last, v, nvc) == i && forall u :: 0 <= u < nvc && Turn(last, u, nvc) == i ==> u == v
  {
    var s := i + last + 1;
    if s < nvc { Small(s, nvc); } else { Small(s - nvc, nvc); }
  }

  lemma Small(x: int, n: nat)
    requires 0 <= x < n
    ensures x % n == x && (x + n) % n == x
  {}

  // ---------- the reading processes ----------

  // A network interface with what its readers are about: those that hold a packet, with the VC they have
  // taken for it, if any.
  datatype System = System(ni: Ni, holding: map<int, Option<int>>)

  datatype Step =
    | Write(pkt: nat)
    | Look(v: int)                                // reader v comes to the test in readPacket
    | Pick(v: int, isFull: int -> bool, vc: int)  // reader v takes a VC for its packet, whatever buffers are full
    | Done(v: int)                                // the last flit of its packet is written

  ghost predicate Enabled(c: Config, s: System, a: Step) {
    match a
    case Write(pkt) => true
    case Look(v) => c.Reader(v) && v !in s.ni.waiting && v !in s.holding
    case Pick(v, isFull, vc) =>
      && v in s.holding && s.holding[v].None?
      && (if c.perVC then FirstUsable(s.ni, isFull, vc) else vc == v && s.ni.Usable(isFull, vc))
    case Done(v) => v in s.holding && s.holding[v].Some? && 0 <= s.holding[v].value < |s.ni.freeVC|
  }

  ghost function Do(c: Config, s: System, a: Step): System
    requires c.nvc >= 1 && Enabled(c, s, a)
  {
    match a
    case Write(pkt) => s.(ni := Written(c, s.ni, pkt))
    case Look(v) => System(Read(s.ni, v), if s.ni.pktQ != [] then s.holding[v := None] else s.holding)
    case Pick(v, isFull, vc) => System(Picked(c, s.ni, vc, c.perVC), s.holding[v := Some(vc)])
    case Done(v) => System(s.ni.(freeVC := s.ni.freeVC[s.holding[v].value := true]), s.holding - {v})
  }

  ghost predicate Run(c: Config, s: System, steps: seq<Step>, s': System)
    requires c.nvc >= 1
    decreases |steps|
  {
    if steps == [] then s' == s
    else
      var n := |steps| - 1;
      exists u :: Run(c, s, steps[..n], u) && Enabled(c, u, steps[n]) && s' == Do(c, u, steps[n])
  }

  // The readers have been created and no packet has come yet.
  function Start(c: Config): System { System(FirstNi(c), map[]) }

  ghost predicate Reachable(c: Config, s: System)
    requires c.nvc >= 1
  {
    exists steps :: Run(c, Start(c), steps, s)
  }

  lemma Reach(c: Config, s: System, a: Step)
    requires c.nvc >= 1 && Reachable(c, s) && Enabled(c, s, a)
    ensures Reachable(c, Do(c, s, a))
  {
    var steps :| Run(c, Start(c), steps, s);
    assert (steps + [a])[..|steps|] == steps;
    assert Run(c, Start(c), steps + [a], Do(c, s, a));
  }

  // ---------- no packet is forgotten ----------

  // While the bounded queue has a packet some reader is awake, and if there is only one, it is.
  ghost predicate Attended(c: Config, s: System) {
    && s.ni.Valid(c)
    && (s.ni.pktQ != [] ==> exists v {:trigger c.Reader(v)} :: c.Reader(v) && v !in s.ni.waiting)
  }

  lemma StepAttended(c: Config, s: System, a: Step)
    requires c.nvc >= 1 && Attended(c, s) && Enabled(c, s, a)
    ensures Attended(c, Do(c, s, a))
  {
    var s' := Do(c, s, a);
    match a
    case Write(pkt) =>
      if s.ni.pktQ == [] && c.depth > 0 {
        var v := if c.perVC then s.ni.lastFreeVC else 0;
        assert c.Reader(v) && v !in s'.ni.waiting;
      }
    case Look(v) => assert s'.ni.pktQ != [] ==> c.Reader(v) && v !in s'.ni.waiting;
    case _ =>
  }

  lemma {:induction false} RunAttended(c: Config, steps: seq<Step>, s: System)
    requires c.nvc >= 1 && Run(c, Start(c), steps, s)
    ensures Attended(c, s)
    decreases |steps|
  {
    if steps != [] {
      var n := |steps| - 1;
      var u :| Run(c, Start(c), steps[..n], u) && Enabled(c, u, steps[n]) && s == Do(c, u, steps[n]);
      RunAttended(c, steps[..n], u);
      StepAttended(c, u, steps[n]);
    }
  }

  lemma AlwaysAttended(c: Config, s: System)
    requires c.nvc >= 1 && Reachable(c, s)
    ensures Attended(c, s)
  {
    var steps :| Run(c, Start(c), steps, s);
    RunAttended(c, steps, s);
  }

  // Every queued packet finds a reader that is awake.
  ghost predicate NeverForgotten(c: Config)
    requires c.nvc >= 1
  {
    forall s {:trigger Reachable(c, s)} :: Reachable(c, s) && s.ni.Contents() != [] ==>
      exists v {:trigger c.Reader(v)} :: c.Reader(v) && v !in s.ni.waiting
  }

  // No reader waits while a packet is queued.
  ghost predicate NobodyWaits(c: Config)
    requires c.nvc >= 1
  {
    forall s {:trigger Reachable(c, s)} :: Reachable(c, s) && s.ni.Contents() != [] ==> s.ni.waiting == {}
  }

  // A reader neither waits nor has a packet in hand.
  predicate Ready(c: Config, s: System, v: int) { c.Reader(v) && v !in s.ni.waiting && v !in s.holding }

  // While a packet is queued and a reader waits, at least another reader is about to take the packet.
  ghost predicate NeverNeglected(c: Config)
    requires c.nvc >= 1
  {
    forall s {:trigger Reachable(c, s)} :: Reachable(c, s) && s.ni.Contents() != [] && s.ni.waiting != {} ==>
      exists v :: Ready(c, s, v)
  }

  // All readers find the queue empty and wait.
  function AllWait(c: Config, n: nat): System { System(FirstNi(c).(waiting := Below(n)), map[]) }

  lemma OneMoreWaits(c: Config, n: nat)
    requires c.nvc >= 1 && n < c.Readers()
    ensures Enabled(c, AllWait(c, n), Look(n)) && Do(c, AllWait(c, n), Look(n)) == AllWait(c, n + 1)
  {
    BelowSize(n);
    assert Below(n + 1) == Below(n) + {n};
  }

  lemma {:induction false} AllMayWait(c: Config, n: nat)
    requires c.nvc >= 1 && n <= c.Readers()
    ensures Reachable(c, AllWait(c, n))
  {
    if n == 0 {
      assert Run(c, Start(c), [], Start(c));
    } else {
      AllMayWait(c, n - 1);
      OneMoreWaits(c, n - 1);
      Reach(c, AllWait(c, n - 1), Look(n - 1));
    }
  }

  // Without room in the bounded queue a packet goes where no reader looks.
  lemma ForgottenWithoutRoom(c: Config) returns (s: System)
    requires c.nvc >= 1 && c.depth == 0
    ensures Reachable(c, s) && s.ni.Contents() != [] && forall v :: c.Reader(v) ==> v in s.ni.waiting
  {
    AllMayWait(c, c.Readers());
    BelowSize(c.Readers());
    Reach(c, AllWait(c, c.Readers()), Write(0));
    s := Do(c, AllWait(c, c.Readers()), Write(0));
  }

  // With a reader for each of several VCs, a packet that is written before the reader woken for the one before
  // has come to take that one wakes nobody: the reader then has a packet in hand, and the others stay asleep.
  lemma NeglectedPerVC(c: Config) returns (s: System)
    requires c.depth >= 1 && c.perVC && c.nvc >= 2
    ensures Reachable(c, s) && s.ni.Contents() != [] && s.ni.waiting != {} && forall v :: !Ready(c, s, v)
  {
    AllMayWait(c, c.nvc);
    BelowSize(c.nvc);
    var s0 := AllWait(c, c.nvc);
    Reach(c, s0, Write(0));
    var s1 := Do(c, s0, Write(0));
    Reach(c, s1, Write(1));
    var s2 := Do(c, s1, Write(1));
    assert s2.ni.Contents() == [0, 1] && s2.ni.pktQ != [] && s2.ni.waiting == Below(c.nvc) - {0};
    Reach(c, s2, Look(0));
    s := Do(c, s2, Look(0));
    assert s.ni.Contents() == [1] && 1 in s.ni.waiting;
  }

  // Some reader is awake for every packet exactly if the bounded queue has room for one ...
  lemma NeverForgottenIff(c: Config)
    requires c.nvc >= 1
    ensures NeverForgotten(c) <==> c.depth >= 1
  {
    if c.depth >= 1 {
      forall s | Reachable(c, s) && s.ni.Contents() != []
        ensures exists v :: c.Reader(v) && v !in s.ni.waiting {
        AlwaysAttended(c, s);
      }
    } else {
      var s := ForgottenWithoutRoom(c);
    }
  }

  // ... but that none waits, or that another is ready, takes a single reader as well.
  lemma NobodyWaitsIff(c: Config)
    requires c.nvc >= 1
    ensures NobodyWaits(c) <==> c.depth >= 1 && c.Readers() == 1
    ensures NeverNeglected(c) <==> c.depth >= 1 && c.Readers() == 1
  {
    if c.depth == 0 {
      var s := ForgottenWithoutRoom(c);
      assert c.Reader(0);
    } else if c.Readers() == 1 {
      forall s | Reachable(c, s) && s.ni.Contents() != [] ensures s.ni.waiting == {} {
        AlwaysAttended(c, s);
        forall v ensures v !in s.ni.waiting {}
      }
    } else {
      var s := NeglectedPerVC(c);
    }
  }

  // NIInput::pkt2flit
  method Pkt2Flit(pkt: nat, start: nat, n: nat) returns (flits: seq<Flit>)
    ensures flits == Cut(pkt, start, n)
  {
    flits := [];
    for i := 0 to n
      invariant flits == Cut(pkt, start, n)[..i]
    {
      var kind := if i == 0 then (if n == 1 then Atom else Head) else if i == n - 1 then Tail else Midl;
      flits := flits + [Flit(kind, pkt, start + i)];
    }
  }
}
