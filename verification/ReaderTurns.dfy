// The readers of a network interface over whole runs: which of them a written packet wakes, and which VCs they hold.

module ReaderTurns {
  import opened Wiring
  import opened NIInputs
  import opened Coordinates

  ghost predicate StepAt(c: Config, ss: seq<System>, steps: seq<Step>, k: int)
    requires c.nvc >= 1 && 0 <= k < |steps| && |ss| == |steps| + 1
  {
    Enabled(c, ss[k], steps[k]) && ss[k + 1] == Do(c, ss[k], steps[k])
  }

  // The states of a run, from one that can be reached.
  ghost predicate Trace(c: Config, ss: seq<System>, steps: seq<Step>)
    requires c.nvc >= 1
  {
    && |ss| == |steps| + 1 && Reachable(c, ss[0])
    && forall k {:trigger StepAt(c, ss, steps, k)} :: 0 <= k < |steps| ==> StepAt(c, ss, steps, k)
  }

  lemma {:induction false} TraceReachable(c: Config, ss: seq<System>, steps: seq<Step>, k: nat)
    requires c.nvc >= 1 && Trace(c, ss, steps) && k < |ss|
    ensures Reachable(c, ss[k]) && ss[k].ni.Valid(c)
  {
    if k > 0 {
      TraceReachable(c, ss, steps, k - 1);
      assert StepAt(c, ss, steps, k - 1);
      Reach(c, ss[k - 1], steps[k - 1]);
    }
    AlwaysAttended(c, ss[k]);
  }

  // ---------- whose turn it is ----------

  // A packet is written into the bounded queue, and finds it empty.
  predicate Waking(c: Config, s: System, a: Step) { a.Write? && s.ni.pktQ == [] && c.depth >= 1 }

  // The packets that do so from step a up to step b.
  function Wakings(c: Config, ss: seq<System>, steps: seq<Step>, a: nat, b: nat): nat
    requires |ss| == |steps| + 1 && b <= |steps|
  {
    if b <= a then 0 else Wakings(c, ss, steps, a, b - 1) + if Waking(c, ss[b - 1], steps[b - 1]) then 1 else 0
  }

  ghost predicate NoPick(steps: seq<Step>, a: nat, b: nat)
    requires b <= |steps|
  {
    forall k {:trigger steps[k]} :: a <= k < b ==> !steps[k].Pick?
  }

  // The reader whose turn it is at step k, by the packets that have found the queue empty since step a.
  function Whose(c: Config, ss: seq<System>, steps: seq<Step>, a: nat, k: nat): int
    requires c.nvc >= 1 && |ss| == |steps| + 1 && a <= k <= |steps|
  {
    (ss[a].ni.lastFreeVC + Wakings(c, ss, steps, a, k)) % c.nvc
  }

  lemma NextMod(x: int, n: nat)
    requires n >= 1
    ensures (x % n + 1) % n == (x + 1) % n
  {
    CoordsAt(x, n);
    NextRest(x / n, x % n, n);
  }

  lemma CoordsAt(x: int, n: nat)
    requires n >= 1
    ensures 0 <= x % n < n && x == x / n * n + x % n
  {}

  lemma NextRest(q: int, r: int, n: nat)
    requires 0 <= r < n
    ensures (q * n + r + 1) % n == (r + 1) % n
  {
    Rows(q, n);
    if r + 1 < n {
      DivMod(r + 1, q, n);
      DivMod(r + 1, 0, n);
    } else {
      DivMod(0, q + 1, n);
      DivMod(0, 1, n);
    }
  }

  lemma {:induction false} WhoseIs(c: Config, ss: seq<System>, steps: seq<Step>, a: nat, k: nat)
    requires c.nvc >= 1 && c.perVC && Trace(c, ss, steps) && a <= k <= |steps| && NoPick(steps, a, k)
    ensures ss[k].ni.lastFreeVC == Whose(c, ss, steps, a, k)
    decreases k
  {
    TraceReachable(c, ss, steps, k);
    if a < k {
      WhoseIs(c, ss, steps, a, k - 1);
      assert StepAt(c, ss, steps, k - 1);
      NextMod(ss[a].ni.lastFreeVC + Wakings(c, ss, steps, a, k - 1), c.nvc);
    } else {
      DivMod(ss[a].ni.lastFreeVC, 0, c.nvc);
    }
  }

  // As long as no VC is picked the packets that find the queue empty wake the readers in turn, each packet one reader
  // and no other.
  lemma WakesInTurn(c: Config, ss: seq<System>, steps: seq<Step>, a: nat, k: nat)
    requires c.nvc >= 1 && c.perVC && Trace(c, ss, steps) && a <= k < |steps| && NoPick(steps, a, k)
    requires Waking(c, ss[k], steps[k])
    ensures Wakes(ss[k].ni, ss[k + 1].ni, Whose(c, ss, steps, a, k))
  {
    WhoseIs(c, ss, steps, a, k);
    assert StepAt(c, ss, steps, k);
  }

  // After a VC has been picked the turns go on from its reader.
  lemma TurnAfterPick(c: Config, ss: seq<System>, steps: seq<Step>, a: nat, k: nat)
    requires c.nvc >= 1 && c.perVC && Trace(c, ss, steps) && 1 <= a <= k < |steps| && NoPick(steps, a, k)
    requires steps[a - 1].Pick? && Waking(c, ss[k], steps[k])
    ensures Wakes(ss[k].ni, ss[k + 1].ni, (steps[a - 1].vc + Wakings(c, ss, steps, a, k)) % c.nvc)
  {
    assert StepAt(c, ss, steps, a - 1);
    WakesInTurn(c, ss, steps, a, k);
  }

  // So any num_vc of them in a row wake every reader once.
  lemma EachOnce(c: Config, ss: seq<System>, steps: seq<Step>, a: nat, b: nat, v: int) returns (k: nat)
    requires c.nvc >= 1 && c.perVC && Trace(c, ss, steps) && a <= b <= |steps| && NoPick(steps, a, b)
    requires Wakings(c, ss, steps, a, b) == c.nvc && c.Reader(v)
    ensures a <= k < b && Waking(c, ss[k], steps[k]) && Whose(c, ss, steps, a, k) == v
    ensures Wakes(ss[k].ni, ss[k + 1].ni, v)
    ensures forall i :: a <= i < b && Waking(c, ss[i], steps[i]) && Whose(c, ss, steps, a, i) == v ==> i == k
  {
    TraceReachable(c, ss, steps, a);
    var first := ss[a].ni.lastFreeVC;
    var j := if v >= first then v - first else v - first + c.nvc;
    k := NthWaking(c, ss, steps, a, b, j);
    if v >= first { DivMod(v, 0, c.nvc); } else { DivMod(v, 1, c.nvc); }
    WakesInTurn(c, ss, steps, a, k);
    forall i | a <= i < b && Waking(c, ss[i], steps[i]) && Whose(c, ss, steps, a, i) == v ensures i == k {
      OnceInTurn(c, ss, steps, a, b, k, i);
    }
  }

  lemma {:induction false} NthWaking(c: Config, ss: seq<System>, steps: seq<Step>, a: nat, b: nat, j: nat)
    returns (k: nat)
    requires |ss| == |steps| + 1 && b <= |steps| && j < Wakings(c, ss, steps, a, b)
    ensures a <= k < b && Waking(c, ss[k], steps[k]) && Wakings(c, ss, steps, a, k) == j
    decreases b
  {
    if j < Wakings(c, ss, steps, a, b - 1) { k := NthWaking(c, ss, steps, a, b - 1, j); } else { k := b - 1; }
  }

  lemma {:induction false} WakingsGrow(c: Config, ss: seq<System>, steps: seq<Step>, a: nat, i: nat, b: nat)
    requires |ss| == |steps| + 1 && a <= i <= b <= |steps|
    ensures Wakings(c, ss, steps, a, i) <= Wakings(c, ss, steps, a, b)
    ensures i < b && Waking(c, ss[i], steps[i]) ==> Wakings(c, ss, steps, a, i) < Wakings(c, ss, steps, a, b)
    decreases b
  {
    if i < b { WakingsGrow(c, ss, steps, a, i, b - 1); }
  }

  // Different packets of num_vc in a row are different readers' turn.
  lemma OnceInTurn(c: Config, ss: seq<System>, steps: seq<Step>, a: nat, b: nat, i: nat, k: nat)
    requires c.nvc >= 1 && |ss| == |steps| + 1 && a <= i < b <= |steps| && a <= k < b
    requires Wakings(c, ss, steps, a, b) == c.nvc && 0 <= ss[a].ni.lastFreeVC < c.nvc
    requires Waking(c, ss[i], steps[i]) && Waking(c, ss[k], steps[k])
    requires Whose(c, ss, steps, a, i) == Whose(c, ss, steps, a, k)
    ensures i == k
  {
    WakingsGrow(c, ss, steps, a, i, b);
    WakingsGrow(c, ss, steps, a, k, b);
    SameTurn(ss[a].ni.lastFreeVC, Wakings(c, ss, steps, a, i), Wakings(c, ss, steps, a, k), c.nvc);
    if i < k { WakingsGrow(c, ss, steps, a, i, k); }
    if k < i { WakingsGrow(c, ss, steps, a, k, i); }
  }

  lemma SameTurn(first: int, j: int, l: int, n: nat)
    requires 0 <= first < n && 0 <= j < n && 0 <= l < n && (first + j) % n == (first + l) % n
    ensures j == l
  {
    Reduced(first + j, n);
    Reduced(first + l, n);
  }

  lemma Reduced(x: int, n: nat)
    requires 0 <= x < 2 * n
    ensures x % n == if x < n then x else x - n
  {
    if x < n { DivMod(x, 0, n); } else { DivMod(x - n, 1, n); }
  }

  // No other step wakes a reader or sets an event; with one reader for the port the same packets wake that one.
  lemma OnlyThese(c: Config, s: System, a: Step)
    requires c.nvc >= 1 && Reachable(c, s) && Enabled(c, s, a)
    ensures var s' := Do(c, s, a);
            if !Waking(c, s, a) then s.ni.waiting <= s'.ni.waiting && s'.ni.rung <= s.ni.rung
            else !c.perVC ==> Wakes(s.ni, s'.ni, 0)
  {}

  // ---------- events and held VCs ----------

  // A reader that waits has no packet in hand and found its event not set.
  ghost predicate Idle(s: System) { forall v :: v in s.ni.waiting ==> v !in s.ni.rung && v !in s.holding }

  // The VCs that are not free are held, each by one reader.
  ghost predicate Held(c: Config, s: System) {
    && |s.ni.freeVC| == c.nvc
    && (forall v {:trigger v in s.holding} :: v in s.holding && s.holding[v].Some? ==>
          0 <= s.holding[v].value < c.nvc && !s.ni.freeVC[s.holding[v].value])
    && (forall u, v {:trigger u in s.holding, v in s.holding} ::
          u in s.holding && v in s.holding && s.holding[u].Some? && s.holding[u] == s.holding[v] ==> u == v)
    && (forall x {:trigger s.ni.freeVC[x]} :: 0 <= x < c.nvc && !s.ni.freeVC[x] ==>
          exists v {:trigger v in s.holding} :: v in s.holding && s.holding[v] == Some(x))
  }

  lemma StepIdle(c: Config, s: System, a: Step)
    requires c.nvc >= 1 && Idle(s) && Enabled(c, s, a)
    ensures Idle(Do(c, s, a))
  {}

  lemma LookHeld(c: Config, s: System, v: int)
    requires c.nvc >= 1 && Held(c, s) && Enabled(c, s, Look(v))
    ensures Held(c, Do(c, s, Look(v)))
  {
    var s' := Do(c, s, Look(v));
    forall x | 0 <= x < c.nvc && !s'.ni.freeVC[x] ensures exists u :: u in s'.holding && s'.holding[u] == Some(x) {
      var u :| u in s.holding && s.holding[u] == Some(x);
      assert u in s'.holding;
    }
  }

  lemma PickHeld(c: Config, s: System, v: int, isFull: int -> bool, vc: int)
    requires c.nvc >= 1 && Held(c, s) && Enabled(c, s, Pick(v, isFull, vc))
    ensures Held(c, Do(c, s, Pick(v, isFull, vc)))
  {
    var s' := Do(c, s, Pick(v, isFull, vc));
    forall x | 0 <= x < c.nvc && !s'.ni.freeVC[x] ensures exists u :: u in s'.holding && s'.holding[u] == Some(x) {
      var u: int :| if x == vc then u == v else u in s.holding && s.holding[u] == Some(x);
      assert u in s'.holding;
    }
  }

  lemma DoneHeld(c: Config, s: System, v: int)
    requires c.nvc >= 1 && Held(c, s) && Enabled(c, s, Done(v))
    ensures Held(c, Do(c, s, Done(v)))
  {
    var s' := Do(c, s, Done(v));
    forall x | 0 <= x < c.nvc && !s'.ni.freeVC[x] ensures exists u :: u in s'.holding && s'.holding[u] == Some(x) {
      var u :| u in s.holding && s.holding[u] == Some(x);
      assert u in s'.holding;
    }
  }

  lemma StepHeld(c: Config, s: System, a: Step)
    requires c.nvc >= 1 && Held(c, s) && Enabled(c, s, a)
    ensures Held(c, Do(c, s, a))
  {
    match a
    case Write(pkt) =>
    case Look(v) => LookHeld(c, s, v);
    case Pick(v, isFull, vc) => PickHeld(c, s, v, isFull, vc);
    case Done(v) => DoneHeld(c, s, v);
  }

  lemma {:induction false} RunHeld(c: Config, steps: seq<Step>, s: System)
    requires c.nvc >= 1 && Run(c, Start(c), steps, s)
    ensures Idle(s) && Held(c, s)
    decreases |steps|
  {
    if steps != [] {
      var n := |steps| - 1;
      var u :| Run(c, Start(c), steps[..n], u) && Enabled(c, u, steps[n]) && s == Do(c, u, steps[n]);
      RunHeld(c, steps[..n], u);
      StepIdle(c, u, steps[n]);
      StepHeld(c, u, steps[n]);
    }
  }

  // In every state reached a VC is free exactly when no reader holds it, and no two readers hold the same.
  lemma VCsHeld(c: Config, s: System)
    requires c.nvc >= 1 && Reachable(c, s)
    ensures Idle(s) && Held(c, s)
  {
    var steps :| Run(c, Start(c), steps, s);
    RunHeld(c, steps, s);
  }

  // A reader that finds the queue empty waits, but if its event is set it does so only when it comes round again.
  lemma SecondLookWaits(s: Ni, v: int)
    requires s.pktQ == []
    ensures v !in s.waiting ==> (v in Read(s, v).waiting <==> v !in s.rung)
    ensures v in s.rung ==> v in Read(Read(s, v), v).waiting
    ensures forall u :: u != v ==>
              (u in Read(s, v).waiting <==> u in s.waiting) && (u in Read(s, v).rung <==> u in s.rung)
  {}

  // A VC that is picked is not picked again before it is free, and the next pick takes the VC after it if that is
  // usable.
  lemma NextPick(c: Config, s: Ni, vc: int, isFull: int -> bool, next: int)
    requires s.Valid(c) && 0 <= vc < c.nvc && FirstUsable(Picked(c, s, vc, true), isFull, next)
    ensures next != vc
    ensures Picked(c, s, vc, true).Usable(isFull, (vc + 1) % c.nvc) ==> next == (vc + 1) % c.nvc
  {
    Reduced(vc + 1, c.nvc);
  }
}
