// Output VC allocation is first come, first served.

module Fcfs {
  import opened Wiring
  import opened Protocol
  import opened Stages
  import opened StageProofs
  import opened VCArbs

  // Requests are for distinct input VCs, all in state R.
  ghost predicate Distinct(c: Ctl) {
    && (forall i :: 0 <= i < |c.reqQ| ==> In(c, c.reqQ[i].0).st.R?)
    && AllApart(c.reqQ)
  }

  // One grant leaves the other requests as they were.
  lemma AllocateDistinct(c: Ctl, i: nat, ov: int, now: int)
    requires i < |c.reqQ| && Distinct(c)
    ensures Distinct(Allocate(c, i, ov, now))
  {
    var q, q' := c.reqQ, Allocate(c, i, ov, now).reqQ;
    forall a, b ensures Apart(q', a, b) { assert Apart(q, if a < i then a else a + 1, if b < i then b else b + 1); }
    forall a | 0 <= a < |q'| ensures In(Allocate(c, i, ov, now), q'[a].0).st.R? {
      var x := if a < i then a else a + 1;
      assert q'[a] == q[x] && Apart(q, x, i) && Apart(q, i, x);
    }
  }

  lemma AllocateTail(c: Ctl, i: nat, ov: int, now: int)
    requires i < |c.reqQ|
    ensures |Allocate(c, i, ov, now).reqQ| == |c.reqQ| - 1
    ensures Allocate(c, i, ov, now).reqQ[i..] == c.reqQ[i + 1..]
  {}

  ghost predicate Absent(q: seq<(VC, int)>, k: VC) { forall j :: 0 <= j < |q| ==> q[j].0 != k }

  lemma AbsentTail(q: seq<(VC, int)>, i: nat, k: VC)
    requires i < |q|
    ensures Absent(q[i..], k) <==> q[i].0 != k && Absent(q[i + 1..], k)
  {
    assert q[i..] == [q[i]] + q[i + 1..];
  }

  lemma OnlyOnce(c: Ctl, i: nat)
    requires Distinct(c) && i < |c.reqQ|
    ensures Absent(c.reqQ[i + 1..], c.reqQ[i].0)
  {
    var tail := c.reqQ[i + 1..];
    forall j | 0 <= j < |tail| ensures tail[j].0 != c.reqQ[i].0 { assert Apart(c.reqQ, i, i + 1 + j); }
  }

  lemma SameTail(q: seq<(VC, int)>, i: nat, q1: seq<(VC, int)>, i1: nat, a: nat)
    requires i < a < |q| && i1 <= |q1| && q1[i1..] == q[i + 1..]
    ensures |q1| - i1 == |q| - i - 1 && q1[a - i - 1 + i1] == q[a]
  {
    assert |q1[i1..]| == |q[i + 1..]|;
    assert q1[i1..][a - i - 1] == q[i + 1..][a - i - 1];
  }

  // What the arbiter does with request i: it refuses it and goes on to the next one, or grants it.
  lemma VAStep(T: Topo, s: Net, r: int, admit: (int, VC, int) -> bool, i: nat) returns (s1: Net, i1: nat)
    requires Sized(T, s) && 0 <= r < |s.rs| && i < |s.rs[r].c.reqQ| && Distinct(s.rs[r].c)
    ensures Sized(T, s1) && Distinct(s1.rs[r].c) && i1 <= |s1.rs[r].c.reqQ|
    ensures VAFrom(T, s, r, admit, i) == VAFrom(T, s1, r, admit, i1)
    ensures s1.rs[r].c.reqQ[i1..] == s.rs[r].c.reqQ[i + 1..]
    ensures s.rs[r].c.busy <= s1.rs[r].c.busy
    ensures forall k :: k != s.rs[r].c.reqQ[i].0 ==> In(s1.rs[r].c, k) == In(s.rs[r].c, k)
    ensures var k := s.rs[r].c.reqQ[i].0;
            var op := s.rs[r].c.reqQ[i].1;
            var m := In(s1.rs[r].c, k);
            if i1 == i + 1 then s1 == s && NoVCFor(T, s.rs[r].c, admit, k, op)
            else
              && m.st.V? && m.outPc == op && 0 <= m.outVc < T.nvc && admit(m.outVc, k, op)
              && VC(op, m.outVc) !in s.rs[r].c.busy && VC(op, m.outVc) in s1.rs[r].c.busy
              && forall ov :: 0 <= ov < m.outVc ==> VC(op, ov) in s.rs[r].c.busy || !admit(ov, k, op)
  {
    var c := s.rs[r].c;
    var x := FirstVC(T, c, admit, c.reqQ[i].0, c.reqQ[i].1, 0);
    FirstVCIs(T, c, admit, c.reqQ[i].0, c.reqQ[i].1, 0);
    if x.None? {
      s1, i1 := s, i + 1;
    } else {
      AllocateDistinct(c, i, x.value, s.now);
      s1, i1 := Upd(s, r, s.rs[r].(c := Allocate(c, i, x.value, s.now))), i;
      AllocateTail(c, i, x.value, s.now);
    }
  }

  // What one call of the arbiter from request i on does to an input VC and to the output VCs.
  lemma {:induction false} VAEffect(T: Topo, s: Net, r: int, admit: (int, VC, int) -> bool, i: nat, k: VC)
    requires Sized(T, s) && 0 <= r < |s.rs| && i <= |s.rs[r].c.reqQ| && Distinct(s.rs[r].c)
    ensures var c := s.rs[r].c;
            var c' := VAFrom(T, s, r, admit, i).rs[r].c;
            && Distinct(c') && c.busy <= c'.busy
            && (Absent(c.reqQ[i..], k) ==> In(c', k) == In(c, k))
            && (In(c, k).st.R? && !In(c', k).st.R? ==>
                  && In(c', k).st.V? && VC(In(c', k).outPc, In(c', k).outVc) !in c.busy
                  && VC(In(c', k).outPc, In(c', k).outVc) in c'.busy
                  && admit(In(c', k).outVc, k, In(c', k).outPc) && 0 <= In(c', k).outVc < T.nvc)
    decreases |s.rs[r].c.reqQ[i..]|
  {
    if i < |s.rs[r].c.reqQ| {
      var s1, i1 := VAStep(T, s, r, admit, i);
      AbsentTail(s.rs[r].c.reqQ, i, k);
      VAEffect(T, s1, r, admit, i1, k);
    }
  }

  // Every VC of its port below the one granted is taken or not admitted.
  ghost predicate LowestFor(T: Topo, c: Ctl, admit: (int, VC, int) -> bool, k: VC, m: InMod) {
    forall ov :: 0 <= ov < m.outVc ==> VC(m.outPc, ov) in c.busy || !admit(ov, k, m.outPc)
  }

  lemma LowestKept(T: Topo, c: Ctl, c': Ctl, admit: (int, VC, int) -> bool, k: VC, m: InMod)
    requires c.busy <= c'.busy
    ensures LowestFor(T, c, admit, k, m) ==> LowestFor(T, c', admit, k, m)
  {}

  // The turn of request i decides it for the whole call.
  lemma TurnOf(T: Topo, s: Net, r: int, admit: (int, VC, int) -> bool, i: nat)
    requires Sized(T, s) && 0 <= r < |s.rs| && i < |s.rs[r].c.reqQ| && Distinct(s.rs[r].c)
    ensures var m := In(VAFrom(T, s, r, admit, i).rs[r].c, s.rs[r].c.reqQ[i].0);
            && (m.st.V? ==> m.outPc == s.rs[r].c.reqQ[i].1 && LowestFor(T, s.rs[r].c, admit, s.rs[r].c.reqQ[i].0, m))
            && (m.st.R? ==> NoVCFor(T, s.rs[r].c, admit, s.rs[r].c.reqQ[i].0, s.rs[r].c.reqQ[i].1))
  {
    var s1, i1 := VAStep(T, s, r, admit, i);
    OnlyOnce(s.rs[r].c, i);
    VAEffect(T, s1, r, admit, i1, s.rs[r].c.reqQ[i].0);
  }

  ghost predicate NoVCFor(T: Topo, c: Ctl, admit: (int, VC, int) -> bool, k: VC, op: int) {
    forall ov :: 0 <= ov < T.nvc ==> VC(op, ov) in c.busy || !admit(ov, k, op)
  }

  lemma VANext(T: Topo, s: Net, r: int, admit: (int, VC, int) -> bool, i: nat) returns (s1: Net, i1: nat)
    requires Sized(T, s) && 0 <= r < |s.rs| && i < |s.rs[r].c.reqQ| && Distinct(s.rs[r].c)
    ensures Sized(T, s1) && Distinct(s1.rs[r].c) && i1 <= |s1.rs[r].c.reqQ|
    ensures VAFrom(T, s, r, admit, i) == VAFrom(T, s1, r, admit, i1)
    ensures s1.rs[r].c.reqQ[i1..] == s.rs[r].c.reqQ[i + 1..]
  {
    s1, i1 := VAStep(T, s, r, admit, i);
  }

  lemma AtItsTurn(T: Topo, s: Net, r: int, admit: (int, VC, int) -> bool, i: nat)
    requires Sized(T, s) && 0 <= r < |s.rs| && i < |s.rs[r].c.reqQ| && Distinct(s.rs[r].c)
    ensures var c' := VAFrom(T, s, r, admit, i).rs[r].c;
            var (k, op) := s.rs[r].c.reqQ[i];
            && (In(c', k).st.V? ==> In(c', k).outPc == op && LowestFor(T, c', admit, k, In(c', k)))
            && (In(c', k).st.R? ==> NoVCFor(T, c', admit, k, op))
  {
    var c' := VAFrom(T, s, r, admit, i).rs[r].c;
    var k := s.rs[r].c.reqQ[i].0;
    TurnOf(T, s, r, admit, i);
    VAEffect(T, s, r, admit, i, k);
    LowestKept(T, s.rs[r].c, c', admit, k, In(c', k));
  }

  // The fate of request a: it keeps its place, or gets an output VC of the port it asked for, the lowest that is left
  // and admitted for it.
  lemma {:induction false} VAFate(T: Topo, s: Net, r: int, admit: (int, VC, int) -> bool, i: nat, a: nat)
    requires Sized(T, s) && 0 <= r < |s.rs| && i <= a < |s.rs[r].c.reqQ| && Distinct(s.rs[r].c)
    ensures var c' := VAFrom(T, s, r, admit, i).rs[r].c;
            var k := s.rs[r].c.reqQ[a].0;
            && (In(c', k).st.V? ==> In(c', k).outPc == s.rs[r].c.reqQ[a].1 && LowestFor(T, c', admit, k, In(c', k)))
            && (In(c', k).st.R? ==> NoVCFor(T, c', admit, k, s.rs[r].c.reqQ[a].1))
    decreases |s.rs[r].c.reqQ[i..]|
  {
    if i < a {
      var s1, i1 := VANext(T, s, r, admit, i);
      SameTail(s.rs[r].c.reqQ, i, s1.rs[r].c.reqQ, i1, a);
      VAFate(T, s1, r, admit, i1, a - i - 1 + i1);
    } else {
      AtItsTurn(T, s, r, admit, i);
    }
  }

  // Output VC o is the one input VC k maps to.
  predicate Holds(c: Ctl, k: VC, o: VC) { In(c, k).st.V? && In(c, k).outPc == o.pc && In(c, k).outVc == o.vc }

  // A request is still refused after the call exactly when every output VC of its port is held by another
  // packet or not admitted for it: the arbiter leaves nothing it could have granted.
  lemma RefusedHasNoVC(T: Topo, s: Net, r: int, admit: (int, VC, int) -> bool, a: nat)
    requires Sized(T, s) && 0 <= r < |s.rs| && a < |s.rs[r].c.reqQ| && Distinct(s.rs[r].c)
    ensures var c' := VAFrom(T, s, r, admit, 0).rs[r].c;
            var k := s.rs[r].c.reqQ[a].0;
            var op := s.rs[r].c.reqQ[a].1;
            In(c', k).st.R? <==>
              forall ov :: 0 <= ov < T.nvc ==> (VC(op, ov) in c'.busy && !Holds(c', k, VC(op, ov))) || !admit(ov, k, op)
  {
    VAEffect(T, s, r, admit, 0, s.rs[r].c.reqQ[a].0);
    VAFate(T, s, r, admit, 0, a);
  }

  lemma Followed(q: seq<(VC, int)>, i: nat, q1: seq<(VC, int)>, i1: nat, a: nat, b: nat) returns (a1: nat, b1: nat)
    requires i < a < b < |q| && i1 <= |q1| && q1[i1..] == q[i + 1..]
    ensures i1 <= a1 < b1 < |q1| && a1 - i1 < a - i && q1[a1] == q[a] && q1[b1] == q[b]
  {
    SameTail(q, i, q1, i1, a);
    SameTail(q, i, q1, i1, b);
    a1, b1 := a - i - 1 + i1, b - i - 1 + i1;
  }

  // One request decided, with two later ones followed to where they then stand.
  lemma Advance(T: Topo, s: Net, r: int, admit: (int, VC, int) -> bool, i: nat, a: nat, b: nat)
    returns (s1: Net, i1: nat, a1: nat, b1: nat)
    requires Sized(T, s) && 0 <= r < |s.rs| && i < a < b < |s.rs[r].c.reqQ| && Distinct(s.rs[r].c)
    ensures Sized(T, s1) && r < |s1.rs| && Distinct(s1.rs[r].c) && i1 <= a1 < b1 < |s1.rs[r].c.reqQ| && a1 - i1 < a - i
    ensures s1.rs[r].c.reqQ[a1] == s.rs[r].c.reqQ[a] && s1.rs[r].c.reqQ[b1] == s.rs[r].c.reqQ[b]
    ensures VAFrom(T, s1, r, admit, i1) == VAFrom(T, s, r, admit, i)
  {
    s1, i1 := VANext(T, s, r, admit, i);
    a1, b1 := Followed(s.rs[r].c.reqQ, i, s1.rs[r].c.reqQ, i1, a, b);
  }

  // If an earlier request for a port is refused while a later one for the same port is granted output VC
  // ov, then the routing function did not admit ov for the earlier one.
  lemma NoOvertaking(T: Topo, s: Net, r: int, admit: (int, VC, int) -> bool, a: nat, b: nat)
    requires Sized(T, s) && 0 <= r < |s.rs| && a < b < |s.rs[r].c.reqQ| && Distinct(s.rs[r].c)
    requires s.rs[r].c.reqQ[a].1 == s.rs[r].c.reqQ[b].1
    requires var c' := VAFrom(T, s, r, admit, 0).rs[r].c;
             In(c', s.rs[r].c.reqQ[a].0).st.R? && In(c', s.rs[r].c.reqQ[b].0).st.V?
    ensures var c' := VAFrom(T, s, r, admit, 0).rs[r].c;
            !admit(In(c', s.rs[r].c.reqQ[b].0).outVc, s.rs[r].c.reqQ[a].0, s.rs[r].c.reqQ[a].1)
  {
    var q := s.rs[r].c.reqQ;
    var s1, i1: nat, a1: nat, b1: nat := s, 0, a, b;
    while i1 < a1
      invariant Sized(T, s1) && r < |s1.rs| && Distinct(s1.rs[r].c) && i1 <= a1 < b1 < |s1.rs[r].c.reqQ|
      invariant s1.rs[r].c.reqQ[a1] == q[a] && s1.rs[r].c.reqQ[b1] == q[b]
      invariant VAFrom(T, s1, r, admit, i1) == VAFrom(T, s, r, admit, 0)
      decreases a1 - i1
    {
      s1, i1, a1, b1 := Advance(T, s1, r, admit, i1, a1, b1);
    }
    VAFate(T, s1, r, admit, i1, b1);
    RefusedAtTurn(T, s1, r, admit, i1, q[b].0);
  }

  // At the turn of a request that is refused, every output VC it may use is busy already, and so no later
  // request gets one of them.
  lemma RefusedAtTurn(T: Topo, s: Net, r: int, admit: (int, VC, int) -> bool, i: nat, k': VC)
    requires Sized(T, s) && 0 <= r < |s.rs| && i < |s.rs[r].c.reqQ| && Distinct(s.rs[r].c)
    requires In(s.rs[r].c, k').st.R?
    requires var c' := VAFrom(T, s, r, admit, i).rs[r].c;
             In(c', s.rs[r].c.reqQ[i].0).st.R? && In(c', k').st.V? && In(c', k').outPc == s.rs[r].c.reqQ[i].1
    ensures var c' := VAFrom(T, s, r, admit, i).rs[r].c;
            !admit(In(c', k').outVc, s.rs[r].c.reqQ[i].0, s.rs[r].c.reqQ[i].1)
  {
    TurnOf(T, s, r, admit, i);
    VAEffect(T, s, r, admit, i, k');
  }
}
