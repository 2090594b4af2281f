// The VC arbiter decides all its requests first, deletes the granted ones afterwards, and the router then
// makes their switch requests. This is the same as granting them one by one.

module VAStage {
  import opened Wiring
  import opened Protocol
  import opened Stages
  import opened VCArbs

  // VCArbFCFS::grant from request i on, on the control state alone.
  function VACtl(T: Topo, c: Ctl, admit: (int, VC, int) -> bool, i: nat, now: int): Ctl
    requires i <= |c.reqQ|
    decreases |c.reqQ| - i
  {
    if i == |c.reqQ| then c
    else
      match FirstVC(T, c, admit, c.reqQ[i].0, c.reqQ[i].1, 0)
      case None => VACtl(T, c, admit, i + 1, now)
      case Some(ov) => VACtl(T, Allocate(c, i, ov, now), admit, i, now)
  }

  lemma {:induction false} VAFromIs(T: Topo, s: Net, r: int, admit: (int, VC, int) -> bool, i: nat)
    requires Sized(T, s) && 0 <= r < |s.rs| && i <= |s.rs[r].c.reqQ|
    ensures VAFrom(T, s, r, admit, i) == Upd(s, r, s.rs[r].(c := VACtl(T, s.rs[r].c, admit, i, s.now)))
    decreases |s.rs[r].c.reqQ| - i
  {
    var c := s.rs[r].c;
    if i < |c.reqQ| {
      var x := FirstVC(T, c, admit, c.reqQ[i].0, c.reqQ[i].1, 0);
      if x.None? {
        VAFromIs(T, s, r, admit, i + 1);
      } else {
        VAFromIs(T, Upd(s, r, s.rs[r].(c := Allocate(c, i, x.value, s.now))), r, admit, i);
      }
    }
  }

  // The switch requests of the grants, each an input VC with its output VC.
  function AddReqs(sw: map<VC, SwReq>, gr: seq<(VC, VC)>, n: nat, now: int): map<VC, SwReq>
    requires n <= |gr|
  {
    if n == 0 then sw
    else AddReqs(sw, gr, n - 1, now)[gr[n - 1].0 := SwReq(gr[n - 1].1.pc, gr[n - 1].1.vc, now)]
  }

  lemma {:induction false} AddReqsPrefix(sw: map<VC, SwReq>, gr: seq<(VC, VC)>, x: (VC, VC), n: nat, now: int)
    requires n <= |gr|
    ensures AddReqs(sw, gr + [x], n, now) == AddReqs(sw, gr, n, now)
  {
    if n > 0 { AddReqsPrefix(sw, gr, x, n - 1, now); }
  }

  lemma {:induction false} AddReqsKeys(sw: map<VC, SwReq>, gr: seq<(VC, VC)>, n: nat, now: int)
    requires n <= |gr|
    ensures forall k :: k in AddReqs(sw, gr, n, now) ==> k in sw || exists j :: 0 <= j < n && gr[j].0 == k
  {
    if n > 0 { AddReqsKeys(sw, gr, n - 1, now); }
  }

  // The first i requests of c0 are decided: those at positions d are granted, as gr says; c is the state in
  // which each grant has been carried out at once.
  ghost predicate Decided(T: Topo, c0: Ctl, admit: (int, VC, int) -> bool, now: int, c: Ctl, d: seq<nat>,
                          gr: seq<(VC, VC)>, i: nat) {
    var q := c0.reqQ;
    && i <= |q| && |d| == |gr| && Ascending(d, i)
    && |Kept(q, d, i)| == i - |d| && c.reqQ == Kept(q, d, i) + q[i..]
    && VACtl(T, c, admit, i - |d|, now) == VACtl(T, c0, admit, 0, now)
    && c.sw == AddReqs(c0.sw, gr, |gr|, now)
    && c.q == c0.q && c.waiting == c0.waiting && c.taken == c0.taken
    && c.xown == c0.xown && c.got == c0.got && c.sent == c0.sent
  }

  // The n-th grant is for the request at position d[n], whose input VC is in state V.
  ghost predicate GrantedAt(c0: Ctl, c: Ctl, d: seq<nat>, gr: seq<(VC, VC)>, n: int) {
    0 <= n < |gr| && n < |d| ==>
      && d[n] < |c0.reqQ| && gr[n].0 == c0.reqQ[d[n]].0 && gr[n].1.pc == c0.reqQ[d[n]].1
      && In(c, gr[n].0) == InMod(V, gr[n].1.pc, gr[n].1.vc)
  }

  ghost predicate Untouched(c0: Ctl, c: Ctl, j: int) {
    0 <= j < |c0.reqQ| ==> In(c, c0.reqQ[j].0) == In(c0, c0.reqQ[j].0)
  }

  // The input modules agree: granted ones are in state V, those still to come as they were.
  ghost predicate ModsAgree(c0: Ctl, c: Ctl, d: seq<nat>, gr: seq<(VC, VC)>, i: nat) {
    && i <= |c0.reqQ| && |d| == |gr| && (forall n :: 0 <= n < |d| ==> d[n] < i)
    && (forall n {:trigger GrantedAt(c0, c, d, gr, n)} :: GrantedAt(c0, c, d, gr, n))
    && (forall j {:trigger Untouched(c0, c, j)} :: i <= j ==> Untouched(c0, c, j))
  }

  lemma DecidedStart(T: Topo, c0: Ctl, admit: (int, VC, int) -> bool, now: int)
    ensures Decided(T, c0, admit, now, c0, [], [], 0) && ModsAgree(c0, c0, [], [], 0)
  {}

  lemma {:induction false} DecidedSkip(T: Topo, c0: Ctl, admit: (int, VC, int) -> bool, now: int, c: Ctl, d: seq<nat>,
          gr: seq<(VC, VC)>, i: nat)
    requires Decided(T, c0, admit, now, c, d, gr, i) && i < |c0.reqQ|
    requires FirstVC(T, c, admit, c0.reqQ[i].0, c0.reqQ[i].1, 0).None?
    ensures Decided(T, c0, admit, now, c, d, gr, i + 1)
  {
    var q := c0.reqQ;
    assert i !in d;
    assert q[i..] == [q[i]] + q[i + 1..];
    assert c.reqQ[i - |d|] == q[i];
    assert Kept(q, d, i + 1) == Kept(q, d, i) + [q[i]];
  }

  lemma {:induction false} QueueGrant<R>(q: seq<R>, d: seq<nat>, i: nat, cur: seq<R>)
    requires i < |q| && |d| <= i && Ascending(d, i) && |Kept(q, d, i)| == i - |d| && cur == Kept(q, d, i) + q[i..]
    ensures i - |d| < |cur| && cur[i - |d|] == q[i]
    ensures Ascending(d + [i], i + 1)
    ensures |Kept(q, d + [i], i + 1)| == i - |d|
    ensures cur[..i - |d|] + cur[i - |d| + 1..] == Kept(q, d + [i], i + 1) + q[i + 1..]
  {
    var p := i - |d|;
    var a := Kept(q, d, i);
    assert q[i..] == [q[i]] + q[i + 1..];
    assert cur[p] == q[i];
    assert cur[..p] + cur[p + 1..] == a + q[i + 1..];
    KeptPrefix(q, d, i, i);
    assert Kept(q, d + [i], i + 1) == a;
  }

  lemma {:induction false} VACtlGrant(T: Topo, c: Ctl, admit: (int, VC, int) -> bool, p: nat, ov: int, now: int)
    requires p < |c.reqQ| && FirstVC(T, c, admit, c.reqQ[p].0, c.reqQ[p].1, 0) == Some(ov)
    ensures VACtl(T, c, admit, p, now) == VACtl(T, Allocate(c, p, ov, now), admit, p, now)
  {}

  lemma {:induction false} DecidedGrant(T: Topo, c0: Ctl, admit: (int, VC, int) -> bool, now: int, c: Ctl, d: seq<nat>,
          gr: seq<(VC, VC)>, i: nat, ov: int)
    requires Decided(T, c0, admit, now, c, d, gr, i) && i < |c0.reqQ|
    requires FirstVC(T, c, admit, c0.reqQ[i].0, c0.reqQ[i].1, 0) == Some(ov)
    ensures i - |d| < |c.reqQ| && c.reqQ[i - |d|] == c0.reqQ[i]
    ensures Decided(T, c0, admit, now, Allocate(c, i - |d|, ov, now), d + [i],
                    gr + [(c0.reqQ[i].0, VC(c0.reqQ[i].1, ov))], i + 1)
  {
    var q := c0.reqQ;
    QueueGrant(q, d, i, c.reqQ);
    VACtlGrant(T, c, admit, i - |d|, ov, now);
    AddReqsPrefix(c0.sw, gr, (q[i].0, VC(q[i].1, ov)), |gr|, now);
  }

  lemma ModsGrant(c0: Ctl, c: Ctl, d: seq<nat>, gr: seq<(VC, VC)>, i: nat, p: nat, ov: int, now: int)
    requires ModsAgree(c0, c, d, gr, i) && i < |c0.reqQ| && p < |c.reqQ| && c.reqQ[p] == c0.reqQ[i]
    requires AllApart(c0.reqQ)
    ensures ModsAgree(c0, Allocate(c, p, ov, now), d + [i], gr + [(c0.reqQ[i].0, VC(c0.reqQ[i].1, ov))], i + 1)
  {
    var q := c0.reqQ;
    var c' := Allocate(c, p, ov, now);
    var gr' := gr + [(q[i].0, VC(q[i].1, ov))];
    forall j | i + 1 <= j ensures Untouched(c0, c', j) {
      assert Untouched(c0, c, j) && Apart(q, i, j);
    }
    forall n ensures GrantedAt(c0, c', d + [i], gr', n) {
      assert GrantedAt(c0, c, d, gr, n);
      if 0 <= n < |gr| { assert Apart(q, d[n], i); }
    }
  }
}
