// The order of the deposited credits of a router, and what incCredit makes of it.

module CreditOrder {
  import opened Wiring
  import opened Flits
  import opened Protocol
  import opened Invariant
  import opened Stages
  import opened StageProofs
  import opened Runs
  import opened Changes

  // ---------- when credits were deposited ----------

  // The cycle in which the flit was read for which this credit was deposited.
  function Born(T: Topo, r: int, d: Credit): int { d.clk - T.Lat(Port(r, d.outPc)) }

  // The deposits are in the order in which they were made.
  ghost predicate BornInOrder(T: Topo, r: int, deps: seq<Credit>, now: int) {
    && (forall i {:trigger deps[i]} :: 0 <= i < |deps| ==> Born(T, r, deps[i]) <= now)
    && (forall i, j {:trigger deps[i], deps[j]} :: 0 <= i < j < |deps| ==> Born(T, r, deps[i]) <= Born(T, r, deps[j]))
  }

  ghost predicate AllBorn(T: Topo, s: Net) {
    forall r {:trigger s.rs[r]} :: 0 <= r < |s.rs| ==> BornInOrder(T, r, s.rs[r].deps, s.now)
  }

  // No router's deposits change.
  ghost predicate SameDeposits(s: Net, s': Net) {
    |s'.rs| == |s.rs| && s'.now >= s.now &&
      forall r {:trigger s'.rs[r]} :: 0 <= r < |s.rs| ==> s'.rs[r].deps == s.rs[r].deps
  }

  lemma SameBorn(T: Topo, s: Net, s': Net)
    requires AllBorn(T, s) && SameDeposits(s, s')
    ensures AllBorn(T, s')
  {
    forall r | 0 <= r < |s'.rs| ensures BornInOrder(T, r, s'.rs[r].deps, s'.now) {
      assert BornInOrder(T, r, s.rs[r].deps, s.now);
    }
  }

  lemma CreditedBorn(T: Topo, s: Net, r: int)
    requires AllBorn(T, s) && 0 <= r < |s.rs| && s.rs[r].deps != []
    ensures AllBorn(T, Upd(s, r, Inc(T, s.rs[r])))
  {
    var s' := Upd(s, r, Inc(T, s.rs[r]));
    forall r' | 0 <= r' < |s'.rs| ensures BornInOrder(T, r', s'.rs[r'].deps, s'.now) {
      assert BornInOrder(T, r', s.rs[r'].deps, s.now);
    }
  }

  lemma GiveBackBorn(T: Topo, s: Net, k: VC, up: Option<Port>)
    requires AllBorn(T, s) && (up.Some? ==> 0 <= up.value.router < |s.rs|)
    ensures AllBorn(T, GiveBack(T, s, k, up))
  {
    var s' := GiveBack(T, s, k, up);
    forall r | 0 <= r < |s'.rs| ensures BornInOrder(T, r, s'.rs[r].deps, s'.now) {
      assert BornInOrder(T, r, s.rs[r].deps, s.now);
    }
  }

  lemma CrossedBorn(T: Topo, s: Net, r: int, ip: int)
    requires Sized(T, s) && AllBorn(T, s) && 0 <= r < |s.rs| && Q(s.rs[r].c, VC(ip, Waiting(s.rs[r].c, ip))) != []
    ensures AllBorn(T, STPort(T, s, r, ip))
  {
    var s1 := Upd(s, r, Cross(T, r, s.rs[r], ip, s.now));
    SameBorn(T, s, s1);
    GiveBackBorn(T, s1, VC(ip, Waiting(s.rs[r].c, ip)), T.Up(Port(r, ip)));
  }

  lemma ServedBorn(T: Topo, s: Net, r: int, op: int)
    requires Sized(T, s) && AllBorn(T, s) && 0 <= r < |s.rs|
    ensures AllBorn(T, LTPort(T, s, r, op))
  {
    SameBorn(T, s, LTPort(T, s, r, op));
  }

  lemma UpdBorn(T: Topo, s: Net, r: int, x: RouterState)
    requires AllBorn(T, s) && 0 <= r < |s.rs| && x.deps == s.rs[r].deps
    ensures AllBorn(T, Upd(s, r, x))
  {
    SameBorn(T, s, Upd(s, r, x));
  }

  lemma ChangeBorn(T: Topo, g: Routing, s: Net, r: int, x: Change)
    requires Leads(T, g, s, r, x) && AllBorn(T, s)
    ensures AllBorn(T, Changed(T, s, r, x))
  {
    var rs := s.rs[r];
    match x
    case Credited => CreditedBorn(T, s, r);
    case Served(op) => ServedBorn(T, s, r, op);
    case Crossed(ip) => CrossedBorn(T, s, r, ip);
    case Asked(k) => UpdBorn(T, s, r, rs.(c := Request(rs.c, k, s.now)));
    case Taken(k) => UpdBorn(T, s, r, Take(T, r, rs, k, s.now));
    case Allocated(i, ov) => UpdBorn(T, s, r, rs.(c := Allocate(rs.c, i, ov, s.now)));
    case Routed(k, op) => UpdBorn(T, s, r, rs.(c := Route(rs.c, k, op)));
    case Finished => UpdBorn(T, s, r, rs.(ran := s.now));
  }

  lemma OutsideBorn(T: Topo, s: Net, a: Action)
    requires Sized(T, s) && Enabled(T, s, a) && !a.Sim? && AllBorn(T, s)
    ensures AllBorn(T, Do(T, s, a))
  {
    SameBorn(T, s, Do(T, s, a));
  }

  // In every reachable state the deposits of every router are in the order in which they were made, each due
  // one latency of its own wire later.
  lemma DepositsInOrder(T: Topo, s: Net, r: int)
    requires Reachable(T, s) && 0 <= r < |s.rs|
    ensures BornInOrder(T, r, s.rs[r].deps, s.now)
  {
    var J := (s: Net) => AllBorn(T, s);
    forall s, r, x | Leads(T, FREE, s, r, x) && J(s) ensures J(Changed(T, s, r, x)) { ChangeBorn(T, FREE, s, r, x); }
    forall s, a: Action | Good(T, s) && !a.Sim? && Enabled(T, s, a) && LawfulAct(T, FREE, s, a) && J(s)
      ensures J(Do(T, s, a)) {
      OutsideBorn(T, s, a);
    }
    FreeReachable(T, s);
    Invariance(T, FREE, J, s);
  }

  // ---------- what the program's comment says ----------

  // m_credit_deposit_vec is in non-decreasing order of m_clk_deposit.
  ghost predicate InClockOrder(deps: seq<Credit>) {
    forall i, j {:trigger deps[i], deps[j]} :: 0 <= i < j < |deps| ==> deps[i].clk <= deps[j].clk
  }

  // All wired output ports of the router have the same latency.
  ghost predicate OneLatency(T: Topo, r: int) {
    forall op, op' {:trigger T.Lat(Port(r, op)), T.Lat(Port(r, op'))} ::
      T.Down(Port(r, op)).Some? && T.Down(Port(r, op')).Some? ==> T.Lat(Port(r, op)) == T.Lat(Port(r, op'))
  }

  // It is so in every reachable state wherever the wires of a router are equally long.
  lemma OrderedByClock(T: Topo, s: Net, r: int)
    requires Reachable(T, s) && 0 <= r < |s.rs| && OneLatency(T, r)
    ensures InClockOrder(s.rs[r].deps)
  {
    ReachableGood(T, s);
    DepositsInOrder(T, s, r);
    var deps := s.rs[r].deps;
    assert DepsOk(T, r, s.rs[r]);
    forall i, j | 0 <= i < j < |deps| ensures deps[i].clk <= deps[j].clk {
      assert T.Lat(Port(r, deps[i].outPc)) == T.Lat(Port(r, deps[j].outPc));
    }
  }

  // ---------- incCredit ----------

  // How many deposits incCredit takes: it stops at the first that is not due.
  function Taken(deps: seq<Credit>, now: int): (n: nat)
    ensures n <= |deps| && (forall i :: 0 <= i < n ==> deps[i].clk <= now) && (n < |deps| ==> deps[n].clk > now)
  {
    if deps == [] || deps[0].clk > now then 0 else 1 + Taken(deps[1..], now)
  }

  function Usable(T: Topo, rs: RouterState, o: VC): int { Cr(T, rs.cred, o).num + Cr(T, rs.cred, o).rsv }

  lemma IncUsable(T: Topo, rs: RouterState, o: VC)
    requires rs.deps != []
    ensures Usable(T, Inc(T, rs), o) == Usable(T, rs, o) + DepSum([rs.deps[0]], o)
  {}

  lemma DepSumSplit(d: seq<Credit>, n: nat, o: VC)
    requires 0 < n <= |d|
    ensures DepSum(d[..n], o) == DepSum([d[0]], o) + DepSum(d[1..][..n - 1], o)
  {
    assert d[..n][1..] == d[1..][..n - 1];
    assert [d[0]][1..] == [];
  }

  // incCredit makes usable what the first deposits are worth, up to the first that is not due.
  lemma {:induction false} IncAllTakes(T: Topo, s: Net, r: int, o: VC)
    requires Sized(T, s) && 0 <= r < |s.rs|
    ensures var n := Taken(s.rs[r].deps, s.now);
            && IncAll(T, s, r).rs[r].deps == s.rs[r].deps[n..]
            && Usable(T, IncAll(T, s, r).rs[r], o) == Usable(T, s.rs[r], o) + DepSum(s.rs[r].deps[..n], o)
    decreases |s.rs[r].deps|
  {
    var deps := s.rs[r].deps;
    if deps != [] && deps[0].clk <= s.now {
      var s1 := Upd(s, r, Inc(T, s.rs[r]));
      IncAllTakes(T, s1, r, o);
      IncUsable(T, s.rs[r], o);
      DepSumSplit(deps, Taken(deps, s.now), o);
    }
  }

  // A due deposit stands behind one that is not.
  ghost predicate HeldBack(deps: seq<Credit>, now: int) {
    exists i, j :: 0 <= i < j < |deps| && deps[j].clk <= now < deps[i].clk
  }

  lemma HeldBackIff(deps: seq<Credit>, now: int)
    ensures (exists d :: d in deps[Taken(deps, now)..] && d.clk <= now) <==> HeldBack(deps, now)
  {
    var n := Taken(deps, now);
    var left := deps[n..];
    if d :| d in left && d.clk <= now {
      var j :| 0 <= j < |left| && left[j] == d;
      assert deps[n + j] == d && n < n + j;
    }
    if i, j :| 0 <= i < j < |deps| && deps[j].clk <= now < deps[i].clk {
      assert left[j - n] == deps[j];
    }
  }

  // incCredit leaves a deposit that is due exactly when one stands behind another that is not ...
  lemma LeavesDueIff(T: Topo, s: Net, r: int)
    requires Sized(T, s) && 0 <= r < |s.rs|
    ensures (exists d :: d in IncAll(T, s, r).rs[r].deps && d.clk <= s.now) <==> HeldBack(s.rs[r].deps, s.now)
  {
    IncAllTakes(T, s, r, VC(0, 0));
    HeldBackIff(s.rs[r].deps, s.now);
  }

  // ... which in clock order never happens: then the deposits it leaves are those that are not due yet.
  lemma TakesExactlyTheDue(T: Topo, s: Net, r: int)
    requires Reachable(T, s) && 0 <= r < |s.rs| && OneLatency(T, r)
    ensures Sized(T, s)
    ensures var n := Taken(s.rs[r].deps, s.now);
            && IncAll(T, s, r).rs[r].deps == s.rs[r].deps[n..]
            && forall i :: 0 <= i < |s.rs[r].deps| ==> (i < n <==> s.rs[r].deps[i].clk <= s.now)
  {
    ReachableGood(T, s);
    OrderedByClock(T, s, r);
    IncAllTakes(T, s, r, VC(0, 0));
    var deps := s.rs[r].deps;
    var n := Taken(deps, s.now);
    forall i | n <= i < |deps| ensures deps[i].clk > s.now {
      if i > n { assert deps[n].clk <= deps[i].clk; }
    }
  }
}
