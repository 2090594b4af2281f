// When the three topologies, under their own routing functions, never come to a standstill: exactly when no
// packet can be crowded out of a buffer that the virtual channels of its injection port share.

module SharedBuffers {
  import opened Wiring
  import opened Coordinates
  import opened Protocol
  import opened Timing
  import opened Changes
  import opened Progress
  import opened Writers
  import opened Crowds
  import opened Crowding
  import opened Priorities
  import opened Digits
  import Torus
  import TorusProgress
  import Mesh
  import MeshProgress
  import FatTree
  import FatTreeRouting
  import FatTreeProgress

  // Whatever the packets are.
  ghost predicate TorusGoesOn(t: Grid, epc: nat, linkLat: nat, par: Topo, single: bool, vp: Policy, pp: Policy)
    requires t.Valid()
  {
    forall dest, eject ::
      TimedGoesOn(Torus.Network(t, epc, linkLat, par),
                  TorusProgress.TorusRouting(t, epc, par.nvc, dest, eject, single), vp, pp)
  }

  ghost predicate MeshGoesOn(t: Grid, epc: nat, linkLat: nat, par: Topo, single: bool, vp: Policy, pp: Policy)
    requires t.Valid()
  {
    forall src, dest, eject ::
      TimedGoesOn(Mesh.Network(t, epc, linkLat, par),
                  MeshProgress.MeshRouting(t, epc, par.nvc, src, dest, eject, single), vp, pp)
  }

  ghost predicate FatTreeGoesOn(t: FatTree.Tree, epc: nat, linkLat: nat, par: Topo, single: bool, vp: Policy,
                                pp: Policy)
    requires t.Valid()
  {
    forall src, dest, ca, eject ::
      TimedGoesOn(FatTree.Network(t, epc, linkLat, par),
                  FatTreeProgress.TreeRouting(t, epc, par.nvc, src, dest, ca, eject, single), vp, pp)
  }

  // ---------- packets that stay where they enter ----------

  function Always(x: int): nat -> int { _ => x }
  function AlwaysNat(x: nat): nat -> nat { _ => x }

  // Router 0 of a torus or a mesh.
  const CORNER := Hub(0, 4, 5, 4)

  lemma TorusLocal(t: Grid, epc: nat, linkLat: nat, par: Topo, single: bool) returns (g: Routing)
    requires t.Valid() && epc >= 2 && linkLat >= 1 && par.rsv <= par.depth
    ensures g == TorusProgress.TorusRouting(t, epc, par.nvc, Always(0), Always(4), single)
    ensures Local(Torus.Network(t, epc, linkLat, par), g, CORNER)
  {
    g := TorusProgress.TorusRouting(t, epc, par.nvc, Always(0), Always(4), single);
    var T := Torus.Network(t, epc, linkLat, par);
    Torus.TorusNetworkValid(t, epc, linkLat, par);
    Multiple(t.rows, t.cols);
    forall k: VC, p: nat | T.ValidVC(0, k) && (k.pc == 4 || k.pc == 5)
      ensures g.may(0, k, p) && MaySend(T, g, 0, k, p, 4)
    {
      assert TorusProgress.May(t, epc, par.nvc, 0, 4, 0, k);
      assert Torus.SelectOutPC(t, 0, 0, 4) == 4;
      forall ov | 0 <= ov < par.nvc ensures g.admits(0, k, p, 4, ov) { assert Torus.Admits(t, ov, 0, 0, par.nvc); }
    }
  }

  lemma MeshLocal(t: Grid, epc: nat, linkLat: nat, par: Topo, single: bool) returns (g: Routing)
    requires t.Valid() && epc >= 2 && linkLat >= 1 && par.rsv <= par.depth
    ensures g == MeshProgress.MeshRouting(t, epc, par.nvc, Always(0), Always(0), Always(4), single)
    ensures Local(Mesh.Network(t, epc, linkLat, par), g, CORNER)
  {
    g := MeshProgress.MeshRouting(t, epc, par.nvc, Always(0), Always(0), Always(4), single);
    var T := Mesh.Network(t, epc, linkLat, par);
    Mesh.MeshNetworkValid(t, epc, linkLat, par);
    Multiple(t.rows, t.cols);
    assert 4 == Mesh.SelectOutPC(t, 0, 0, 4, _ => 0.0);
    forall k: VC, p: nat | T.ValidVC(0, k) && (k.pc == 4 || k.pc == 5)
      ensures g.may(0, k, p) && MaySend(T, g, 0, k, p, 4)
    {
      assert Mesh.Selectable(t, 0, 0, 4, 4);
      assert MeshProgress.May(t, epc, par.nvc, 0, 0, 4, 0, k) && MeshProgress.MayOut(t, 0, 4, 0, 4);
      forall ov | 0 <= ov < par.nvc ensures g.admits(0, k, p, 4, ov) {
        assert MeshProgress.MayTake(t, par.nvc, 0, 0, 0, k, 4, ov);
      }
    }
  }

  lemma FatTreeLocal(t: FatTree.Tree, epc: nat, linkLat: nat, par: Topo, single: bool) returns (g: Routing)
    requires t.Valid() && epc >= 2 && linkLat >= 1 && par.rsv <= par.depth
    ensures g == FatTreeProgress.TreeRouting(t, epc, par.nvc, AlwaysNat(0), AlwaysNat(0), AlwaysNat(0), Always(t.way),
                                             single)
    ensures Local(FatTree.Network(t, epc, linkLat, par), g, Hub(0, t.way, t.way + 1, t.way))
  {
    g := FatTreeProgress.TreeRouting(t, epc, par.nvc, AlwaysNat(0), AlwaysNat(0), AlwaysNat(0), Always(t.way), single);
    var T := FatTree.Network(t, epc, linkLat, par);
    FatTree.FatTreeNetworkValid(t, epc, linkLat, par);
    PowPos(t.way, t.levels - 1);
    FatTree.LevelZero(t, 0);
    assert FatTreeRouting.Meet(t, 0, 0, 0);
    assert FatTreeRouting.IsCaLevel(t, 0, 0, 0);
    assert FatTreeRouting.OnRoute(t, 0, 0, 0, 0, true);
    forall k: VC, p: nat | T.ValidVC(0, k) && (k.pc == t.way || k.pc == t.way + 1)
      ensures g.may(0, k, p) && MaySend(T, g, 0, k, p, t.way)
    {
      assert AlwaysNat(0)(p) == 0 && Always(t.way)(p) == t.way;
      assert FatTreeProgress.MayOut(t, 0, 0, t.way, 0, k, t.way);
    }
  }

  // ---------- the exact conditions ----------

  // For routers with at least two network interfaces: where a VC is always admitted, the network never comes to
  // a standstill exactly if the VCs of a port do not share a buffer, or there is only one, or one process
  // writes one packet after the other into a port.
  lemma TorusGoesOnIff(t: Grid, epc: nat, linkLat: nat, par: Topo, single: bool, vp: Policy, pp: Policy)
    requires t.Valid() && epc >= 2 && linkLat >= 1 && par.nvc >= 2 && Covered(par)
    ensures TorusGoesOn(t, epc, linkLat, par, single, vp, pp) <==> Guarded(par, single)
  {
    if Guarded(par, single) {
      forall dest, eject
        ensures TimedGoesOn(Torus.Network(t, epc, linkLat, par),
                            TorusProgress.TorusRouting(t, epc, par.nvc, dest, eject, single), vp, pp)
      {
        TorusProgress.TorusNeverStuck(t, epc, linkLat, par, dest, eject, single);
        LawfulGoesOn(Torus.Network(t, epc, linkLat, par),
                     TorusProgress.TorusRouting(t, epc, par.nvc, dest, eject, single), vp, pp);
      }
    } else {
      var g := TorusLocal(t, epc, linkLat, par, single);
      var m := ComesToStandstill(Torus.Network(t, epc, linkLat, par), g, vp, pp, CORNER);
    }
  }

  lemma MeshGoesOnIff(t: Grid, epc: nat, linkLat: nat, par: Topo, single: bool, vp: Policy, pp: Policy)
    requires t.Valid() && epc >= 2 && linkLat >= 1 && Mesh.Enough(t, par.nvc) && par.nvc >= 1 && Covered(par)
    ensures MeshGoesOn(t, epc, linkLat, par, single, vp, pp) <==> Guarded(par, single)
  {
    if Guarded(par, single) {
      forall src, dest, eject
        ensures TimedGoesOn(Mesh.Network(t, epc, linkLat, par),
                            MeshProgress.MeshRouting(t, epc, par.nvc, src, dest, eject, single), vp, pp)
      {
        MeshProgress.MeshNeverStuck(t, epc, linkLat, par, src, dest, eject, single);
        LawfulGoesOn(Mesh.Network(t, epc, linkLat, par),
                     MeshProgress.MeshRouting(t, epc, par.nvc, src, dest, eject, single), vp, pp);
      }
    } else {
      var g := MeshLocal(t, epc, linkLat, par, single);
      var m := ComesToStandstill(Mesh.Network(t, epc, linkLat, par), g, vp, pp, CORNER);
    }
  }

  lemma FatTreeGoesOnIff(t: FatTree.Tree, epc: nat, linkLat: nat, par: Topo, single: bool, vp: Policy, pp: Policy)
    requires t.Valid() && epc >= 2 && linkLat >= 1 && par.nvc >= 1 && Covered(par)
    ensures FatTreeGoesOn(t, epc, linkLat, par, single, vp, pp) <==> Guarded(par, single)
  {
    if Guarded(par, single) {
      forall src, dest, ca, eject
        ensures TimedGoesOn(FatTree.Network(t, epc, linkLat, par),
                            FatTreeProgress.TreeRouting(t, epc, par.nvc, src, dest, ca, eject, single), vp, pp)
      {
        FatTreeProgress.FatTreeNeverStuck(t, epc, linkLat, par, src, dest, ca, eject, single);
        LawfulGoesOn(FatTree.Network(t, epc, linkLat, par),
                     FatTreeProgress.TreeRouting(t, epc, par.nvc, src, dest, ca, eject, single), vp, pp);
      }
    } else {
      var g := FatTreeLocal(t, epc, linkLat, par, single);
      var m := ComesToStandstill(FatTree.Network(t, epc, linkLat, par), g, vp, pp, Hub(0, t.way, t.way + 1, t.way));
    }
  }
}
