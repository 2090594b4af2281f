// Up/down routing in the fat tree: up through any port to the level of the common ancestor, then down.

module FatTreeRouting {
  import opened Wiring
  import opened Coordinates
  import opened Digits
  import opened FatTree

  // ---------- common ancestors ----------

  // Routers a and b of level 0 have the same ancestors from level l on.
  predicate Meet(t: Tree, a: nat, b: nat, l: nat)
    requires t.Valid()
  {
    PowPos(t.way, l);
    a / Pow(t.way, l) == b / Pow(t.way, l)
  }

  lemma MeetAbove(t: Tree, a: nat, b: nat, l: nat)
    requires t.Valid() && Meet(t, a, b, l)
    ensures Meet(t, a, b, l + 1)
  {
    PowPos(t.way, l);
    DivDiv(a, Pow(t.way, l), t.way);
    DivDiv(b, Pow(t.way, l), t.way);
    assert Pow(t.way, l) * t.way == Pow(t.way, l + 1);
  }

  lemma {:induction false} MeetFrom(t: Tree, a: nat, b: nat, l: nat, m: nat)
    requires t.Valid() && Meet(t, a, b, l) && l <= m
    ensures Meet(t, a, b, m)
    decreases m - l
  {
    if l < m {
      MeetAbove(t, a, b, l);
      MeetFrom(t, a, b, l + 1, m);
    }
  }

  lemma MeetAtTop(t: Tree, a: nat, b: nat)
    requires t.Valid() && a < t.Width() && b < t.Width()
    ensures Meet(t, a, b, t.levels - 1)
  {
    DivMod(a, 0, t.Width());
    DivMod(b, 0, t.Width());
  }

  ghost predicate IsCaLevel(t: Tree, a: nat, b: nat, ca: nat)
    requires t.Valid()
  {
    ca < t.levels && Meet(t, a, b, ca) && forall l: nat :: l < ca ==> !Meet(t, a, b, l)
  }

  // TopologyFatTree::getCommonAncestorTreeLevel
  method GetCommonAncestorTreeLevel(t: Tree, id1: nat, id2: nat) returns (ca: nat)
    requires t.Valid() && id1 < t.Width() && id2 < t.Width()
    ensures IsCaLevel(t, id1, id2, ca)
  {
    var ancestor1, ancestor2, size := id1, id2, 1;
    ca := 0;
    MeetAtTop(t, id1, id2);
    while ancestor1 != ancestor2
      invariant ca < t.levels && size == Pow(t.way, ca) && size >= 1
      invariant ancestor1 == id1 / size && ancestor2 == id2 / size
      invariant forall l: nat :: l < ca ==> !Meet(t, id1, id2, l)
      decreases t.levels - ca
    {
      assert !Meet(t, id1, id2, ca);
      size := size * t.way;
      ca := ca + 1;
      assert ca <= t.levels;
      PowPos(t.way, ca);
      ancestor1, ancestor2 := id1 / size, id2 / size;
    }
  }

  lemma CaUnique(t: Tree, a: nat, b: nat, ca: nat, ca': nat)
    requires t.Valid() && IsCaLevel(t, a, b, ca) && IsCaLevel(t, a, b, ca')
    ensures ca == ca'
  {}

  // TopologyFatTree::getMinHopCount, counting the source.
  method GetMinHopCount(t: Tree, id1: nat, id2: nat) returns (hops: nat)
    requires t.Valid() && id1 < t.Width() && id2 < t.Width()
    ensures exists ca: nat :: IsCaLevel(t, id1, id2, ca) && hops == 2 * ca + 1
  {
    var ca := GetCommonAncestorTreeLevel(t, id1, id2);
    hops := ca * 2 + 1;
  }

  // ---------- the way down ----------

  // The range of children selectOutPC looks for.
  predicate InRange(t: Tree, child: int, dest: nat, level: nat)
    requires t.Valid() && level >= 1
  {
    PowPos(t.way, level - 1);
    var stride := Pow(t.way, level - 1);
    var leftmost := dest / stride * stride + t.Width() * (level - 1);
    leftmost <= child <= leftmost + stride - 1
  }

  // A router of level l from which dest can be reached by going down only.
  predicate Above(t: Tree, id: int, dest: nat)
    requires t.Valid() && t.Router(id)
  {
    LevelIndex(t, id);
    Meet(t, t.Index(id), dest, t.Level(id))
  }

  lemma InBlock(x: nat, y: nat, s: nat)
    requires s >= 1
    ensures y / s * s <= x <= y / s * s + s - 1 <==> x / s == y / s
  {
    DivLess(x, y / s + 1, s);
    DivLess(x, y / s, s);
    assert (y / s + 1) * s == y / s * s + s;
  }

  lemma InRangeIff(t: Tree, child: int, dest: nat, level: nat)
    requires t.Valid() && level >= 1 && t.Router(child) && t.Level(child) == level - 1
    ensures InRange(t, child, dest, level) <==> Above(t, child, dest)
  {
    LevelIndex(t, child);
    PowPos(t.way, level - 1);
    InBlock(t.Index(child), dest, Pow(t.way, level - 1));
  }

  // Exactly one turn of a digit gives a number whose higher digits agree.
  lemma OneTurn(q: nat, dq: nat, k: nat) returns (j: nat)
    requires k >= 1 && q / k == dq / k
    ensures j < k && Turned(q, k, j) == dq
    ensures forall j' :: 0 <= j' < k && j' != j ==> Turned(q, k, j') != dq
  {
    var d, e := q % k, dq % k;
    j := if e >= d then e - d else e + k - d;
    TurnedIs(q, k, j);
    Wrapped(d, j, k);
    assert dq == dq / k * k + e;
    forall j' | 0 <= j' < k && j' != j ensures Turned(q, k, j') != dq { TurnedDistinct(q, k, j, j'); }
  }

  lemma ChildDigit(t: Tree, id: int, p: nat)
    requires t.Valid() && t.Router(id) && t.Level(id) >= 1 && p < t.way
    ensures var c := t.DownRouter(id, p);
            var w := Pow(t.way, t.Level(id) - 1);
            && w >= 1 && t.Router(c) && t.Level(c) == t.Level(id) - 1 && t.Index(c) >= 0 && t.Index(id) >= 0
            && t.Index(c) / w == Turned(t.Index(id) / w, t.way, (t.way - p) % t.way)
  {
    LevelIndex(t, id);
    Opposite(p, t.way);
    ChildIs(t, id, (t.way - p) % t.way);
    PowPos(t.way, t.Level(id) - 1);
    RotateIs(t.Index(id), Pow(t.way, t.Level(id) - 1), t.way, (t.way - p) % t.way);
  }

  lemma UpperDigits(t: Tree, id: int, dest: nat)
    requires t.Valid() && t.Router(id) && t.Level(id) >= 1 && Above(t, id, dest)
    ensures var w := Pow(t.way, t.Level(id) - 1);
            w >= 1 && t.Index(id) >= 0 && t.Index(id) / w / t.way == dest / w / t.way
  {
    LevelIndex(t, id);
    var w := Pow(t.way, t.Level(id) - 1);
    PowPos(t.way, t.Level(id) - 1);
    DivDiv(t.Index(id), w, t.way);
    DivDiv(dest, w, t.way);
    assert w * t.way == Pow(t.way, t.Level(id));
  }

  // Going down from a router above the destination, exactly one child is above it as well.
  lemma ExactlyOneChild(t: Tree, id: int, dest: nat) returns (p: nat)
    requires t.Valid() && t.Router(id) && t.Level(id) >= 1 && Above(t, id, dest)
    ensures p < t.way && t.Router(t.DownRouter(id, p)) && InRange(t, t.DownRouter(id, p), dest, t.Level(id))
    ensures t.Level(t.DownRouter(id, p)) == t.Level(id) - 1 && Above(t, t.DownRouter(id, p), dest)
    ensures forall p' {:trigger t.DownRouter(id, p')} :: 0 <= p' < t.way && p' != p ==>
              !InRange(t, t.DownRouter(id, p'), dest, t.Level(id))
  {
    LevelIndex(t, id);
    var l: nat := t.Level(id);
    var w := Pow(t.way, l - 1);
    UpperDigits(t, id, dest);
    var j := OneTurn(t.Index(id) / w, dest / w, t.way);
    p := (t.way - j) % t.way;
    Opposite(j, t.way);
    ChildDigit(t, id, p);
    InRangeIff(t, t.DownRouter(id, p), dest, l);
    forall p' | 0 <= p' < t.way && p' != p ensures !InRange(t, t.DownRouter(id, p'), dest, l) {
      Opposite(p', t.way);
      ChildDigit(t, id, p');
      InRangeIff(t, t.DownRouter(id, p'), dest, l);
    }
  }

  // ---------- selectOutPC ----------

  class HeadFlit {
    var up: bool                        // m_fattree_up_dir
    constructor ()
      ensures up
    {
      up := true;
    }
  }

  // The down port for dest.
  ghost predicate IsDownPort(t: Tree, cur: int, dest: nat, pc: int)
    requires t.Valid() && t.Router(cur) && t.Level(cur) >= 1
  {
    t.way <= pc < 2 * t.way && InRange(t, t.DownRouter(cur, pc - t.way), dest, t.Level(cur))
  }

  // What selectOutPC needs: a router on the way up to the common ancestor, or above the destination.
  ghost predicate OnRoute(t: Tree, src: nat, dest: nat, ca: nat, cur: int, up: bool)
    requires t.Valid()
  {
    && t.Router(cur) && src < t.Width() && dest < t.Width() && IsCaLevel(t, src, dest, ca) && t.Level(cur) <= ca
    && (up ==> Above(t, cur, src))
    && (!up || t.Level(cur) == ca ==> Above(t, cur, dest))
  }

  // row is the router's connections and pick the port selectUpOutVC would choose.
  method SelectOutPC(t: Tree, epc: nat, row: seq<Port>, cur: nat, src: nat, dest: nat, f: HeadFlit, pick: nat,
                     eject: int, ghost ca0: nat)
    returns (pc: int)
    requires t.Valid() && OnRoute(t, src, dest, ca0, cur, f.up) && row == Row(t, epc, cur) && pick < t.way
    modifies f
    ensures cur == dest ==> pc == eject && f.up == old(f.up)
    ensures cur != dest ==> f.up == (old(f.up) && t.Level(cur) != ca0)
    ensures cur != dest && f.up ==> pc == pick && t.Level(cur) < ca0
    ensures cur != dest && !f.up ==> t.Level(cur) >= 1 && IsDownPort(t, cur, dest, pc)
  {
    var level := t.Level(cur);
    LevelIndex(t, cur);
    var ca := GetCommonAncestorTreeLevel(t, src, dest);
    CaUnique(t, src, dest, ca, ca0);
    if cur == dest {
      ZeroLevel(t, dest);
      assert level == 0;
      pc := eject;
    } else {
      if level == ca { f.up := false; }
      if f.up {
        pc := pick;
      } else {
        if level == 0 { SameIndex(t, cur, dest); }
        assert level > 0;
        pc := FindDown(t, epc, row, cur, dest);
      }
    }
  }

  // The search over the down ports always finds one.
  method FindDown(t: Tree, epc: nat, row: seq<Port>, cur: nat, dest: nat) returns (pc: int)
    requires t.Valid() && t.Router(cur) && t.Level(cur) >= 1 && Above(t, cur, dest) && row == Row(t, epc, cur)
    ensures IsDownPort(t, cur, dest, pc)
  {
    ghost var p := ExactlyOneChild(t, cur, dest);
    var iter := t.way;
    while !InRange(t, row[iter].router, dest, t.Level(cur))
      invariant t.way <= iter <= t.way + p
      decreases t.way + p - iter
    {
      assert row[iter] == t.Next(cur, iter);
      iter := iter + 1;
    }
    assert row[iter] == t.Next(cur, iter);
    pc := row[iter].pc + t.way;
    assert pc < |row|;
  }

  lemma ZeroLevel(t: Tree, id: int)
    requires t.Valid() && 0 <= id < t.Width()
    ensures t.Router(id) && t.Level(id) == 0 && t.Index(id) == id
  {
    RouterAt(t, 0, id);
  }

  lemma SameIndex(t: Tree, cur: int, dest: nat)
    requires t.Valid() && t.Router(cur) && t.Level(cur) == 0 && Above(t, cur, dest)
    ensures cur == dest
  {
    LevelIndex(t, cur);
  }

  // RoutingFatTree::selectUpOutVC with adaptive selection: the first port of least cost.
  method SelectUpOutVC(cost: seq<nat>) returns (pos: nat)
    requires cost != []
    ensures pos < |cost| && (forall i :: 0 <= i < |cost| ==> cost[pos] <= cost[i]) &&
            (forall i :: 0 <= i < pos ==> cost[pos] < cost[i])
  {
    pos := 0;
    var minCost := cost[0];
    for i := 1 to |cost|
      invariant pos < i && minCost == cost[pos]
      invariant forall j :: 0 <= j < i ==> cost[pos] <= cost[j]
      invariant forall j :: 0 <= j < pos ==> cost[pos] < cost[j]
    {
      if cost[i] < minCost { pos, minCost := i, cost[i]; }
    }
  }

  // ---------- routes ----------

  // Where a head flit is, and its direction flag.
  datatype Head = Head(router: int, up: bool)

  // One hop, for some port picked on the way up.
  ghost predicate Hop(t: Tree, dest: nat, ca: nat, h: Head, h': Head)
    requires t.Valid()
  {
    && h.router != dest && t.Router(h.router) && h'.up == (h.up && t.Level(h.router) != ca)
    && (if h'.up then
          exists pick {:trigger t.UpRouter(h.router, pick)} ::
            0 <= pick < t.way && h'.router == t.UpRouter(h.router, pick)
        else
          t.Level(h.router) >= 1 &&
          exists pc :: IsDownPort(t, h.router, dest, pc) && h'.router == t.Next(h.router, pc).router)
  }

  ghost predicate Path(t: Tree, src: nat, dest: nat, ca: nat, hs: seq<Head>)
    requires t.Valid()
  {
    && hs != []
    && (if |hs| == 1 then hs[0] == Head(src, true)
        else Path(t, src, dest, ca, hs[..|hs| - 1]) && Hop(t, dest, ca, hs[|hs| - 2], hs[|hs| - 1]))
  }

  // After n hops: on level n on the way up, and on level 2 * ca - n on the way down.
  ghost predicate Phase(t: Tree, src: nat, dest: nat, ca: nat, h: Head, n: nat)
    requires t.Valid()
  {
    && OnRoute(t, src, dest, ca, h.router, h.up) && n <= 2 * ca
    && h.up == (n <= ca) && t.Level(h.router) == (if n <= ca then n else 2 * ca - n)
  }

  lemma UpKeeps(t: Tree, id: int, p: nat, dest: nat)
    requires t.Valid() && t.Router(id) && t.Level(id) < t.levels - 1 && p < t.way
    ensures var u := t.UpRouter(id, p);
            && t.Router(u) && t.Level(u) == t.Level(id) + 1
            && (Above(t, u, dest) <==> t.Index(id) >= 0 && Meet(t, t.Index(id), dest, t.Level(id) + 1))
            && (Above(t, id, dest) ==> Above(t, u, dest))
  {
    var u := t.UpRouter(id, p);
    LevelIndex(t, id);
    UpIs(t, id, p);
    LevelIndex(t, u);
    var m := WidthBlocks(t, t.Level(id));
    RotateBelow(t.Index(id), Pow(t.way, t.Level(id)), t.way, p, m);
    if Above(t, id, dest) { MeetAbove(t, t.Index(id), dest, t.Level(id)); }
  }

  lemma PhaseStep(t: Tree, src: nat, dest: nat, ca: nat, h: Head, h': Head, n: nat)
    requires t.Valid() && Phase(t, src, dest, ca, h, n) && Hop(t, dest, ca, h, h')
    ensures Phase(t, src, dest, ca, h', n + 1)
  {
    LevelIndex(t, h.router);
    if h'.up {
      var pick :| 0 <= pick < t.way && h'.router == t.UpRouter(h.router, pick);
      UpKeeps(t, h.router, pick, src);
      if n + 1 == ca { ComeAbove(t, src, dest, ca, h'.router); }
    } else {
      var pc :| IsDownPort(t, h.router, dest, pc) && h'.router == t.Next(h.router, pc).router;
      ChildDigit(t, h.router, pc - t.way);
      InRangeIff(t, h'.router, dest, t.Level(h.router));
    }
  }

  // At the level of the common ancestor the way down is open.
  lemma ComeAbove(t: Tree, src: nat, dest: nat, ca: nat, id: int)
    requires t.Valid() && t.Router(id) && t.Level(id) == ca && IsCaLevel(t, src, dest, ca) && Above(t, id, src)
    ensures Above(t, id, dest)
  {}

  lemma StartPhase(t: Tree, src: nat, dest: nat, ca: nat)
    requires t.Valid() && src < t.Width() && dest < t.Width() && IsCaLevel(t, src, dest, ca)
    ensures Phase(t, src, dest, ca, Head(src, true), 0)
  {
    ZeroLevel(t, src);
    if ca == 0 { ComeAbove(t, src, dest, ca, src); }
  }

  // The destination is reached exactly on the last hop of the way down.
  lemma PhaseEnd(t: Tree, src: nat, dest: nat, ca: nat, h: Head, n: nat)
    requires t.Valid() && Phase(t, src, dest, ca, h, n)
    ensures h.router == dest <==> n == 2 * ca
  {
    ZeroLevel(t, dest);
    if n == 2 * ca { SameIndex(t, h.router, dest); }
    if h.router == dest && n == 0 && ca > 0 {
      assert Meet(t, t.Index(dest), src, 0);
      assert Meet(t, src, dest, 0);
    }
  }

  // Whatever ports are picked, every prefix of a route is in its phase: it never overshoots, and it has
  // arrived exactly after getMinHopCount - 1 hops.
  lemma {:induction false} RoutePhase(t: Tree, src: nat, dest: nat, ca: nat, hs: seq<Head>)
    requires t.Valid() && src < t.Width() && dest < t.Width() && IsCaLevel(t, src, dest, ca) &&
             Path(t, src, dest, ca, hs)
    ensures |hs| <= 2 * ca + 1 && OnRoute(t, src, dest, ca, hs[|hs| - 1].router, hs[|hs| - 1].up)
    ensures Phase(t, src, dest, ca, hs[|hs| - 1], |hs| - 1)
    ensures hs[|hs| - 1].router == dest <==> |hs| == 2 * ca + 1
    decreases |hs|
  {
    if |hs| == 1 {
      StartPhase(t, src, dest, ca);
    } else {
      RoutePhase(t, src, dest, ca, hs[..|hs| - 1]);
      PhaseStep(t, src, dest, ca, hs[|hs| - 2], hs[|hs| - 1], |hs| - 2);
    }
    PhaseEnd(t, src, dest, ca, hs[|hs| - 1], |hs| - 1);
  }

  // A route that has not arrived goes on, through whichever port is picked on the way up.
  lemma RouteGoesOn(t: Tree, src: nat, dest: nat, ca: nat, hs: seq<Head>, pick: nat) returns (h: Head)
    requires t.Valid() && src < t.Width() && dest < t.Width() && IsCaLevel(t, src, dest, ca) &&
             Path(t, src, dest, ca, hs)
    requires hs[|hs| - 1].router != dest && pick < t.way
    ensures Path(t, src, dest, ca, hs + [h]) && (h.up ==> h.router == t.UpRouter(hs[|hs| - 1].router, pick))
  {
    RoutePhase(t, src, dest, ca, hs);
    var last := hs[|hs| - 1];
    LevelIndex(t, last.router);
    var up := last.up && t.Level(last.router) != ca;
    if up {
      h := Head(t.UpRouter(last.router, pick), true);
    } else {
      if t.Level(last.router) == 0 { SameIndex(t, last.router, dest); }
      var p := ExactlyOneChild(t, last.router, dest);
      assert IsDownPort(t, last.router, dest, t.way + p);
      h := Head(t.Next(last.router, t.way + p).router, false);
    }
    assert (hs + [h])[..|hs|] == hs;
  }

  // ---------- no walk is shorter ----------

  // The level from l on where the ways to x and to dest meet.
  function MeetLevel(t: Tree, x: nat, dest: nat, l: nat): nat
    requires t.Valid()
    decreases t.levels - l
  {
    if Meet(t, x, dest, l) || l >= t.levels - 1 then l else MeetLevel(t, x, dest, l + 1)
  }

  function Distance(t: Tree, id: int, dest: nat): int
    requires t.Valid() && t.Router(id)
  {
    LevelIndex(t, id);
    2 * MeetLevel(t, t.Index(id), dest, t.Level(id)) - t.Level(id)
  }

  lemma {:induction false} MeetLevelSame(t: Tree, x: nat, y: nat, dest: nat, l: nat)
    requires t.Valid() && Meet(t, x, y, l)
    ensures MeetLevel(t, x, dest, l) == MeetLevel(t, y, dest, l)
    decreases t.levels - l
  {
    if l < t.levels - 1 {
      MeetAbove(t, x, y, l);
      MeetLevelSame(t, x, y, dest, l + 1);
    }
  }

  // The two ends of a link differ by at most one in their distance from dest.
  lemma LinkNear(t: Tree, id: int, p: nat, dest: nat)
    requires t.Valid() && t.Router(id) && t.Level(id) < t.levels - 1 && p < t.way
    ensures var u := t.UpRouter(id, p);
            t.Router(u) && -1 <= Distance(t, u, dest) - Distance(t, id, dest) <= 1
  {
    var u := t.UpRouter(id, p);
    LevelIndex(t, id);
    UpIs(t, id, p);
    LevelIndex(t, u);
    var l: nat := t.Level(id);
    var m := WidthBlocks(t, l);
    RotateBelow(t.Index(id), Pow(t.way, l), t.way, p, m);
    assert Meet(t, t.Index(id), t.Index(u), l + 1);
    MeetLevelSame(t, t.Index(id), t.Index(u), dest, l + 1);
    if Meet(t, t.Index(id), dest, l) { MeetAbove(t, t.Index(id), dest, l); }
  }

  // Routers visited one after the other over links.
  ghost predicate Walk(t: Tree, w: seq<int>)
    requires t.Valid()
    decreases |w|
  {
    && w != [] && t.Router(w[0])
    && (|w| > 1 ==> (exists pc {:trigger t.Next(w[0], pc)} ::
                     t.Router(t.Next(w[0], pc).router) && w[1] == t.Next(w[0], pc).router) && Walk(t, w[1..]))
  }

  lemma {:induction false} WalkLength(t: Tree, w: seq<int>, dest: nat)
    requires t.Valid() && Walk(t, w) && dest < t.Width() && w[|w| - 1] == dest
    ensures |w| - 1 >= Distance(t, w[0], dest)
    decreases |w|
  {
    if |w| == 1 {
      ZeroLevel(t, dest);
    } else {
      assert w[1..][|w| - 2] == dest;
      WalkLength(t, w[1..], dest);
      var pc :| t.Router(t.Next(w[0], pc).router) && w[1] == t.Next(w[0], pc).router;
      LevelIndex(t, w[0]);
      if t.Level(w[0]) < t.levels - 1 && 0 <= pc < t.way {
        LinkNear(t, w[0], pc, dest);
      } else {
        DownUp(t, w[0], pc - t.way);
        LinkNear(t, w[1], pc - t.way, dest);
      }
    }
  }

  lemma {:induction false} MeetLevelIs(t: Tree, src: nat, dest: nat, ca: nat, l: nat)
    requires t.Valid() && IsCaLevel(t, src, dest, ca) && l <= ca
    ensures MeetLevel(t, src, dest, l) == ca
    decreases ca - l
  {
    if l < ca { MeetLevelIs(t, src, dest, ca, l + 1); }
  }

  // No walk over the links of the tree is shorter than getMinHopCount says.
  lemma NoShorterWalk(t: Tree, w: seq<int>, src: nat, dest: nat, ca: nat)
    requires t.Valid() && src < t.Width() && dest < t.Width() && IsCaLevel(t, src, dest, ca)
    requires Walk(t, w) && w[0] == src && w[|w| - 1] == dest
    ensures |w| >= 2 * ca + 1
  {
    ZeroLevel(t, src);
    MeetLevelIs(t, src, dest, ca, 0);
    WalkLength(t, w, dest);
  }
}
