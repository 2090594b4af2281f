// The wiring of the fat tree, as buildTopology computes it.

module FatTree {
  import opened Wiring
  import opened Coordinates
  import opened Digits

  // way children for each router, levels of Pow(way, levels - 1) routers each.
  datatype Tree = Tree(way: nat, levels: nat) {
    predicate Shape() { way >= 2 && levels >= 1 }

    // With a single level the program would look up a router of a level that does not exist.
    predicate Valid() { Shape() && levels >= 2 }

    // m_num_router_per_level
    function Width(): nat
      requires Shape()
      ensures Width() >= 1
    {
      PowPos(way, levels - 1);
      Pow(way, levels - 1)
    }

    predicate Router(id: int)
      requires Shape()
    {
      0 <= id < levels * Width()
    }

    function Level(id: int): int
      requires Shape()
    {
      id / Width()
    }

    function Index(id: int): int
      requires Shape()
    {
      id % Width()
    }

    // The router an up port leads to, as buildTopology computes it.
    function UpRouter(id: nat, p: nat): int
      requires Shape()
    {
      var level: nat := Level(id);
      PowPos(way, level + 1);
      var scale := Pow(way, level + 1);
      var base := id % Width() / scale * scale + Width() * (level + 1);
      var next := Width() + id + p * Pow(way, level);
      if next >= base + scale then next - scale else next
    }

    // The j-th router the loop over the down ports comes to.
    function Child(id: nat, j: nat): int
      requires Valid() && Level(id) >= 1
    {
      var level := Level(id);
      PowPos(way, level);
      var scale := Pow(way, level);
      var base := id % Width() / scale * scale + Width() * (level - 1);
      var next := id - Width() + j * Pow(way, level - 1);
      if next >= base + scale then next - scale else next
    }

    // The router a down port leads to: the one from which up port p leads here.
    function DownRouter(id: nat, p: nat): int
      requires Valid() && Level(id) >= 1 && p < way
    {
      Child(id, (way - p) % way)
    }

    // The connection of one port, which is the upstream connection as well.
    function Next(id: nat, pc: int): Port
      requires Valid()
    {
      if Level(id) < levels - 1 && 0 <= pc < way then Port(UpRouter(id, pc), way + pc)
      else if Level(id) >= 1 && way <= pc < 2 * way then Port(DownRouter(id, pc - way), pc - way)
      else Port(INVALID_ROUTER, DIR_INVALID)
    }
  }

  // ---------- ids ----------

  lemma LevelIndex(t: Tree, id: int)
    requires t.Shape() && t.Router(id)
    ensures 0 <= t.Level(id) < t.levels && 0 <= t.Index(id) < t.Width() && id == t.Level(id) * t.Width() + t.Index(id)
  {
    DivLess(id, t.levels, t.Width());
  }

  lemma RouterAt(t: Tree, level: int, index: int)
    requires t.Valid() && 0 <= level < t.levels && 0 <= index < t.Width()
    ensures var id := level * t.Width() + index; t.Router(id) && t.Level(id) == level && t.Index(id) == index
  {
    DivMod(index, level, t.Width());
    Monotone(0, level, t.Width());
    DivLess(level * t.Width() + index, t.levels, t.Width());
  }

  // The width of the tree is made of whole blocks of every level.
  lemma WidthBlocks(t: Tree, e: nat) returns (m: nat)
    requires t.Valid() && e < t.levels - 1
    ensures Pow(t.way, e) >= 1 && Pow(t.way, e) * t.way == Pow(t.way, e + 1)
    ensures t.Width() == m * (Pow(t.way, e) * t.way)
  {
    PowPos(t.way, e);
    m := Pow(t.way, t.levels - 2 - e);
    PowAdd(t.way, e + 1, t.levels - 2 - e);
    assert Pow(t.way, e + 1) * m == m * Pow(t.way, e + 1);
  }

  // Wrapping inside a block does not depend on where the level starts.
  lemma Offset(off: int, x: int, step: int, block: int, scale: int)
    ensures (if off + x + step >= off + block + scale then off + x + step - scale else off + x + step) ==
              off + (if x + step >= block + scale then x + step - scale else x + step)
  {}

  lemma UpRotates(t: Tree, id: nat, p: nat, l: nat, x: nat, w: nat)
    requires t.Shape() && l == t.Level(id) && x == t.Index(id) && id == l * t.Width() + x && w == Pow(t.way, l)
    requires w * t.way >= 1
    ensures t.UpRouter(id, p) == (l + 1) * t.Width() + Rotate(x, w, t.way, p)
  {
    var scale := Pow(t.way, l + 1);
    assert scale == w * t.way;
    Rows(l, t.Width());
    assert t.Width() * (l + 1) == (l + 1) * t.Width();
    Offset((l + 1) * t.Width(), x, p * w, x / scale * scale, scale);
  }

  lemma DownRotates(t: Tree, id: nat, j: nat, l: nat, x: nat, w: nat)
    requires t.Valid() && l >= 1 && l == t.Level(id) && x == t.Index(id) && id == l * t.Width() + x &&
             w == Pow(t.way, l - 1)
    requires w * t.way >= 1
    ensures t.Child(id, j) == (l - 1) * t.Width() + Rotate(x, w, t.way, j)
  {
    var scale := Pow(t.way, l);
    assert scale == w * t.way;
    Rows(l, t.Width());
    assert t.Width() * (l - 1) == (l - 1) * t.Width();
    Offset((l - 1) * t.Width(), x, j * w, x / scale * scale, scale);
  }

  // An up link turns one digit of the index.
  lemma UpIs(t: Tree, id: int, p: nat)
    requires t.Valid() && t.Router(id) && t.Level(id) < t.levels - 1 && p < t.way
    ensures var l := t.Level(id);
            var u := t.UpRouter(id, p);
            && l >= 0 && Pow(t.way, l) * t.way >= 1
            && t.Router(u) && t.Level(u) == l + 1 && t.Index(u) == Rotate(t.Index(id), Pow(t.way, l), t.way, p)
  {
    LevelIndex(t, id);
    var l: nat, x: nat := t.Level(id), t.Index(id);
    var m := WidthBlocks(t, l);
    var w := Pow(t.way, l);
    RotateBelow(x, w, t.way, p, m);
    UpRotates(t, id, p, l, x, w);
    RouterAt(t, l + 1, Rotate(x, w, t.way, p));
  }

  // The router buildTopology computes for an up link exists exactly below the top level ...
  lemma UpExists(t: Tree, id: int, p: nat)
    requires t.Shape() && t.Router(id) && p < t.way
    ensures t.Level(id) >= 0 && (t.Router(t.UpRouter(id, p)) <==> t.Level(id) < t.levels - 1)
  {
    LevelIndex(t, id);
    if t.Level(id) < t.levels - 1 {
      UpIs(t, id, p);
    } else {
      var l: nat, x: nat := t.Level(id), t.Index(id);
      var w := Pow(t.way, l);
      PowPos(t.way, l);
      RotateIs(x, w, t.way, p);
      UpRotates(t, id, p, l, x, w);
    }
  }

  lemma LevelZero(t: Tree, id: int)
    requires t.Shape() && 0 <= id < t.Width()
    ensures t.Router(id) && t.Level(id) == 0
  {
    DivMod(id, 0, t.Width());
    Multiple(t.levels, t.Width());
  }

  // The links the program sets up for every router of level 0 all lead somewhere.
  ghost predicate AllUp(t: Tree)
    requires t.Shape()
  {
    forall id: nat, p: nat {:trigger t.UpRouter(id, p)} :: id < t.Width() && p < t.way ==> t.Router(t.UpRouter(id, p))
  }

  // ... so they all do exactly when there are two levels.
  lemma TwoLevelsIff(t: Tree)
    requires t.Shape()
    ensures AllUp(t) <==> t.Valid()
  {
    LevelZero(t, 0);
    UpExists(t, 0, 0);
    if t.levels >= 2 {
      forall id: nat, p: nat | id < t.Width() && p < t.way ensures t.Router(t.UpRouter(id, p)) {
        LevelZero(t, id);
        UpExists(t, id, p);
      }
    }
  }

  lemma ChildIs(t: Tree, id: int, j: nat)
    requires t.Valid() && t.Router(id) && t.Level(id) >= 1 && j < t.way
    ensures var l := t.Level(id);
            var c := t.Child(id, j);
            && Pow(t.way, l - 1) * t.way >= 1
            && t.Router(c) && t.Level(c) == l - 1 && t.Index(c) == Rotate(t.Index(id), Pow(t.way, l - 1), t.way, j)
  {
    LevelIndex(t, id);
    var l: nat, x: nat := t.Level(id), t.Index(id);
    var m := WidthBlocks(t, l - 1);
    var w := Pow(t.way, l - 1);
    RotateBelow(x, w, t.way, j, m);
    DownRotates(t, id, j, l, x, w);
    RouterAt(t, l - 1, Rotate(x, w, t.way, j));
  }

  // ---------- digits ----------

  lemma TurnBack(q: nat, k: nat, p: nat, j: nat)
    requires k >= 1 && p < k && j < k && (p + j) % k == 0
    ensures Turned(Turned(q, k, p), k, j) == q
  {
    TurnedIs(q, k, p);
    TurnedIs(Turned(q, k, p), k, j);
    Wrapped(p, j, k);
    assert q == q / k * k + q % k;
    Wrapped(q % k, p, k);
    var d := (q % k + p) % k;
    Wrapped(d, j, k);
  }

  lemma RotateBack(x: nat, w: nat, k: nat, p: nat, j: nat)
    requires w >= 1 && k >= 1 && p < k && j < k && (p + j) % k == 0
    ensures w * k >= 1 && Rotate(x, w, k, p) >= 0 && Rotate(Rotate(x, w, k, p), w, k, j) == x
  {
    RotateIs(x, w, k, p);
    RotateIs(Rotate(x, w, k, p), w, k, j);
    RotateValue(Rotate(x, w, k, p), w, k, j);
    TurnBack(x / w, k, p, j);
  }

  lemma Opposite(p: nat, k: nat)
    requires p < k
    ensures (k - p) % k == (if p == 0 then 0 else k - p) && ((k - p) % k + p) % k == 0 && (p + (k - p) % k) % k == 0
    ensures (k - (k - p) % k) % k == p
  {
    if p == 0 { DivMod(0, 1, k); } else { DivMod(k - p, 0, k); DivMod(p, 0, k); }
    DivMod(0, if p == 0 then 0 else 1, k);
  }

  lemma TurnedDistinct(q: nat, k: nat, p: nat, p': nat)
    requires k >= 1 && p < k && p' < k && p != p'
    ensures Turned(q, k, p) != Turned(q, k, p')
  {
    TurnedIs(q, k, p);
    TurnedIs(q, k, p');
    assert 0 <= q % k < k;
  }

  lemma QuotientsDiffer(a: int, b: int, w: int)
    requires w >= 1 && a / w != b / w
    ensures a != b
  {}

  lemma RotateDistinct(x: nat, w: nat, k: nat, p: nat, p': nat)
    requires w >= 1 && k >= 1 && p < k && p' < k && p != p'
    ensures w * k >= 1 && Rotate(x, w, k, p) != Rotate(x, w, k, p')
  {
    TurnedDistinct(x / w, k, p, p');
    RotateIs(x, w, k, p);
    RotateIs(x, w, k, p');
    QuotientsDiffer(Rotate(x, w, k, p), Rotate(x, w, k, p'), w);
  }

  // Different up ports lead to different routers.
  lemma UpDistinct(t: Tree, id: int, p: nat, p': nat)
    requires t.Valid() && t.Router(id) && t.Level(id) < t.levels - 1 && p < t.way && p' < t.way && p != p'
    ensures t.UpRouter(id, p) != t.UpRouter(id, p')
  {
    LevelIndex(t, id);
    UpIs(t, id, p);
    UpIs(t, id, p');
    PowPos(t.way, t.Level(id));
    RotateDistinct(t.Index(id), Pow(t.way, t.Level(id)), t.way, p, p');
  }

  // Going up through a port and down through its partner leads back ...
  lemma UpDown(t: Tree, id: int, p: nat)
    requires t.Valid() && t.Router(id) && t.Level(id) < t.levels - 1 && p < t.way
    ensures t.Router(t.UpRouter(id, p)) && t.Level(t.UpRouter(id, p)) >= 1
    ensures t.DownRouter(t.UpRouter(id, p), p) == id
  {
    var u := t.UpRouter(id, p);
    LevelIndex(t, id);
    UpIs(t, id, p);
    Opposite(p, t.way);
    ChildIs(t, u, (t.way - p) % t.way);
    LevelIndex(t, t.DownRouter(u, p));
    PowPos(t.way, t.Level(id));
    RotateBack(t.Index(id), Pow(t.way, t.Level(id)), t.way, p, (t.way - p) % t.way);
  }

  // ... and so does going down and up again.
  lemma DownUp(t: Tree, id: int, p: nat)
    requires t.Valid() && t.Router(id) && t.Level(id) >= 1 && p < t.way
    ensures t.Router(t.DownRouter(id, p)) && t.Level(t.DownRouter(id, p)) == t.Level(id) - 1
    ensures t.UpRouter(t.DownRouter(id, p), p) == id
  {
    var c := t.DownRouter(id, p);
    LevelIndex(t, id);
    Opposite(p, t.way);
    ChildIs(t, id, (t.way - p) % t.way);
    UpIs(t, c, p);
    LevelIndex(t, t.UpRouter(c, p));
    PowPos(t.way, t.Level(id) - 1);
    RotateBack(t.Index(id), Pow(t.way, t.Level(id) - 1), t.way, (t.way - p) % t.way, p);
  }

  // Upstream and downstream tables name each other.
  lemma NextInvolution(t: Tree, id: int, pc: int)
    requires t.Valid() && t.Router(id) && t.Next(id, pc).router != INVALID_ROUTER
    ensures var n := t.Next(id, pc);
            t.Router(n.router) && 0 <= n.pc < 2 * t.way && t.Next(n.router, n.pc) == Port(id, pc)
  {
    LevelIndex(t, id);
    if t.Level(id) < t.levels - 1 && 0 <= pc < t.way {
      UpDown(t, id, pc);
      UpIs(t, id, pc);
    } else {
      DownUp(t, id, pc - t.way);
    }
  }

  // ---------- buildTopology ----------

  // epc ports of a router of level 0 inject and eject.
  function NumPc(t: Tree, epc: nat, id: nat): nat
    requires t.Valid()
  {
    if t.Level(id) == 0 then t.way + epc else 2 * t.way
  }

  function Row(t: Tree, epc: nat, id: nat): seq<Port>
    requires t.Valid()
  {
    seq(NumPc(t, epc, id), (pc: nat) => t.Next(id, pc))
  }

  lemma ChildBelow(t: Tree, id: int, j: nat)
    requires t.Valid() && t.Router(id) && t.Level(id) >= 1 && j < t.way
    ensures t.Router(t.Child(id, j)) && t.Level(t.Child(id, j)) == t.Level(id) - 1 && 0 <= t.Child(id, j) < id
  {
    ChildIs(t, id, j);
    LevelIndex(t, id);
    LevelIndex(t, t.Child(id, j));
    Below(t.Level(id), t.Index(t.Child(id, j)), t.Width());
  }

  lemma Below(l: int, x: int, w: int)
    requires x < w
    ensures (l - 1) * w + x < l * w
  {}

  // The j-th child is the one behind down port (way - j) mod way.
  lemma ChildPort(t: Tree, id: int, j: nat)
    requires t.Valid() && t.Router(id) && t.Level(id) >= 1 && j < t.way
    ensures t.Child(id, j) == t.DownRouter(id, (t.way - j) % t.way)
  {
    Opposite(j, t.way);
  }

  // The up port of the j-th child that leads here: it is found by searching the child's connections.
  lemma PortOfChild(t: Tree, id: int, j: nat)
    requires t.Valid() && t.Router(id) && t.Level(id) >= 1 && j < t.way
    ensures var c := t.Child(id, j);
            var p := (t.way - j) % t.way;
            && t.Router(c) && t.Level(c) == t.Level(id) - 1 && 0 <= c < id
            && c == t.DownRouter(id, p) && t.UpRouter(c, p) == id
            && (forall q {:trigger t.UpRouter(c, q)} :: 0 <= q < t.way && q != p ==> t.UpRouter(c, q) != id)
  {
    var p := (t.way - j) % t.way;
    ChildPort(t, id, j);
    ChildBelow(t, id, j);
    DownUp(t, id, p);
    LevelIndex(t, id);
    OthersDiffer(t, t.Child(id, j), id, p);
  }

  lemma OthersDiffer(t: Tree, c: int, id: int, p: nat)
    requires t.Valid() && t.Router(c) && t.Level(c) < t.levels - 1 && p < t.way && t.UpRouter(c, p) == id
    ensures forall q {:trigger t.UpRouter(c, q)} :: 0 <= q < t.way && q != p ==> t.UpRouter(c, q) != id
  {
    forall q | 0 <= q < t.way && q != p ensures t.UpRouter(c, q) != id { UpDistinct(t, c, p, q); }
  }

  method FindUpPort(row: seq<Port>, id: int, way: nat, ghost p: nat) returns (port: int)
    requires p < way <= |row| && row[p].router == id
    requires forall q {:trigger row[q]} :: 0 <= q < way && q != p ==> row[q].router != id
    ensures port == row[p].pc
  {
    var iter := 0;
    while row[iter].router != id
      invariant 0 <= iter <= p
      decreases p - iter
    {
      iter := iter + 1;
    }
    port := row[iter].pc;
  }

  // The down ports of one router, each filled by one round of the loop.
  method FillDown(t: Tree, epc: nat, id: nat, conn: seq<seq<Port>>, row0: seq<Port>) returns (row: seq<Port>)
    requires t.Valid() && t.Router(id) && t.Level(id) >= 1 && |row0| == 2 * t.way && |conn| == id
    requires forall i {:trigger conn[i]} :: 0 <= i < id ==> conn[i] == Row(t, epc, i)
    ensures |row| == |row0|
    ensures forall pc {:trigger row[pc]} :: 0 <= pc < |row| ==>
              row[pc] == if pc < t.way then row0[pc] else t.Next(id, pc)
  {
    row := row0;
    LevelIndex(t, id);
    for j := 0 to t.way
      invariant |row| == |row0|
      invariant forall pc {:trigger row[pc]} :: 0 <= pc < t.way ==> row[pc] == row0[pc]
      invariant forall p {:trigger Filled(t.way, j, p)} :: Filled(t.way, j, p) ==>
                  row[t.way + p] == t.Next(id, t.way + p)
    {
      PortOfChild(t, id, j);
      var c := t.Child(id, j);
      ghost var p := (t.way - j) % t.way;
      assert conn[c] == Row(t, epc, c);
      assert Row(t, epc, c)[p] == t.Next(c, p);
      forall q | 0 <= q < t.way && q != p ensures conn[c][q].router != id { assert conn[c][q] == t.Next(c, q); }
      var realOutPc := FindUpPort(conn[c], id, t.way, p);
      var nextInPc := realOutPc - t.way;
      row := row[realOutPc := Port(c, nextInPc)];
      ghost var done := j + 1;
      forall x | Filled(t.way, done, x) ensures row[t.way + x] == t.Next(id, t.way + x) {
        Opposite(x, t.way);
        Opposite(j, t.way);
        assert x == p || Filled(t.way, j, x);
      }
    }
    forall pc | 0 <= pc < |row| ensures row[pc] == if pc < t.way then row0[pc] else t.Next(id, pc) {
      if pc >= t.way {
        Opposite(pc - t.way, t.way);
        assert Filled(t.way, t.way, pc - t.way);
      }
    }
  }

  // Down port p is among those the first j rounds fill.
  predicate Filled(way: nat, j: nat, p: int) { 0 <= p < way && (way - p) % way < j }

  // The connections of one router, when those of the levels below are there.
  method BuildRow(t: Tree, epc: nat, id: nat, conn: seq<seq<Port>>) returns (row: seq<Port>)
    requires t.Valid() && t.Router(id) && |conn| == id
    requires forall i {:trigger conn[i]} :: 0 <= i < id ==> conn[i] == Row(t, epc, i)
    ensures row == Row(t, epc, id)
  {
    var level := t.Level(id);
    LevelIndex(t, id);
    row := seq(NumPc(t, epc, id), _ => Port(0, 0));
    var invalid := Port(INVALID_ROUTER, DIR_INVALID);
    if level == 0 {
      for pc := 0 to |row|
        invariant |row| == NumPc(t, epc, id)
        invariant forall q {:trigger row[q]} :: 0 <= q < pc ==> row[q] == t.Next(id, q)
      {
        row := row[pc := if pc >= t.way then invalid else Port(t.UpRouter(id, pc), 2 * t.way / 2 + pc)];
      }
    } else {
      for pc := 0 to t.way
        invariant |row| == 2 * t.way
        invariant forall q {:trigger row[q]} :: 0 <= q < pc ==> row[q] == t.Next(id, q)
      {
        row := row[pc := if level < t.levels - 1 then Port(t.UpRouter(id, pc), 2 * t.way / 2 + pc) else invalid];
      }
      row := FillDown(t, epc, id, conn, row);
    }
  }

  // Every connection is filled, once for each port, and is what Next says.
  method Build(t: Tree, epc: nat) returns (conn: seq<seq<Port>>)
    requires t.Valid()
    ensures |conn| == t.levels * t.Width()
    ensures forall id {:trigger conn[id]} :: 0 <= id < |conn| ==> conn[id] == Row(t, epc, id)
  {
    conn := [];
    for id := 0 to t.levels * t.Width()
      invariant |conn| == id
      invariant forall i {:trigger conn[i]} :: 0 <= i < id ==> conn[i] == Row(t, epc, i)
    {
      var row := BuildRow(t, epc, id, conn);
      conn := conn + [row];
    }
  }

  // ---------- the network ----------

  function Ports(t: Tree): set<Port>
    requires t.Valid()
  {
    set r, pc | 0 <= r < t.levels * t.Width() && 0 <= pc < 2 * t.way && t.Next(r, pc).router != INVALID_ROUTER ::
      Port(r, pc)
  }

  // m_delay_factor of an up link of level l is Pow(2, l + 1), and the same for the link down again.
  function Delay(t: Tree, p: Port): nat
    requires t.Valid()
  {
    var level := t.Level(p.router);
    if level < 0 then 1 else if p.pc < t.way then Pow(2, level + 1) else Pow(2, level)
  }

  function NextOf(t: Tree, p: Port): Port
    requires t.Valid()
  {
    if p.router < 0 then Port(INVALID_ROUTER, DIR_INVALID) else t.Next(p.router, p.pc)
  }

  function Network(t: Tree, epc: nat, linkLat: nat, par: Topo): Topo
    requires t.Valid()
  {
    var n := t.levels * t.Width();
    par.(npc := seq(n, (r: nat) => NumPc(t, epc, r)),
         nint := seq(n, (r: nat) => if t.Level(r) == 0 then t.way else 2 * t.way),
         next := map p | p in Ports(t) :: NextOf(t, p),
         prev := map p | p in Ports(t) :: NextOf(t, p),
         lat := map p | p in Ports(t) :: Delay(t, p) * linkLat)
  }

  lemma PortWired(t: Tree, p: Port)
    requires t.Valid() && p in Ports(t)
    ensures var n := NextOf(t, p);
            && n in Ports(t) && NextOf(t, n) == p && t.Router(p.router)
            && (t.Level(p.router) == 0 ==> p.pc < t.way)
  {
    NextInvolution(t, p.router, p.pc);
    LevelIndex(t, p.router);
  }

  lemma DelayPositive(t: Tree, p: Port, linkLat: nat)
    requires t.Valid() && t.Router(p.router) && linkLat >= 1
    ensures Delay(t, p) * linkLat >= 1
  {
    LevelIndex(t, p.router);
    PowPos(2, t.Level(p.router));
    PowPos(2, t.Level(p.router) + 1);
    Multiple(Delay(t, p), linkLat);
  }

  // It is a network in which the protocol is sound.
  lemma FatTreeNetworkValid(t: Tree, epc: nat, linkLat: nat, par: Topo)
    requires t.Valid() && linkLat >= 1 && par.rsv <= par.depth
    ensures Network(t, epc, linkLat, par).Valid()
  {
    var T := Network(t, epc, linkLat, par);
    forall p | p in Ports(t)
      ensures T.InternalPort(p) && T.InternalPort(NextOf(t, p))
      ensures NextOf(t, p) in Ports(t) && T.next[NextOf(t, p)] == p
      ensures T.lat[p] >= 1 {
      PortWired(t, p);
      PortWired(t, NextOf(t, p));
      DelayPositive(t, p, linkLat);
    }
  }

  // ---------- how long the links are ----------

  function Higher(t: Tree, p: Port, q: Port): int
    requires t.Shape()
  {
    if t.Level(p.router) < t.Level(q.router) then t.Level(q.router) else t.Level(p.router)
  }

  lemma TreeLink(t: Tree, epc: nat, linkLat: nat, par: Topo, id: int, pc: int)
    requires t.Valid() && t.Router(id) && 0 <= pc < 2 * t.way && t.Next(id, pc).router != INVALID_ROUTER
    ensures var T := Network(t, epc, linkLat, par);
            T.Down(Port(id, pc)) == Some(t.Next(id, pc)) && T.Lat(Port(id, pc)) == Delay(t, Port(id, pc)) * linkLat
  {
    NextInvolution(t, id, pc);
    LevelIndex(t, id);
    assert Port(id, pc) in Ports(t);
  }

  // A link joins two neighbouring levels; its delay is the same in both directions, and goes by the higher level.
  lemma LinkLevels(t: Tree, id: int, pc: int)
    requires t.Valid() && t.Router(id) && t.Next(id, pc).router != INVALID_ROUTER
    ensures var p, n := Port(id, pc), t.Next(id, pc);
            && Abs(t.Level(n.router) - t.Level(id)) == 1 && Higher(t, p, n) >= 1
            && Delay(t, p) == Delay(t, n) == Pow(2, Higher(t, p, n))
  {
    LevelIndex(t, id);
    NextInvolution(t, id, pc);
    if pc < t.way { UpIs(t, id, pc); } else { DownUp(t, id, pc - t.way); }
  }

  lemma LinkLatency(t: Tree, epc: nat, linkLat: nat, par: Topo, id: int, pc: int)
    requires t.Valid() && t.Router(id) && t.Next(id, pc).router != INVALID_ROUTER
    ensures var T := Network(t, epc, linkLat, par);
            var p, n := Port(id, pc), t.Next(id, pc);
            && Abs(t.Level(n.router) - t.Level(id)) == 1 && Higher(t, p, n) >= 1
            && T.Down(p) == Some(n) && T.Lat(p) == T.Lat(n) == Pow(2, Higher(t, p, n)) * linkLat
  {
    var n := t.Next(id, pc);
    LinkLevels(t, id, pc);
    TreeLink(t, epc, linkLat, par, id, pc);
    NextInvolution(t, id, pc);
    TreeLink(t, epc, linkLat, par, n.router, n.pc);
  }

  // So the lowest links have twice the configured latency, and those from one level up twice that of those up to it.
  lemma LatencyDoubles(t: Tree, epc: nat, linkLat: nat, par: Topo, id: int, pc: nat, above: nat)
    requires t.Valid() && t.Router(id) && pc < t.way && above < t.way && t.Next(id, pc).router != INVALID_ROUTER
    ensures var T := Network(t, epc, linkLat, par);
            var u := t.Next(id, pc).router;
            && (t.Level(id) == 0 ==> T.Lat(Port(id, pc)) == 2 * linkLat)
            && (t.Router(u) && t.Next(u, above).router != INVALID_ROUTER ==>
                T.Lat(Port(u, above)) == 2 * T.Lat(Port(id, pc)))
  {
    var u := t.Next(id, pc).router;
    LevelIndex(t, id);
    UpIs(t, id, pc);
    LinkLatency(t, epc, linkLat, par, id, pc);
    assert Pow(2, 1) == 2 * Pow(2, 0);
    if t.Next(u, above).router != INVALID_ROUTER {
      LinkLatency(t, epc, linkLat, par, u, above);
      UpIs(t, u, above);
      Twice(Pow(2, t.Level(u)), linkLat);
    }
  }

  lemma Twice(a: int, b: int)
    ensures 2 * a * b == 2 * (a * b)
  {}

  // A router has the ports of its links, and on level 0 epc ports that eject.
  lemma PortsAre(t: Tree, epc: nat, linkLat: nat, par: Topo, id: int, pc: int)
    requires t.Valid() && t.Router(id)
    ensures var T := Network(t, epc, linkLat, par);
            && (T.Down(Port(id, pc)).Some? <==> t.Next(id, pc).router != INVALID_ROUTER)
            && (0 <= pc < T.npc[id] && T.IsEject(id, pc) <==> t.Level(id) == 0 && t.way <= pc < t.way + epc)
  {
    LevelIndex(t, id);
    if t.Next(id, pc).router != INVALID_ROUTER {
      NextInvolution(t, id, pc);
      TreeLink(t, epc, linkLat, par, id, pc);
    }
  }
}
