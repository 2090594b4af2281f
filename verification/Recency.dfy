// The value table of an encoder with least-recently-used replacement, as a sequence of slots from the most
// to the least recently used one, and what holds of it over whole access sequences.

module Recency {
  import opened Wiring

  // A slot keeps its index for life; it is empty until a value is first stored in it.
  datatype Slot<V> = Slot(value: Option<V>, index: int)

  function Find<V(==)>(t: seq<Slot<V>>, v: V): Option<nat> {
    if t == [] then None
    else if t[0].value == Some(v) then Some(0)
    else match Find(t[1..], v) case None => None case Some(i) => Some(i + 1)
  }

  // One access: a hit moves the slot of the value to the front, a miss overwrites the last slot.
  function Touch<V(==)>(t: seq<Slot<V>>, v: V): seq<Slot<V>>
    requires t != []
  {
    match Find(t, v)
    case Some(i) => if i < |t| then [t[i]] + t[..i] + t[i + 1..] else t
    case None => [Slot(Some(v), t[|t| - 1].index)] + t[..|t| - 1]
  }

  lemma FindIs<V>(t: seq<Slot<V>>, v: V)
    ensures Find(t, v).Some? ==>
              Find(t, v).value < |t| && t[Find(t, v).value].value == Some(v) &&
                forall i :: 0 <= i < Find(t, v).value ==> t[i].value != Some(v)
    ensures Find(t, v).None? ==> forall i :: 0 <= i < |t| ==> t[i].value != Some(v)
  {
    if t != [] && t[0].value != Some(v) {
      FindIs(t[1..], v);
      assert t == [t[0]] + t[1..];
    }
  }

  function Fresh<V>(n: nat): seq<Slot<V>> { seq(n, (i: nat) => Slot(None, i)) }

  // The table after a sequence of accesses.
  function After<V(==)>(t: seq<Slot<V>>, vs: seq<V>): (t': seq<Slot<V>>)
    requires t != []
    ensures |t'| == |t|
  {
    if vs == [] then t
    else
      var t1 := After(t, vs[..|vs| - 1]);
      FindIs(t1, vs[|vs| - 1]);
      Touch(t1, vs[|vs| - 1])
  }

  // ---------- the reference: distinct values by recency ----------

  function Without<V(==)>(r: seq<V>, v: V): seq<V> {
    if r == [] then [] else if r[0] == v then Without(r[1..], v) else [r[0]] + Without(r[1..], v)
  }

  // The distinct values of an access sequence, the last accessed one first.
  function Distinct<V(==)>(vs: seq<V>): seq<V> {
    if vs == [] then [] else [vs[|vs| - 1]] + Without(Distinct(vs[..|vs| - 1]), vs[|vs| - 1])
  }

  ghost predicate NoDup<V(!new)>(r: seq<V>) { forall i, j :: 0 <= i < j < |r| ==> r[i] != r[j] }

  lemma WithoutIs<V(!new)>(r: seq<V>, v: V)
    ensures v !in Without(r, v) && |Without(r, v)| <= |r|
    ensures forall x :: x in Without(r, v) <==> x in r && x != v
  {
    if r != [] {
      WithoutIs(r[1..], v);
      assert r == [r[0]] + r[1..];
    }
  }

  lemma WithoutAbsent<V(!new)>(r: seq<V>, v: V)
    requires v !in r
    ensures Without(r, v) == r
  {
    if r != [] {
      assert r == [r[0]] + r[1..];
      WithoutAbsent(r[1..], v);
    }
  }

  lemma {:induction false} WithoutAt<V(!new)>(r: seq<V>, v: V, i: nat)
    requires NoDup(r) && i < |r| && r[i] == v
    ensures Without(r, v) == r[..i] + r[i + 1..]
  {
    assert r == [r[0]] + r[1..];
    if i == 0 {
      assert v !in r[1..];
      WithoutAbsent(r[1..], v);
    } else {
      WithoutAt(r[1..], v, i - 1);
      assert r[..i] == [r[0]] + r[1..][..i - 1];
      assert r[1..][i..] == r[i + 1..];
    }
  }

  lemma {:induction false} WithoutNoDup<V(!new)>(r: seq<V>, v: V)
    requires NoDup(r)
    ensures NoDup(Without(r, v))
  {
    if v in r {
      var i :| 0 <= i < |r| && r[i] == v;
      WithoutAt(r, v, i);
    } else {
      WithoutAbsent(r, v);
    }
  }

  lemma {:induction false} DistinctIs<V(!new)>(vs: seq<V>)
    ensures NoDup(Distinct(vs))
    ensures forall x :: x in Distinct(vs) <==> x in vs
  {
    if vs != [] {
      var v, r := vs[|vs| - 1], Distinct(vs[..|vs| - 1]);
      DistinctIs(vs[..|vs| - 1]);
      WithoutNoDup(r, v);
      WithoutIs(r, v);
      assert vs == vs[..|vs| - 1] + [v];
    }
  }

  // ---------- the table shows the first values of the reference ----------

  function Min(x: nat, y: nat): nat { if y < x then y else x }

  // The filled slots of t hold the first values of r, in order.
  ghost predicate Holds<V(!new)>(t: seq<Slot<V>>, r: seq<V>) {
    forall i {:trigger t[i]} :: 0 <= i < |t| ==> t[i].value == if i < |r| then Some(r[i]) else None
  }

  lemma HitIff<V(!new)>(t: seq<Slot<V>>, r: seq<V>, v: V)
    requires Holds(t, r) && NoDup(r)
    ensures Find(t, v).Some? <==> v in r[..Min(|t|, |r|)]
    ensures Find(t, v).Some? ==> Find(t, v).value < Min(|t|, |r|) && r[Find(t, v).value] == v
    ensures Find(t, v).None? ==> forall i :: 0 <= i < Min(|t|, |r|) ==> r[i] != v
  {
    FindIs(t, v);
    if v in r[..Min(|t|, |r|)] {
      var i :| 0 <= i < Min(|t|, |r|) && r[..Min(|t|, |r|)][i] == v;
      assert t[i].value == Some(v);
    }
    if Find(t, v).Some? {
      var i := Find(t, v).value;
      assert r[..Min(|t|, |r|)][i] == v;
    }
  }

  lemma TouchHolds<V(!new)>(t: seq<Slot<V>>, r: seq<V>, v: V)
    requires t != [] && Holds(t, r) && NoDup(r)
    ensures Holds(Touch(t, v), [v] + Without(r, v))
  {
    HitIff(t, r, v);
    FindIs(t, v);
    if Find(t, v).Some? {
      WithoutAt(r, v, Find(t, v).value);
      HitHolds(t, r, v, Find(t, v).value);
    } else if v in r {
      var i :| 0 <= i < |r| && r[i] == v;
      WithoutAt(r, v, i);
      MissHolds(t, r, v, r[..i] + r[i + 1..]);
    } else {
      WithoutAbsent(r, v);
      MissHolds(t, r, v, r);
    }
  }

  lemma HitHolds<V(!new)>(t: seq<Slot<V>>, r: seq<V>, v: V, i: nat)
    requires Holds(t, r) && i < |t| && i < |r| && r[i] == v
    ensures Holds([t[i]] + t[..i] + t[i + 1..], [v] + (r[..i] + r[i + 1..]))
  {
    var u, q := [t[i]] + t[..i] + t[i + 1..], [v] + (r[..i] + r[i + 1..]);
    forall j | 0 <= j < |u| ensures u[j].value == if j < |q| then Some(q[j]) else None {
      var k := if j == 0 then i else if j <= i then j - 1 else j;
      assert u[j] == t[k];
    }
  }

  lemma MissHolds<V(!new)>(t: seq<Slot<V>>, r: seq<V>, v: V, rest: seq<V>)
    requires t != [] && Holds(t, r) && |rest| <= |r|
    requires forall j :: 0 <= j < |t| - 1 ==> (j < |rest| <==> j < |r|) && (j < |rest| ==> rest[j] == r[j])
    ensures Holds([Slot(Some(v), t[|t| - 1].index)] + t[..|t| - 1], [v] + rest)
  {
    var u, q := [Slot(Some(v), t[|t| - 1].index)] + t[..|t| - 1], [v] + rest;
    forall j | 0 <= j < |u| ensures u[j].value == if j < |q| then Some(q[j]) else None {
      if j > 0 { assert u[j] == t[j - 1]; }
    }
  }

  // After any accesses the table holds the most recent distinct values, in order of recency, and an access
  // hits exactly when its value is among the last |t| distinct ones.
  lemma {:induction false} TableIsRecency<V(!new)>(n: nat, vs: seq<V>)
    requires n >= 1
    ensures Holds(After(Fresh(n), vs), Distinct(vs))
    ensures forall v :: Find(After(Fresh(n), vs), v).Some? <==> v in Distinct(vs)[..Min(n, |Distinct(vs)|)]
  {
    var t := After(Fresh(n), vs);
    if vs != [] {
      TableIsRecency(n, vs[..|vs| - 1]);
      DistinctIs(vs[..|vs| - 1]);
      TouchHolds(After(Fresh(n), vs[..|vs| - 1]), Distinct(vs[..|vs| - 1]), vs[|vs| - 1]);
    }
    DistinctIs(vs);
    forall v ensures Find(t, v).Some? <==> v in Distinct(vs)[..Min(n, |Distinct(vs)|)] { HitIff(t, Distinct(vs), v); }
  }

  // What a table of n entries holds after the accesses vs.
  function Recent<V(==)>(n: nat, vs: seq<V>): seq<V> { Distinct(vs)[..Min(n, |Distinct(vs)|)] }

  // A larger table holds everything a smaller one holds, after the same accesses.
  lemma Inclusion<V(!new)>(n: nat, vs: seq<V>, v: V)
    requires n >= 1 && Find(After(Fresh(n), vs), v).Some?
    ensures Find(After(Fresh(n + 1), vs), v).Some?
  {
    TableIsRecency(n, vs);
    TableIsRecency(n + 1, vs);
    var d := Distinct(vs);
    assert d[..Min(n, |d|)] <= d[..Min(n + 1, |d|)];
  }

  function Hits<V(==)>(n: nat, vs: seq<V>): nat
    requires n >= 1
  {
    if vs == [] then 0
    else Hits(n, vs[..|vs| - 1]) + if Find(After(Fresh(n), vs[..|vs| - 1]), vs[|vs| - 1]).Some? then 1 else 0
  }

  // So hit counts are monotone in the size of the table.
  lemma {:induction false} HitsMonotone<V(!new)>(n: nat, m: nat, vs: seq<V>)
    requires 1 <= n <= m
    ensures Hits(n, vs) <= Hits(m, vs)
    decreases m, |vs|
  {
    if n < m {
      HitsMonotone(n, m - 1, vs);
      HitsStep(m - 1, vs);
    }
  }

  lemma {:induction false} HitsStep<V(!new)>(n: nat, vs: seq<V>)
    requires n >= 1
    ensures Hits(n, vs) <= Hits(n + 1, vs)
  {
    if vs != [] {
      HitsStep(n, vs[..|vs| - 1]);
      if Find(After(Fresh(n), vs[..|vs| - 1]), vs[|vs| - 1]).Some? { Inclusion(n, vs[..|vs| - 1], vs[|vs| - 1]); }
    }
  }

  // ---------- indices ----------

  ghost predicate Indices(t: seq<Slot>, n: nat) {
    && |t| == n && (forall i :: 0 <= i < n ==> 0 <= t[i].index < n)
    && (forall i, j :: 0 <= i < j < n ==> t[i].index != t[j].index)
  }

  function IndexOf<V(==)>(t: seq<Slot<V>>, v: V): int {
    match Find(t, v) case None => -1 case Some(i) => if i < |t| then t[i].index else -1
  }

  // It is negative exactly when no slot holds the value; otherwise it is the index of a slot that does.
  lemma IndexOfIs<V(!new)>(t: seq<Slot<V>>, n: nat, v: V)
    requires Indices(t, n)
    ensures IndexOf(t, v) < 0 <==> forall i :: 0 <= i < n ==> t[i].value != Some(v)
    ensures IndexOf(t, v) >= 0 ==> Slot(Some(v), IndexOf(t, v)) in t
    ensures IndexOf(t, v) >= -1
  {
    FindIs(t, v);
  }

  // u holds the indices of t in another order: position i those of position src[i].
  lemma Shuffled<V(!new)>(t: seq<Slot<V>>, u: seq<Slot<V>>, n: nat, src: seq<nat>)
    requires Indices(t, n) && |u| == |src| == n
    requires forall i {:trigger src[i]} :: 0 <= i < n ==> src[i] < n && u[i].index == t[src[i]].index
    requires forall i, j {:trigger src[i], src[j]} :: 0 <= i < j < n ==> src[i] != src[j]
    ensures Indices(u, n)
  {
    forall i | 0 <= i < n ensures 0 <= u[i].index < n { assert src[i] < n; }
    forall i, j | 0 <= i < j < n ensures u[i].index != u[j].index {
      var a, b := src[i], src[j];
      assert a != b && t[a].index != t[b].index;
    }
  }

  lemma FrontIndices<V(!new)>(t: seq<Slot<V>>, i: nat)
    requires i < |t| && Indices(t, |t|)
    ensures Indices([t[i]] + t[..i] + t[i + 1..], |t|)
  {
    Shuffled(t, [t[i]] + t[..i] + t[i + 1..], |t|,
             seq(|t|, (a: nat) requires a < |t| => if a == 0 then i else if a <= i then a - 1 else a));
  }

  lemma LastIndices<V(!new)>(t: seq<Slot<V>>, v: V)
    requires t != [] && Indices(t, |t|)
    ensures Indices([Slot(Some(v), t[|t| - 1].index)] + t[..|t| - 1], |t|)
  {
    Shuffled(t, [Slot(Some(v), t[|t| - 1].index)] + t[..|t| - 1], |t|,
             seq(|t|, (a: nat) requires a < |t| => if a == 0 then |t| - 1 else a - 1));
  }

  // Slots keep distinct indices; a value stored on a miss gets the index of the slot it evicts from.
  lemma TouchIndices<V(!new)>(t: seq<Slot<V>>, n: nat, v: V)
    requires n >= 1 && Indices(t, n)
    ensures Indices(Touch(t, v), n)
    ensures Find(t, v).None? ==> IndexOf(Touch(t, v), v) == t[n - 1].index
  {
    FindIs(t, v);
    if Find(t, v).Some? {
      FrontIndices(t, Find(t, v).value);
    } else {
      LastIndices(t, v);
      FoundFirst(Touch(t, v), v);
    }
  }

  lemma {:induction false} AfterIndices<V(!new)>(n: nat, vs: seq<V>)
    requires n >= 1
    ensures Indices(After(Fresh(n), vs), n)
  {
    if vs != [] {
      AfterIndices(n, vs[..|vs| - 1]);
      TouchIndices(After(Fresh(n), vs[..|vs| - 1]), n, vs[|vs| - 1]);
    }
  }

  // The answer to an access after the accesses vs: negative for exactly the values that are not among the n last
  // distinct ones, and for the others the index of the slot that holds them.
  lemma AnswerIs<V(!new)>(n: nat, vs: seq<V>, v: V)
    requires n >= 1
    ensures IndexOf(After(Fresh(n), vs), v) < 0 <==> v !in Recent(n, vs)
    ensures IndexOf(After(Fresh(n), vs), v) >= 0 ==>
              Slot(Some(v), IndexOf(After(Fresh(n), vs), v)) in After(Fresh(n), vs)
    ensures IndexOf(After(Fresh(n), vs), v) >= -1
  {
    AfterIndices(n, vs);
    IndexOfIs(After(Fresh(n), vs), n, v);
    TableIsRecency(n, vs);
    FindIs(After(Fresh(n), vs), v);
  }

  // A new table fills from its last entry: after k distinct values the i-th of them has index n - 1 - i.
  ghost predicate Filled<V(!new)>(t: seq<Slot<V>>, n: nat, vs: seq<V>) {
    && |vs| <= n == |t|
    && (forall i {:trigger vs[i]} :: 0 <= i < |vs| ==> t[|vs| - 1 - i] == Slot(Some(vs[i]), n - 1 - i))
    && (forall i {:trigger t[i]} :: |vs| <= i < n ==> t[i] == Slot(None, i - |vs|))
  }

  lemma {:induction false} FillsFromLast<V(!new)>(n: nat, vs: seq<V>)
    requires n >= 1 && |vs| <= n && NoDup(vs)
    ensures Filled(After(Fresh(n), vs), n, vs)
  {
    if vs != [] {
      var k := |vs| - 1;
      var t := After(Fresh(n), vs[..k]);
      FillsFromLast(n, vs[..k]);
      NewAbsent(t, n, vs[..k], vs[k]);
      FilledNext(t, n, vs[..k], vs[k]);
      assert vs[..k] + [vs[k]] == vs;
    }
  }

  lemma NewAbsent<V(!new)>(t: seq<Slot<V>>, n: nat, vs: seq<V>, v: V)
    requires Filled(t, n, vs) && v !in vs
    ensures Find(t, v).None?
  {
    FindIs(t, v);
    forall i | 0 <= i < |vs| ensures t[i].value != Some(v) { assert vs[|vs| - 1 - i] != v; }
  }

  lemma FilledNext<V(!new)>(t: seq<Slot<V>>, n: nat, vs: seq<V>, v: V)
    requires Filled(t, n, vs) && |vs| < n && Find(t, v).None?
    ensures Filled(Touch(t, v), n, vs + [v])
  {
    var u, ws := Touch(t, v), vs + [v];
    forall i | 0 <= i < |ws| ensures u[|ws| - 1 - i] == Slot(Some(ws[i]), n - 1 - i) {
      if i < |vs| { assert ws[i] == vs[i] && t[|vs| - 1 - i] == Slot(Some(vs[i]), n - 1 - i); }
    }
  }

  lemma FoundFirst<V(!new)>(t: seq<Slot<V>>, v: V)
    requires t != [] && t[0].value == Some(v)
    ensures IndexOf(t, v) == t[0].index
  {}

  lemma FindAt<V(!new)>(t: seq<Slot<V>>, r: seq<V>, v: V, i: nat)
    requires Holds(t, r) && NoDup(r) && i < |t| && t[i].value == Some(v)
    ensures Find(t, v) == Some(i)
  {
    FindIs(t, v);
    var j := Find(t, v).value;
    assert t[j].value == Some(r[j]) && t[i].value == Some(r[i]);
  }

  // A value that is in the table before and after an access has the same index.
  lemma IndexKept<V(!new)>(t: seq<Slot<V>>, r: seq<V>, v: V, x: V)
    requires t != [] && Holds(t, r) && NoDup(r) && Find(t, x).Some? && Find(Touch(t, v), x).Some?
    ensures IndexOf(Touch(t, v), x) == IndexOf(t, x)
  {
    var u := Touch(t, v);
    FindIs(t, v);
    FindIs(t, x);
    FindIs(u, x);
    var j := Find(u, x).value;
    var i := if Find(t, v).None? then j - 1 else if j == 0 then Find(t, v).value
      else if j <= Find(t, v).value then j - 1 else j;
    if Find(t, v).Some? || j > 0 {
      assert u[j] == t[i];
      FindAt(t, r, x, i);
    }
  }

  // The value is in the table after vs, and stays there during the accesses ws.
  predicate Stays<V(==)>(n: nat, vs: seq<V>, ws: seq<V>, x: V)
    requires n >= 1
    decreases |ws|
  {
    Find(After(Fresh(n), vs), x).Some? && (ws != [] ==> Stays(n, vs + [ws[0]], ws[1..], x))
  }

  // From its insertion until it is evicted a value always has the index it was first given.
  lemma {:induction false} IndexStable<V(!new)>(n: nat, vs: seq<V>, ws: seq<V>, x: V)
    requires n >= 1 && Stays(n, vs, ws, x)
    ensures IndexOf(After(Fresh(n), vs + ws), x) == IndexOf(After(Fresh(n), vs), x)
    decreases |ws|
  {
    if ws == [] {
      assert vs + ws == vs;
    } else {
      IndexStable(n, vs + [ws[0]], ws[1..], x);
      assert vs + [ws[0]] + ws[1..] == vs + ws;
      OneMore(n, vs, ws[0], x);
    }
  }

  lemma OneMore<V(!new)>(n: nat, vs: seq<V>, w: V, x: V)
    requires n >= 1 && Find(After(Fresh(n), vs), x).Some? && Find(After(Fresh(n), vs + [w]), x).Some?
    ensures IndexOf(After(Fresh(n), vs + [w]), x) == IndexOf(After(Fresh(n), vs), x)
  {
    assert (vs + [w])[..|vs|] == vs;
    TableIsRecency(n, vs);
    DistinctIs(vs);
    IndexKept(After(Fresh(n), vs), Distinct(vs), w, x);
  }
}
