// The encoder's table as the program keeps it: entries on a doubly-linked list in order of recency, and a
// map from the stored values to their entries.

module CAMEncoder {
  import opened DataBlocks
  import opened MapSize
  import opened Recency
  import opened Wiring

  class Entry {
    var next: Entry?
    var prev: Entry?
    var valid: bool
    const index: int
    var value: Value

    constructor (index: int)
      ensures this.index == index && !valid && next == null && prev == null
    {
      this.index, valid, value, next, prev := index, false, Value(""), null, null;
    }

    function Slot(): Slot<Value>
      reads this
    {
      Recency.Slot(if valid then Some(value) else None, index)
    }
  }

  // The entry at position i of the list points to its neighbours.
  ghost predicate LinkAt(l: seq<Entry>, i: int)
    requires 0 <= i < |l|
    reads l
  {
    && l[i].prev == (if i == 0 then null else l[i - 1])
    && l[i].next == (if i == |l| - 1 then null else l[i + 1])
  }

  ghost predicate Linked(l: seq<Entry>)
    reads l
  {
    && (forall i {:trigger LinkAt(l, i)} :: 0 <= i < |l| ==> LinkAt(l, i))
    && (forall i, j :: 0 <= i < j < |l| ==> l[i] != l[j])
  }

  // The contents of the entries are the slots of t.
  ghost predicate Shows(l: seq<Entry>, t: seq<Slot<Value>>)
    reads l
  {
    |l| == |t| && forall i {:trigger l[i]} :: 0 <= i < |l| ==> l[i].Slot() == t[i]
  }

  // The map holds exactly the valid entries.
  ghost predicate Mapped(l: seq<Entry>, tab: map<Value, Entry>)
    reads l
  {
    && (forall v {:trigger tab[v]} :: v in tab ==> tab[v] in l && tab[v].valid && tab[v].value == v)
    && (forall i {:trigger l[i]} :: 0 <= i < |l| && l[i].valid ==> l[i].value in tab && tab[l[i].value] == l[i])
  }

  // The entries of l, from head to tail, hold t, and the map finds them.
  ghost predicate Listed(l: seq<Entry>, t: seq<Slot<Value>>, head: Entry, tail: Entry, tab: map<Value, Entry>)
    reads l
  {
    l != [] && Linked(l) && head == l[0] && tail == l[|l| - 1] && Shows(l, t) && Mapped(l, tab)
  }

  // The list with the entry at position p moved to the front.
  function Front<X>(l: seq<X>, p: int): seq<X>
    requires 0 <= p < |l|
  {
    [l[p]] + l[..p] + l[p + 1..]
  }

  // Unlinking the entry at position p and linking it in at the head, as access_by_LRU does it for the
  // tail and for entries in the middle; nothing happens to the head itself.
  method MoveToFront(head: Entry, tail: Entry, found: Entry, ghost l: seq<Entry>, ghost p: nat)
    returns (head': Entry, tail': Entry)
    requires Linked(l) && p < |l| && head == l[0] && tail == l[|l| - 1] && found == l[p]
    modifies l
    ensures Linked(Front(l, p)) && head' == found && tail' == Front(l, p)[|l| - 1]
    ensures forall i {:trigger l[i]} :: 0 <= i < |l| ==> l[i].valid == old(l[i].valid) && l[i].value == old(l[i].value)
  {
    head', tail' := head, tail;
    assert LinkAt(l, p) && LinkAt(l, 0);
    if found == head {
      assert p == 0;
      assert Front(l, 0) == l;
      return;
    }
    ghost var q := p - 1;
    assert LinkAt(l, q);
    if found == tail {
      assert found.next == null;
      found.prev.next := null;
      tail' := found.prev;
    } else {
      assert LinkAt(l, p + 1);
      found.prev.next := found.next;
      found.next.prev := found.prev;
    }
    found.next := head;
    found.prev := null;
    head.prev := found;
    head' := found;
    ghost var f := Front(l, p);
    forall i | 0 <= i < |f| ensures LinkAt(f, i) {
      assert old(LinkAt(l, i));
      if i > 0 { assert old(LinkAt(l, i - 1)); }
    }
  }

  method NewEntries(n: nat) returns (buf: seq<Entry>)
    ensures |buf| == n &&
            (forall i {:trigger buf[i]} :: 0 <= i < n ==> fresh(buf[i]) && !buf[i].valid && buf[i].index == i)
    ensures forall i, j :: 0 <= i < j < n ==> buf[i] != buf[j]
  {
    buf := [];
    for k := 0 to n
      invariant |buf| == k &&
                (forall i {:trigger buf[i]} :: 0 <= i < k ==> fresh(buf[i]) && !buf[i].valid && buf[i].index == i)
      invariant forall i, j :: 0 <= i < j < k ==> buf[i] != buf[j]
    {
      var e := new Entry(k);
      buf := buf + [e];
    }
  }

  method LinkEntries(buf: seq<Entry>)
    requires forall i, j :: 0 <= i < j < |buf| ==> buf[i] != buf[j]
    modifies buf
    ensures Linked(buf)
    ensures forall i {:trigger buf[i]} :: 0 <= i < |buf| ==>
              buf[i].valid == old(buf[i].valid) && buf[i].value == old(buf[i].value)
  {
    for k := 0 to |buf|
      invariant forall i {:trigger LinkAt(buf, i)} :: 0 <= i < k ==> LinkAt(buf, i)
      invariant forall i {:trigger buf[i]} :: 0 <= i < |buf| ==>
                  buf[i].valid == old(buf[i].valid) && buf[i].value == old(buf[i].value)
    {
      label Before:
      buf[k].prev := if k == 0 then null else buf[k - 1];
      buf[k].next := if k == |buf| - 1 then null else buf[k + 1];
      ghost var n := k + 1;
      forall i | 0 <= i < n ensures LinkAt(buf, i) {
        if i < k { assert old@Before(LinkAt(buf, i)) && buf[i] != buf[k]; }
      }
    }
  }

  method NewList(n: nat) returns (buf: seq<Entry>)
    ensures |buf| == n && forall e :: e in buf ==> fresh(e)
    ensures Linked(buf) && Shows(buf, Fresh(n)) && Mapped(buf, map[])
  {
    buf := NewEntries(n);
    LinkEntries(buf);
  }

  // Moving an entry changes neither what the slots hold nor what the map finds.
  method Promote(head: Entry, tail: Entry, found: Entry, ghost l: seq<Entry>, ghost p: nat, ghost t: seq<Slot<Value>>,
                 ghost tab: map<Value, Entry>)
    returns (head': Entry, tail': Entry, ghost l': seq<Entry>, ghost t': seq<Slot<Value>>)
    requires Listed(l, t, head, tail, tab) && p < |l| && found == l[p]
    modifies l
    ensures Listed(l', t', head', tail', tab) && |l'| == |l| && t' == Front(t, p) && forall e :: e in l' <==> e in l
  {
    head', tail' := MoveToFront(head, tail, found, l, p);
    assert Shows(l, t);
    assert Mapped(l, tab);
    ShowsFront(l, t, p);
    MappedFront(l, tab, p);
    FrontHas(l, p);
    l', t' := Front(l, p), Front(t, p);
  }

  lemma ShowsFront(l: seq<Entry>, t: seq<Slot<Value>>, p: nat)
    requires p < |l| && Shows(l, t)
    ensures Shows(Front(l, p), Front(t, p))
  {
    var f := Front(l, p);
    forall i | 0 <= i < |f| ensures f[i].Slot() == Front(t, p)[i] {
      var j := if i == 0 then p else if i <= p then i - 1 else i;
      assert f[i] == l[j] && Front(t, p)[i] == t[j];
    }
  }

  lemma MappedFront(l: seq<Entry>, tab: map<Value, Entry>, p: nat)
    requires p < |l| && Mapped(l, tab)
    ensures Mapped(Front(l, p), tab)
  {
    var f := Front(l, p);
    FrontHas(l, p);
    forall i | 0 <= i < |f| && f[i].valid ensures f[i].value in tab && tab[f[i].value] == f[i] {
      assert f[i] == l[if i == 0 then p else if i <= p then i - 1 else i];
    }
  }

  // A value stored in the first entry, in place of what was there.
  method Store(e: Entry, tab: map<Value, Entry>, v: Value, ghost l: seq<Entry>, ghost t: seq<Slot<Value>>)
    returns (tab': map<Value, Entry>)
    requires l != [] && e == l[0] && Linked(l) && Shows(l, t) && Mapped(l, tab) && v !in tab
    modifies e
    ensures Linked(l) && Shows(l, t[0 := Recency.Slot(Some(v), t[0].index)]) && Mapped(l, tab')
  {
    tab' := if e.valid then tab - {e.value} else tab;
    e.valid, e.value := true, v;
    tab' := tab'[v := e];
    forall i | 0 <= i < |l| ensures LinkAt(l, i) { assert old(LinkAt(l, i)); }
    forall i | 0 <= i < |l| && l[i].valid ensures l[i].value in tab' && tab'[l[i].value] == l[i] {}
  }

  lemma FrontHas<X>(l: seq<X>, p: int)
    requires 0 <= p < |l|
    ensures |Front(l, p)| == |l|
    ensures forall x :: x in Front(l, p) <==> x in l
  {
    var f := Front(l, p);
    forall x | x in l ensures x in f {
      var i :| 0 <= i < |l| && l[i] == x;
      assert x == f[if i == p then 0 else if i < p then i + 1 else i];
    }
  }

  class CAMDataEnPrivate {
    const size: nat                     // m_num_sets
    var head: Entry                     // m_buf_head
    var tail: Entry                     // m_buf_tail
    var tab: map<Value, Entry>          // m_datablk2buf_map
    var hits: nat
    var misses: nat
    ghost var list: seq<Entry>          // the entries from head to tail
    ghost var slots: seq<Slot<Value>>   // and what they hold
    ghost var past: seq<Value>          // the values accessed so far
    ghost const all: set<Entry>         // m_buf

    ghost predicate Sound()
      reads this`head, this`tail, this`tab, this`list, this`slots, all
    {
      && size == |list| == |slots| && (forall e :: e in list ==> e in all)
      && Listed(list, slots, head, tail, tab)
    }

    ghost predicate Valid()
      reads this`head, this`tail, this`tab, this`list, this`slots, this`past, all
    {
      Sound() && size >= 1 && slots == After(Fresh(size), past)
    }

    // alloc
    constructor (size: nat)
      requires size >= 1
      ensures Valid() && this.size == size && slots == Fresh(size) && tab == map[] && past == [] && fresh(all)
      ensures hits == misses == 0
    {
      var buf := NewList(size);
      this.size, head, tail, tab, hits, misses := size, buf[0], buf[size - 1], map[], 0, 0;
      list, slots, past := buf, Fresh(size), [];
      all := set e | e in buf;
    }

    // A value is in the map exactly when a slot holds it, and the map leads to that slot.
    lemma MapFinds(v: Value)
      requires Sound()
      ensures v in tab <==> Find(slots, v).Some?
      ensures v in tab ==> Find(slots, v).value < |list| && tab[v] == list[Find(slots, v).value]
    {
      FindIs(slots, v);
      if v in tab {
        var i :| 0 <= i < |list| && list[i] == tab[v];
        assert list[i].Slot() == slots[i];
      }
      if Find(slots, v).Some? {
        var i := Find(slots, v).value;
        assert list[i].Slot() == slots[i];
      }
    }

    lemma MapFits()
      requires Sound()
      ensures |tab| <= size
    {
      OneToOneSize(tab, set e | e in list);
      ElementsSize(list);
    }

    // The entry the program takes apart on a miss has no predecessor exactly when it is the only one.
    lemma TailPrev()
      requires Sound()
      ensures tail.prev == null <==> size == 1
      ensures tail.next == null
    {
      assert LinkAt(list, |list| - 1);
    }

    // access_by_LRU: negative exactly if the value is not among the last distinct ones, or else the index of the entry
    // that holds it. A table of one entry cannot take a miss: the program follows the null pointer.
    method AccessByLRU(v: Value) returns (hitIndex: int)
      requires Valid() && (v in tab || size >= 2)
      modifies this, all
      ensures Valid() && slots == Touch(old(slots), v) && past == old(past) + [v]
      ensures hitIndex == IndexOf(old(slots), v)
      ensures Answer(size, old(past), old(slots), v, hitIndex)
      ensures hits == old(hits) + (if hitIndex < 0 then 0 else 1)
      ensures misses == old(misses) + (if hitIndex < 0 then 1 else 0)
    {
      AnswerRight(size, past, slots, v);
      AfterOne(size, past, v);
      hitIndex := Relink(v);
      past := past + [v];
    }

    // What access_by_LRU does to the list, the map and the counts.
    method Relink(v: Value) returns (hitIndex: int)
      requires Sound() && (v in tab || size >= 2)
      modifies this`head, this`tail, this`list, this`slots, this`tab, this`hits, this`misses, all
      ensures Sound() && slots == Touch(old(slots), v) && hitIndex == IndexOf(old(slots), v)
      ensures if Find(old(slots), v).Some? then hits == old(hits) + 1 && misses == old(misses)
              else hits == old(hits) && misses == old(misses) + 1
    {
      MapFinds(v);
      TouchIs(slots, v);
      ghost var p := Find(slots, v);
      if v !in tab {
        Miss(v);
        misses := misses + 1;
        hitIndex := -1;
      } else {
        var found := tab[v];
        assert found.Slot() == slots[p.value];
        hitIndex := found.index;
        Hit(found, p.value);
        hits := hits + 1;
      }
    }

    // compress on the values a data block is cut into: one status for each value.
    method Compress(vs: seq<Value>) returns (status: seq<int>)
      requires Valid() && size >= 2
      modifies this, all
      ensures Valid() && past == old(past) + vs && slots == After(old(slots), vs)
      ensures |status| == |vs| && Answers(old(slots), vs, status) && Statuses(size, old(past), vs, status)
      ensures hits == old(hits) + Found(status) && misses == old(misses) + (|vs| - Found(status))
    {
      status := [];
      Taken(old(past), vs);
      for n := 0 to |vs|
        invariant Valid() && size >= 2 && past == old(past) + vs[..n]
        invariant |status| == n && Answers(old(slots), vs, status)
        invariant hits == old(hits) + Found(status) && misses == old(misses) + (n - Found(status))
      {
        TakenNext(size, old(past), vs, n);
        var index := AccessByLRU(vs[n]);
        AnswersNext(old(slots), vs, status, index);
        FoundNext(status, index);
        status := status + [index];
      }
      AfterBoth(size, old(past), vs);
      StatusesAre(size, old(past), vs, status);
    }

    method Hit(found: Entry, ghost p: nat)
      requires Sound() && p < |list| && found == list[p]
      modifies this`head, this`tail, this`list, this`slots, all
      ensures Sound() && slots == Front(old(slots), p)
    {
      head, tail, list, slots := Promote(head, tail, found, list, p, slots, tab);
    }

    method Overwrite(v: Value)
      requires Sound() && v !in tab
      modifies this`slots, this`tab, all
      ensures Sound() && slots == old(slots)[0 := Recency.Slot(Some(v), old(slots)[0].index)]
    {
      tab := Store(head, tab, v, list, slots);
      slots := slots[0 := Recency.Slot(Some(v), slots[0].index)];
    }

    method Miss(v: Value)
      requires Sound() && size >= 2 && v !in tab
      modifies this`head, this`tail, this`list, this`slots, this`tab, all
      ensures Sound() && slots == Replaced(old(slots), v)
    {
      TailPrev();
      assert tail.next == null && tail.prev != null;
      Hit(tail, |list| - 1);
      Overwrite(v);
      MapFits();
      assert |tab| <= size;
      FrontReplaced(old(slots), v);
    }
  }

  // Each status is what the access of its value returns: the values before it have gone into the table.
  ghost predicate Answers(t: seq<Slot<Value>>, vs: seq<Value>, status: seq<int>) {
    && t != [] && |status| <= |vs|
    && forall i {:trigger status[i]} :: 0 <= i < |status| ==> status[i] == IndexOf(After(t, vs[..i]), vs[i])
  }

  // The answer to an access to v after those to past, of a table with the slots t: negative exactly if v is not among
  // the last distinct values, and so in no slot, or else the index of a slot that holds it.
  ghost predicate Answer(n: nat, past: seq<Value>, t: seq<Slot<Value>>, v: Value, index: int)
    requires n >= 1
  {
    && (index < 0 <==> v !in Recent(n, past)) && (index < 0 <==> forall i :: 0 <= i < |t| ==> t[i].value != Some(v))
    && (index >= 0 ==> Recency.Slot(Some(v), index) in t) && index >= -1
  }

  lemma AnswerRight(n: nat, past: seq<Value>, t: seq<Slot<Value>>, v: Value)
    requires n >= 1 && t == After(Fresh(n), past)
    ensures Answer(n, past, t, v, IndexOf(t, v)) && (IndexOf(t, v) >= 0 <==> Find(t, v).Some?)
  {
    AnswerIs(n, past, v);
    AfterIndices(n, past);
    IndexOfIs(t, n, v);
    FindIs(t, v);
  }

  // Each status is the answer to the access to its value, the values before it having been accessed.
  ghost predicate Statuses(n: nat, past: seq<Value>, vs: seq<Value>, status: seq<int>)
    requires n >= 1
  {
    && |status| <= |vs|
    && forall i {:trigger status[i]} :: 0 <= i < |status| ==>
         Answer(n, past + vs[..i], After(Fresh(n), past + vs[..i]), vs[i], status[i])
  }

  lemma {:induction false} AfterBoth(n: nat, past: seq<Value>, vs: seq<Value>)
    requires n >= 1
    ensures After(After(Fresh(n), past), vs) == After(Fresh(n), past + vs)
  {
    if vs == [] {
      assert past + vs == past;
    } else {
      AfterBoth(n, past, vs[..|vs| - 1]);
      assert (past + vs)[..|past + vs| - 1] == past + vs[..|vs| - 1];
    }
  }

  lemma Taken(past: seq<Value>, vs: seq<Value>)
    ensures past + vs[..0] == past && vs[..|vs|] == vs
  {}

  lemma TakenNext(n: nat, past: seq<Value>, vs: seq<Value>, i: nat)
    requires n >= 1 && i < |vs|
    ensures past + vs[..i + 1] == past + vs[..i] + [vs[i]]
    ensures After(After(Fresh(n), past), vs[..i]) == After(Fresh(n), past + vs[..i])
  {
    AfterBoth(n, past, vs[..i]);
  }

  lemma StatusesAre(n: nat, past: seq<Value>, vs: seq<Value>, status: seq<int>)
    requires n >= 1 && Answers(After(Fresh(n), past), vs, status)
    ensures Statuses(n, past, vs, status)
  {
    forall i | 0 <= i < |status|
      ensures Answer(n, past + vs[..i], After(Fresh(n), past + vs[..i]), vs[i], status[i])
    {
      AfterBoth(n, past, vs[..i]);
      AnswerRight(n, past + vs[..i], After(Fresh(n), past + vs[..i]), vs[i]);
    }
  }

  // The statuses of values that were found.
  function Found(status: seq<int>): nat {
    if status == [] then 0 else Found(status[..|status| - 1]) + if status[|status| - 1] < 0 then 0 else 1
  }

  lemma FoundNext(status: seq<int>, index: int)
    ensures Found(status + [index]) == Found(status) + if index < 0 then 0 else 1
  {
    assert (status + [index])[..|status|] == status;
  }

  lemma AfterOne(n: nat, past: seq<Value>, v: Value)
    requires n >= 1
    ensures After(Fresh(n), past + [v]) == Touch(After(Fresh(n), past), v)
  {
    assert (past + [v])[..|past|] == past;
  }

  lemma AnswersNext(t: seq<Slot<Value>>, vs: seq<Value>, status: seq<int>, index: int)
    requires |status| < |vs| && Answers(t, vs, status) && index == IndexOf(After(t, vs[..|status|]), vs[|status|])
    ensures Answers(t, vs, status + [index])
  {}

  // The last slot overwritten and moved to the front.
  function Replaced<V>(t: seq<Slot<V>>, v: V): seq<Slot<V>>
    requires t != []
  {
    [Recency.Slot(Some(v), t[|t| - 1].index)] + t[..|t| - 1]
  }

  lemma FrontReplaced<V>(t: seq<Slot<V>>, v: V)
    requires t != []
    ensures Front(t, |t| - 1)[0 := Recency.Slot(Some(v), Front(t, |t| - 1)[0].index)] == Replaced(t, v)
  {}

  lemma TouchIs<V(!new)>(t: seq<Slot<V>>, v: V)
    requires t != []
    ensures Find(t, v).Some? ==> Find(t, v).value < |t| && Touch(t, v) == Front(t, Find(t, v).value)
    ensures Find(t, v).None? ==> Touch(t, v) == Replaced(t, v)
  {
    FindIs(t, v);
  }
}
