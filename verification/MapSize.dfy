// A map that is one to one has no more entries than its range.

module MapSize {

  lemma {:induction false} OneToOneSize<K(!new), V>(m: map<K, V>, range: set<V>)
    requires forall k :: k in m ==> m[k] in range
    requires forall j, k :: j in m && k in m && m[j] == m[k] ==> j == k
    ensures |m| <= |range|
    decreases |m|
  {
    if |m| > 0 {
      assert m.Keys != {};
      var k :| k in m.Keys;
      var rest := m - {k};
      assert m.Keys == rest.Keys + {k};
      assert |rest.Keys| == |m.Keys| - 1;
      OneToOneSize(rest, range - {m[k]});
      assert range == (range - {m[k]}) + {m[k]};
    }
  }

  lemma {:induction false} IndexSize<K(!new)>(m: map<K, int>, n: nat)
    requires forall k :: k in m ==> 0 <= m[k] < n
    requires forall j, k :: j in m && k in m && m[j] == m[k] ==> j == k
    ensures |m| <= n
  {
    BelowSize(n);
    OneToOneSize(m, Below(n));
  }

  function Below(n: nat): set<int> { if n == 0 then {} else Below(n - 1) + {n - 1} }

  lemma BelowSize(n: nat)
    ensures |Below(n)| == n && forall i :: i in Below(n) <==> 0 <= i < n
  {
    if n > 0 { BelowSize(n - 1); }
  }

  lemma BetweenSize(a: nat, b: nat)
    requires a <= b
    ensures |Below(b) - Below(a)| == b - a && forall i :: i in Below(b) - Below(a) <==> a <= i < b
  {
    BelowSize(a);
    BelowSize(b);
    assert Below(b) == (Below(b) - Below(a)) + Below(a);
  }

  lemma {:induction false} ElementsSize<V>(s: seq<V>)
    ensures |set x | x in s| <= |s|
  {
    if s != [] {
      ElementsSize(s[1..]);
      assert (set x | x in s) <= (set x | x in s[1..]) + {s[0]} by { assert s == [s[0]] + s[1..]; }
      SubsetSize(set x | x in s, (set x | x in s[1..]) + {s[0]});
    } else {
      assert (set x | x in s) == {};
    }
  }

  lemma {:induction false} SubsetSize<V>(a: set<V>, b: set<V>)
    requires a <= b
    ensures |a| <= |b|
  {
    assert b == a + (b - a);
  }
}
