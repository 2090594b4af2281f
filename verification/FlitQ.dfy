// The input buffers of a router as the program keeps them: one queue for each input VC, updated in place.

module FlitQs {
  import opened Wiring
  import opened Flits
  import opened Protocol

  class FlitQ {
    const T: Topo
    const id: nat                       // the router the buffers belong to
    var q: map<VC, seq<Flit>>           // m_Q_vec

    constructor (T: Topo, id: nat)
      ensures this.T == T && this.id == id && q == map[]
    {
      this.T, this.id, q := T, id, map[];
    }

    function Size(k: VC): nat
      reads this
    {
      |Queue(q, k)|
    }

    predicate IsEmpty(k: VC)
      reads this
    {
      Size(k) == 0
    }

    method IsFull(k: VC) returns (full: bool)
      ensures full == Full(T, q, k)
    {
      if T.damq {
        var used := 0;
        for vc := 0 to T.nvc
          invariant used == RowQ(q, k.pc, vc)
        {
          used := used + Size(VC(k.pc, vc));
        }
        full := used >= T.nvc * T.depth;
      } else {
        full := Size(k) >= T.depth;
      }
    }

    function Peek(k: VC): Flit
      requires !IsEmpty(k)
      reads this
    {
      Queue(q, k)[0]
    }

    // The oldest flit leaves the buffer.
    method Read(k: VC) returns (f: Flit)
      requires !IsEmpty(k)
      modifies this
      ensures f == Queue(old(q), k)[0] && q == old(q)[k := Queue(old(q), k)[1..]]
    {
      f := Queue(q, k)[0];
      q := q[k := Queue(q, k)[1..]];
    }

    method Write(k: VC, f: Flit)
      requires !Full(T, q, k)
      modifies this
      ensures q == old(q)[k := Queue(old(q), k) + [f]]
    {
      q := q[k := Queue(q, k) + [f]];
    }
  }

  // With the shared organisation a write to one VC takes room from every VC of the port, and never makes
  // the port hold more than all its VCs together have. A buffer is full exactly when one more flit would be too many.
  lemma WriteKeepsBound(T: Topo, q: map<VC, seq<Flit>>, k: VC, f: Flit)
    requires 0 <= k.vc < T.nvc
    ensures var q' := q[k := Queue(q, k) + [f]];
            !Full(T, q, k) <==>
              if T.damq then RowQ(q', k.pc, T.nvc) <= T.nvc * T.depth else |Queue(q', k)| <= T.depth
  {
    RowWrite(q, k, f, T.nvc);
  }

  lemma {:induction false} RowWrite(q: map<VC, seq<Flit>>, k: VC, f: Flit, n: nat)
    ensures RowQ(q[k := Queue(q, k) + [f]], k.pc, n) == RowQ(q, k.pc, n) + if 0 <= k.vc < n then 1 else 0
  {
    if n > 0 { RowWrite(q, k, f, n - 1); }
  }
}
