// Bus-invert coding: a group of data lines is inverted when that changes fewer wires.

module BusInvert {

  import opened Coordinates
  import opened Digits
  import opened Words

  // The wires on which two words differ.
  function Ham(a: Word, b: Word): (h: nat)
    requires |a| == |b|
    ensures h <= |a|
  {
    if a == [] then 0 else (if a[0] == b[0] then 0 else 1) + Ham(a[1..], b[1..])
  }

  lemma {:induction false} HamConcat(a: Word, b: Word, x: Word, y: Word)
    requires |a| == |b| && |x| == |y|
    ensures Ham(a + x, b + y) == Ham(a, b) + Ham(x, y)
  {
    if a == [] {
      assert a + x == x && b + y == y;
    } else {
      assert (a + x)[1..] == a[1..] + x && (b + y)[1..] == b[1..] + y;
      HamConcat(a[1..], b[1..], x, y);
    }
  }

  // A word differs from the complement of another exactly where it agrees with it.
  lemma {:induction false} HamNot(a: Word, b: Word)
    requires |a| == |b|
    ensures Ham(a, Not(b)) == |a| - Ham(a, b)
  {
    if a != [] {
      assert Not(b)[1..] == Not(b[1..]);
      HamNot(a[1..], b[1..]);
    }
  }

  lemma {:induction false} HamSym(a: Word, b: Word)
    requires |a| == |b|
    ensures Ham(a, b) == Ham(b, a)
  {
    if a != [] { HamSym(a[1..], b[1..]); }
  }

  // ---------- one group ----------

  // What travels for a group of data when its wires and its invert line, the last one, were at `was`.
  function Sent(was: Word, data: Word): (r: Word)
    requires |was| == |data| + 1
    ensures |r| == |was|
  {
    if Ham(was, data + [false]) > |data| / 2 then Not(data + [false]) else data + [false]
  }

  // The receiver inverts the group when its invert line is set.
  function Received(s: Word): (r: Word)
    requires s != []
    ensures |r| == |s| - 1
  {
    if s[|s| - 1] then Not(s)[..|s| - 1] else s[..|s| - 1]
  }

  lemma ReceivedPlain(data: Word)
    ensures Received(data + [false]) == data
  {}

  lemma ReceivedInverted(data: Word)
    ensures Received(Not(data + [false])) == data
  {
    var w := data + [false];
    NotAt(w, |data|);
    NotNot(w);
    Inverted(Not(w), w, data);
  }

  lemma Inverted(s: Word, w: Word, data: Word)
    requires |s| == |data| + 1 && s[|data|] && Not(s) == w && w == data + [false]
    ensures Received(s) == data
  {
    assert w[..|data|] == data;
  }

  lemma GroupArrives(was: Word, data: Word)
    requires |was| == |data| + 1
    ensures Received(Sent(was, data)) == data
  {
    ReceivedPlain(data);
    ReceivedInverted(data);
  }

  // The group arrives, over as few changes as either polarity allows, so at most half of the wires. It is inverted
  // exactly when that changes no more wires.
  lemma {:induction false} GroupSent(was: Word, data: Word)
    requires |was| == |data| + 1
    ensures Received(Sent(was, data)) == data
    ensures Ham(was, Sent(was, data)) == Min(Ham(was, data + [false]), |was| - Ham(was, data + [false]))
    ensures Ham(was, Sent(was, data)) <= (|data| + 1) / 2
    ensures Sent(was, data)[|data|] <==> Ham(was, Not(data + [false])) <= Ham(was, data + [false])
  {
    NotAt(data + [false], |data|);
    HamNot(was, data + [false]);
    GroupArrives(was, data);
  }

  // ---------- the whole word ----------

  // The width of n groups of w wires.
  function Times(n: nat, w: nat): nat { if n == 0 then 0 else w + Times(n - 1, w) }

  lemma {:induction false} TimesIs(n: nat, w: nat)
    ensures Times(n, w) == n * w
  {
    if n > 0 {
      TimesIs(n - 1, w);
      assert n * w == w + (n - 1) * w;
    }
  }

  function Encode(n: nat, g: nat, was: Word, data: Word): (r: Word)
    requires |was| == Times(n, g + 1) && |data| == Times(n, g)
    ensures |r| == |was|
  {
    if n == 0 then []
    else
      Sent(was[..g + 1], data[..g]) + Encode(n - 1, g, was[g + 1..], data[g..])
  }

  function Decode(n: nat, g: nat, state: Word): (r: Word)
    requires |state| == Times(n, g + 1)
    ensures |r| == Times(n, g)
  {
    if n == 0 then []
    else
      Received(state[..g + 1]) + Decode(n - 1, g, state[g + 1..])
  }

  lemma EncodeStep(n: nat, g: nat, was: Word, data: Word)
    requires n > 0 && |was| == Times(n, g + 1) && |data| == Times(n, g)
    ensures Times(n, g + 1) == g + 1 + Times(n - 1, g + 1) && Times(n, g) == g + Times(n - 1, g)
    ensures Encode(n, g, was, data) == Sent(was[..g + 1], data[..g]) + Encode(n - 1, g, was[g + 1..], data[g..])
  {}

  lemma DecodeStep(n: nat, g: nat, state: Word, s: Word, rest: Word, data: Word)
    requires n > 0 && |s| == g + 1 && |rest| == Times(n - 1, g + 1) && state == s + rest && |data| == Times(n, g)
    requires Received(s) == data[..g] && Decode(n - 1, g, rest) == data[g..]
    ensures Decode(n, g, state) == data
  {
    assert state[..g + 1] == s && state[g + 1..] == rest;
    assert data == data[..g] + data[g..];
  }

  // The state decodes to the data, group by group.
  lemma {:induction false} RoundTrip(n: nat, g: nat, was: Word, data: Word)
    requires |was| == Times(n, g + 1) && |data| == Times(n, g)
    ensures Decode(n, g, Encode(n, g, was, data)) == data
  {
    if n > 0 {
      GroupArrives(was[..g + 1], data[..g]);
      RoundTrip(n - 1, g, was[g + 1..], data[g..]);
      EncodeStep(n, g, was, data);
      DecodeStep(n, g, Encode(n, g, was, data), Sent(was[..g + 1], data[..g]),
                 Encode(n - 1, g, was[g + 1..], data[g..]), data);
    }
  }

  // The least number of wires that can change when each group chooses its polarity.
  function Best(n: nat, g: nat, was: Word, data: Word): int
    requires |was| == Times(n, g + 1) && |data| == Times(n, g)
  {
    if n == 0 then 0
    else
      var h := Ham(was[..g + 1], data[..g] + [false]);
      Min(h, g + 1 - h) + Best(n - 1, g, was[g + 1..], data[g..])
  }

  // No group changes more wires than its better polarity needs, which is at most half of them.
  lemma {:induction false} Transitions(n: nat, g: nat, was: Word, data: Word)
    requires |was| == Times(n, g + 1) && |data| == Times(n, g)
    ensures Ham(was, Encode(n, g, was, data)) == Best(n, g, was, data)
    ensures Best(n, g, was, data) <= Times(n, (g + 1) / 2)
  {
    if n > 0 {
      var s, rest := Sent(was[..g + 1], data[..g]), Encode(n - 1, g, was[g + 1..], data[g..]);
      HamConcat(was[..g + 1], s, was[g + 1..], rest);
      assert was == was[..g + 1] + was[g + 1..];
      GroupSent(was[..g + 1], data[..g]);
      Transitions(n - 1, g, was[g + 1..], data[g..]);
    }
  }

  // ---------- SIM_bus ----------

  // SIM_bus_bitwidth with bus-invert coding.
  function BitWidth(dataWidth: nat, grpWidth: nat): nat
    requires grpWidth >= 1
  {
    dataWidth + dataWidth / grpWidth + (if dataWidth % grpWidth != 0 then 1 else 0)
  }

  lemma Groups(dataWidth: nat, g: nat)
    requires g >= 1 && dataWidth % g == 0
    ensures dataWidth == Times(dataWidth / g, g) && BitWidth(dataWidth, g) == Times(dataWidth / g, g + 1)
  {
    var q := dataWidth / g;
    TimesIs(q, g);
    TimesIs(q, g + 1);
    OneMore(q, g);
  }

  lemma OneMore(q: nat, g: nat)
    ensures q * (g + 1) == q * g + q
  {}

  // The groups that cover the data.
  function Rounds(dataWidth: nat, g: nat): nat
    requires g >= 1
  {
    (dataWidth + g - 1) / g
  }

  lemma RoundsAre(dataWidth: nat, g: nat)
    requires g >= 1
    ensures Rounds(dataWidth, g) == dataWidth / g + if dataWidth % g == 0 then 0 else 1
  {
    var q, r := dataWidth / g, dataWidth % g;
    assert dataWidth == q * g + r;
    if r == 0 {
      DivMod(g - 1, q, g);
    } else {
      assert dataWidth + g - 1 == (q + 1) * g + (r - 1);
      DivMod(r - 1, q + 1, g);
    }
  }

  lemma {:induction false} NextMultiple(a: nat, b: nat, g: nat)
    requires a < b
    ensures a * g + g <= b * g
  {
    if a + 1 < b { NextMultiple(a, b - 1, g); }
    assert b * g == (b - 1) * g + g;
  }

  lemma Multiples(q: nat, r: nat, g: nat, done: nat)
    requires r < g
    ensures q * g + r > done * g <==> done < q || (done == q && r > 0)
  {
    if done < q { NextMultiple(done, q, g); } else if done > q { NextMultiple(q, done, g); }
  }

  // The loop of SIM_bus_state goes round once for each of them: with done groups behind it it goes on exactly while
  // there are more.
  lemma LoopRounds(dataWidth: nat, g: nat, done: nat)
    requires g >= 1
    ensures dataWidth > Times(done, g) <==> done < Rounds(dataWidth, g)
  {
    TimesIs(done, g);
    RoundsAre(dataWidth, g);
    assert dataWidth == dataWidth / g * g + dataWidth % g;
    Multiples(dataWidth / g, dataWidth % g, g, done);
  }

  // There is an invert line for each group, and the groups are one wire wider than their data. They fit on the wires
  // exactly when the group width divides the data width.
  lemma GroupsFitIff(dataWidth: nat, g: nat)
    requires g >= 1
    ensures BitWidth(dataWidth, g) == dataWidth + Rounds(dataWidth, g)
    ensures Rounds(dataWidth, g) * (g + 1) <= BitWidth(dataWidth, g) <==> dataWidth % g == 0
  {
    var q, r := dataWidth / g, dataWidth % g;
    assert dataWidth == q * g + r;
    RoundsAre(dataWidth, g);
    if r == 0 {
      assert q * (g + 1) == q * g + q;
    } else {
      assert (q + 1) * (g + 1) == q * g + q + g + 1;
    }
  }

  // The bits the program's word type has.
  const WORD := 64

  // SIM_power_Hamming under the mask of the low bits.
  function Hamming(x: nat, y: nat, width: nat): nat { Ham(Bits(x, width), Bits(y, width)) }

  // One group: its data in the low bits, its wires in the low bits of what is left of the old state.
  method Group(grpWidth: nat, oldState: nat, newData: nat) returns (v: nat)
    requires grpWidth >= 1
    ensures v == Val(Sent(Bits(oldState, grpWidth + 1), Bits(newData, grpWidth)))
  {
    PowPos(2, grpWidth);
    var maskData := Pow(2, grpWidth) - 1;
    var maskBus := maskData * 2 + 1;
    var data := newData % (maskData + 1);
    ghost var word := Bits(newData, grpWidth) + [false];
    DataWord(newData, grpWidth);
    BitsMask(oldState, grpWidth + 1);
    ValNot(word);
    if Hamming(oldState % (maskBus + 1), data, grpWidth + 1) > grpWidth / 2 {
      v := maskBus - data;
    } else {
      v := data;
    }
  }

  // The data of a group with its invert line at rest.
  lemma DataWord(x: nat, g: nat)
    ensures Pow(2, g) >= 1
    ensures Bits(x % Pow(2, g), g + 1) == Bits(x, g) + [false] && Val(Bits(x, g) + [false]) == x % Pow(2, g)
  {
    ValBits(x, g);
    ValConcat(Bits(x, g), [false]);
    ShlIs(0, g);
    BitsVal(Bits(x, g) + [false]);
  }

  // The encoding of the low bits of two numbers, in groups.
  function EncodeBits(n: nat, g: nat, oldState: nat, newData: nat): (r: Word)
    ensures |r| == Times(n, g + 1)
  {
    Encode(n, g, Bits(oldState, Times(n, g + 1)), Bits(newData, Times(n, g)))
  }

  lemma {:induction false} EncodeBitsStep(n: nat, g: nat, oldState: nat, newData: nat)
    requires n > 0
    ensures EncodeBits(n, g, oldState, newData) ==
              Sent(Bits(oldState, g + 1), Bits(newData, g)) +
                EncodeBits(n - 1, g, Shr(oldState, g + 1), Shr(newData, g))
  {
    var was, data := Bits(oldState, Times(n, g + 1)), Bits(newData, Times(n, g));
    EncodeStep(n, g, was, data);
    BitsCut(oldState, Times(n, g + 1), g + 1);
    BitsCut(newData, Times(n, g), g);
    assert was[g + 1..] == Bits(Shr(oldState, g + 1), Times(n - 1, g + 1));
    assert data[g..] == Bits(Shr(newData, g), Times(n - 1, g));
  }

  // Where a group goes.
  lemma Shift(done: nat, g: nat)
    requires g >= 1
    ensures Times(done, g) + Times(done, g) / g == Times(done, g + 1)
  {
    TimesIs(done, g);
    TimesIs(done, g + 1);
    DivMod(0, done, g);
    assert done * (g + 1) == done * g + done;
  }

  // A group is added to the state at its place.
  method AddGroup(state: nat, group: nat, doneWidth: nat, grpWidth: nat, ghost word: Word, ghost sent: Word,
                  ghost done: nat)
    returns (newState: nat)
    requires grpWidth >= 1 && doneWidth == Times(done, grpWidth) && |word| == Times(done, grpWidth + 1)
    requires state == Val(word) && group == Val(sent)
    ensures newState == Val(word + sent)
  {
    ValConcat(word, sent);
    Shift(done, grpWidth);
    newState := state + Shl(group, doneWidth + doneWidth / grpWidth);
  }

  lemma {:induction false} TimesLess(a: nat, b: nat, g: nat)
    requires g >= 1 && a <= b
    ensures Times(a, g) <= Times(b, g) && (a < b <==> Times(a, g) < Times(b, g))
    decreases b - a
  {
    if a < b { TimesLess(a, b - 1, g); }
  }

  // done groups are in the state, which holds the bits of word; the others are still to come.
  ghost predicate Encoding(n: nat, g: nat, old0: nat, new0: nat, done: nat, word: Word, state: nat, oldState: nat,
                           newData: nat) {
    && done <= n && |word| == Times(done, g + 1) && state == Val(word)
    && word + EncodeBits(n - done, g, oldState, newData) == EncodeBits(n, g, old0, new0)
  }

  lemma EncodeGrows(left: nat, g: nat, oldState: nat, newData: nat, word: Word, sent: Word)
    requires left > 0 && sent == Sent(Bits(oldState, g + 1), Bits(newData, g))
    ensures word + sent + EncodeBits(left - 1, g, Shr(oldState, g + 1), Shr(newData, g)) ==
            word + EncodeBits(left, g, oldState, newData)
  {
    EncodeBitsStep(left, g, oldState, newData);
    Append(word, sent, EncodeBits(left - 1, g, Shr(oldState, g + 1), Shr(newData, g)));
  }

  // One round of the loop of SIM_bus_state.
  method EncodeGroup(state: nat, doneWidth: nat, g: nat, oldState: nat, newData: nat, ghost n: nat, ghost old0: nat,
                     ghost new0: nat, ghost done: nat, ghost word: Word)
    returns (newState: nat, ghost longer: Word)
    requires g >= 1 && done < n && doneWidth == Times(done, g) &&
             Encoding(n, g, old0, new0, done, word, state, oldState, newData)
    ensures Encoding(n, g, old0, new0, done + 1, longer, newState, Shr(oldState, g + 1), Shr(newData, g))
  {
    var group := Group(g, oldState, newData);
    ghost var sent := Sent(Bits(oldState, g + 1), Bits(newData, g));
    newState := AddGroup(state, group, doneWidth, g, word, sent, done);
    EncodeGrows(n - done, g, oldState, newData, word, sent);
    longer := word + sent;
  }

  // The loop of SIM_bus_state over n groups.
  method EncodeGroups(dataWidth: nat, grpWidth: nat, oldState0: nat, newData0: nat, ghost n: nat)
    returns (newState: nat)
    requires grpWidth >= 1 && dataWidth == Times(n, grpWidth)
    ensures newState == Val(EncodeBits(n, grpWidth, oldState0, newData0))
  {
    var oldState: nat, newData: nat, doneWidth: nat := oldState0, newData0, 0;
    ghost var done: nat, word: Word := 0, [];
    newState := 0;
    while dataWidth > doneWidth
      invariant doneWidth == Times(done, grpWidth)
      invariant Encoding(n, grpWidth, oldState0, newData0, done, word, newState, oldState, newData)
      decreases n - done
    {
      TimesLess(done, n, grpWidth);
      newState, word := EncodeGroup(newState, doneWidth, grpWidth, oldState, newData, n, oldState0, newData0, done,
                                    word);
      doneWidth := doneWidth + grpWidth;
      oldState, newData := Shr(oldState, grpWidth + 1), Shr(newData, grpWidth);
      done := done + 1;
    }
    TimesLess(done, n, grpWidth);
    assert word + EncodeBits(0, grpWidth, oldState, newData) == word;
  }

  lemma Append(a: Word, b: Word, c: Word)
    ensures a + (b + c) == a + b + c
  {}

  // SIM_bus_state with bus-invert coding. The group width has to divide the data width and the state to fit
  // in a word; then no shift loses a bit, and the state is the encoding of the low bits of the data.
  method BusState(dataWidth: nat, grpWidth: nat, oldState: nat, newData: nat) returns (newState: nat)
    requires grpWidth >= 1 && dataWidth % grpWidth == 0 && BitWidth(dataWidth, grpWidth) <= WORD
    ensures newState < Pow(2, WORD)
    ensures var n := dataWidth / grpWidth;
            && BitWidth(dataWidth, grpWidth) == Times(n, grpWidth + 1) && dataWidth == Times(n, grpWidth)
            && Bits(newState, BitWidth(dataWidth, grpWidth)) ==
                 Encode(n, grpWidth, Bits(oldState, BitWidth(dataWidth, grpWidth)), Bits(newData, dataWidth))
  {
    ghost var n := dataWidth / grpWidth;
    Groups(dataWidth, grpWidth);
    newState := EncodeGroups(dataWidth, grpWidth, oldState, newData, n);
    ghost var word := EncodeBits(n, grpWidth, oldState, newData);
    BitsVal(word);
    ValBound(word);
    PowMono(|word|, WORD);
  }

  lemma Delivered(n: nat, g: nat, was: Word, data: Word)
    requires |was| == Times(n, g + 1) && |data| == Times(n, g)
    ensures Decode(n, g, Encode(n, g, was, data)) == data
    ensures Ham(Encode(n, g, was, data), was) <= Times(n, (g + 1) / 2)
  {
    RoundTrip(n, g, was, data);
    Transitions(n, g, was, data);
    HamSym(was, Encode(n, g, was, data));
  }

  class Bus {
    const dataWidth: nat
    const grpWidth: nat
    var switches: nat                   // n_switch

    constructor (dataWidth: nat, grpWidth: nat)
      requires grpWidth >= 1
      ensures this.dataWidth == dataWidth && this.grpWidth == grpWidth && switches == 0
    {
      this.dataWidth, this.grpWidth, switches := dataWidth, grpWidth, 0;
    }

    // SIM_bus_record
    method Record(oldState: nat, newState: nat)
      requires grpWidth >= 1
      modifies this
      ensures switches == old(switches) + Hamming(newState, oldState, BitWidth(dataWidth, grpWidth))
    {
      switches := switches + Hamming(newState, oldState, BitWidth(dataWidth, grpWidth));
    }

    // What SIM_bus_state computes is put on the wires and recorded: the data can be read off the wires, and
    // no group has changed more than half of its wires.
    method Transfer(oldState: nat, newData: nat) returns (newState: nat)
      requires grpWidth >= 1 && dataWidth % grpWidth == 0 && BitWidth(dataWidth, grpWidth) <= WORD
      modifies this
      ensures BitWidth(dataWidth, grpWidth) == Times(dataWidth / grpWidth, grpWidth + 1)
      ensures Decode(dataWidth / grpWidth, grpWidth, Bits(newState, BitWidth(dataWidth, grpWidth))) ==
              Bits(newData, dataWidth)
      ensures switches <= old(switches) + dataWidth / grpWidth * ((grpWidth + 1) / 2)
    {
      newState := BusState(dataWidth, grpWidth, oldState, newData);
      var n := dataWidth / grpWidth;
      Delivered(n, grpWidth, Bits(oldState, BitWidth(dataWidth, grpWidth)), Bits(newData, dataWidth));
      TimesIs(n, (grpWidth + 1) / 2);
      Record(oldState, newState);
    }
  }
}
