/**
 The Modbus CRC (`crc16`, `_append_crc` of bridge_serial.py) and what its check
 is worth: the transports accept a frame exactly when its residue is zero, and no
 error confined to two neighbouring bytes keeps the residue.
 */
module Crc16 {
  /** One bit of the inner loop. */
  function ShiftBit(c: bv16): bv16 {
    if c & 1 == 1 then (c >> 1) ^ 0xA001 else c >> 1
  }

  function ShiftBits(c: bv16, n: nat): bv16
    decreases n, c
  {
    if n == 0 then c else ShiftBits(ShiftBit(c), n - 1)
  }

  /** The register after one more data byte. */
  function StepByte(c: bv16, b: bv8): bv16 {
    ShiftBits(c ^ (b as bv16), 8)
  }

  /** The register after `data`, starting from `c`. */
  function Fold(c: bv16, data: seq<bv8>): bv16
    decreases |data|
  {
    if data == [] then c else Fold(StepByte(c, data[0]), data[1..])
  }

  function Crc(data: seq<bv8>): bv16 {
    Fold(PRESET, data)
  }

  function Low(c: bv16): bv8 {
    (c & 0xFF) as bv8
  }

  function High(c: bv16): bv8 {
    (c >> 8) as bv8
  }

  function Word(lo: bv8, hi: bv8): bv16 {
    (lo as bv16) | ((hi as bv16) << 8)
  }

  /** The two trailing bytes as the receiver combines them, low byte first. */
  function Trailer(frame: seq<bv8>): bv16
    requires |frame| >= 2
  {
    Word(frame[|frame| - 2], frame[|frame| - 1])
  }

  /** The receiver's check: the CRC of all but the trailer equals the trailer. */
  predicate Accepts(frame: seq<bv8>) {
    |frame| >= 2 && Crc(frame[..|frame| - 2]) == Trailer(frame)
  }

  // ------------------------------------------------------------------ the loops

  method ComputeCrc(data: seq<bv8>) returns (crc: bv16)
    ensures crc == Crc(data)
  {
    crc := PRESET;
    for i := 0 to |data|
      invariant Fold(crc, data[i..]) == Crc(data)
    {
      var reg := crc ^ (data[i] as bv16);
      for k := 0 to 8
        invariant ShiftBits(reg, 8 - k) == StepByte(crc, data[i])
      {
        reg := if reg & 1 == 1 then (reg >> 1) ^ 0xA001 else reg >> 1;
      }
      crc := reg;
      assert data[i..][1..] == data[i + 1..];
    }
  }

  // --------------------------------------------------- the register is a bijection

  lemma ShiftBitInjective(x: bv16, y: bv16)
    requires ShiftBit(x) == ShiftBit(y)
    ensures x == y
  {
  }

  lemma {:induction false} ShiftBitsInjective(x: bv16, y: bv16, n: nat)
    requires ShiftBits(x, n) == ShiftBits(y, n)
    ensures x == y
    decreases n
  {
    if n > 0 {
      ShiftBitsInjective(ShiftBit(x), ShiftBit(y), n - 1);
      ShiftBitInjective(x, y);
    }
  }

  lemma XorCancels(x: bv16, y: bv16, z: bv16)
    requires x ^ z == y ^ z
    ensures x == y
  {
  }

  lemma XorThenShiftInjective(x: bv16, y: bv16, z: bv16, n: nat)
    requires ShiftBits(x ^ z, n) == ShiftBits(y ^ z, n)
    ensures x == y
  {
    ShiftBitsInjective(x ^ z, y ^ z, n);
    XorCancels(x, y, z);
  }

  lemma StepInjective(x: bv16, y: bv16, b: bv8)
    requires StepByte(x, b) == StepByte(y, b)
    ensures x == y
  {
    XorThenShiftInjective(x, y, b as bv16, 8);
  }

  lemma {:induction false} FoldInjective(x: bv16, y: bv16, data: seq<bv8>)
    requires Fold(x, data) == Fold(y, data)
    ensures x == y
    decreases |data|
  {
    if data != [] {
      FoldInjective(StepByte(x, data[0]), StepByte(y, data[0]), data[1..]);
      StepInjective(x, y, data[0]);
    }
  }

  // ------------------------------------------------------------- eight bits at once

  lemma ShiftEight(c: bv16)
    ensures ShiftBits(c, 8) ==
      ShiftBit(ShiftBit(ShiftBit(ShiftBit(ShiftBit(ShiftBit(ShiftBit(ShiftBit(c))))))))
  {
    var c1 := ShiftBit(c);
    var c2 := ShiftBit(c1);
    var c3 := ShiftBit(c2);
    var c4 := ShiftBit(c3);
    calc {
      ShiftBits(c, 8);
      ShiftBits(c1, 7);
      ShiftBits(c2, 6);
      ShiftBits(c3, 5);
      ShiftBits(c4, 4);
      ShiftBits(ShiftBit(c4), 3);
      ShiftBits(ShiftBit(ShiftBit(c4)), 2);
      ShiftBits(ShiftBit(ShiftBit(ShiftBit(c4))), 1);
      ShiftBit(ShiftBit(ShiftBit(ShiftBit(c4))));
    }
  }

  lemma ZeroLowByteShiftsOut(c: bv16)
    requires c & 0xFF == 0
    ensures ShiftBits(c, 8) == c >> 8
  {
    ShiftEight(c);
  }

  lemma LowDifferenceReachesHighUnrolled(p: bv16, q: bv16)
    requires p & 0xFF00 == q & 0xFF00
    requires ShiftBit(ShiftBit(ShiftBit(ShiftBit(ShiftBit(ShiftBit(ShiftBit(ShiftBit(p)))))))) & 0xFF00
          == ShiftBit(ShiftBit(ShiftBit(ShiftBit(ShiftBit(ShiftBit(ShiftBit(ShiftBit(q)))))))) & 0xFF00
    ensures p == q
  {
  }

  /** A difference in the low byte alone always reaches the high byte. */
  lemma LowDifferenceReachesHigh(p: bv16, q: bv16)
    requires p & 0xFF00 == q & 0xFF00
    requires ShiftBits(p, 8) & 0xFF00 == ShiftBits(q, 8) & 0xFF00
    ensures p == q
  {
    ShiftEight(p);
    ShiftEight(q);
    LowDifferenceReachesHighUnrolled(p, q);
  }

  // ------------------------------------------------------------------ the residue

  lemma SplitWord(c: bv16)
    ensures Word(Low(c), High(c)) == c
  {
  }

  lemma AcceptsParts(data: seq<bv8>, lo: bv8, hi: bv8)
    ensures Accepts(data + [lo, hi]) <==> Crc(data) == Word(lo, hi)
  {
    var frame := data + [lo, hi];
    assert frame[..|frame| - 2] == data;
    assert frame[|frame| - 2] == lo && frame[|frame| - 1] == hi;
    assert Trailer(frame) == Word(lo, hi);
  }

  lemma {:induction false} FoldConcat(c: bv16, a: seq<bv8>, b: seq<bv8>)
    ensures Fold(c, a + b) == Fold(Fold(c, a), b)
    decreases |a|
  {
    if a == [] {
      assert a + b == b;
    } else {
      assert (a + b)[1..] == a[1..] + b;
      FoldConcat(StepByte(c, a[0]), a[1..], b);
    }
  }

  lemma FoldTwo(c: bv16, lo: bv8, hi: bv8)
    ensures Fold(c, [lo, hi]) == StepByte(StepByte(c, lo), hi)
  {
    assert [lo, hi][1..] == [hi];
    assert [hi][1..] == [];
    assert Fold(c, [lo, hi]) == Fold(StepByte(c, lo), [hi]);
  }

  /** From register `c`, two more bytes leave zero exactly when they are `c`'s own. */
  lemma TwoBytesToZero(c: bv16, lo: bv8, hi: bv8)
    ensures StepByte(StepByte(c, lo), hi) == 0 <==> c == Word(lo, hi)
  {
    var own := Word(lo, hi);
    var afterLow := own ^ (lo as bv16);
    assert afterLow & 0xFF == 0 && afterLow >> 8 == hi as bv16;
    ZeroLowByteShiftsOut(afterLow);
    assert StepByte(own, lo) == hi as bv16;
    assert (hi as bv16) ^ (hi as bv16) == 0;
    ZeroLowByteShiftsOut(0);
    assert StepByte(StepByte(own, lo), hi) == 0;
    if StepByte(StepByte(c, lo), hi) == 0 {
      FoldTwo(c, lo, hi);
      FoldTwo(own, lo, hi);
      FoldInjective(c, own, [lo, hi]);
    }
  }

  lemma CrcWithTrailer(data: seq<bv8>, lo: bv8, hi: bv8)
    ensures Crc(data + [lo, hi]) == 0 <==> Crc(data) == Word(lo, hi)
  {
    FoldConcat(PRESET, data, [lo, hi]);
    FoldTwo(Crc(data), lo, hi);
    TwoBytesToZero(Crc(data), lo, hi);
  }

  /** The receiver's check is the zero-residue test over the whole frame. */
  lemma ResidueIffAccepted(frame: seq<bv8>)
    requires |frame| >= 2
    ensures Accepts(frame) <==> Crc(frame) == 0
  {
    var n := |frame| - 2;
    assert frame == frame[..n] + [frame[n], frame[n + 1]];
    AcceptsParts(frame[..n], frame[n], frame[n + 1]);
    CrcWithTrailer(frame[..n], frame[n], frame[n + 1]);
  }

  method AppendCrc(data: seq<bv8>) returns (frame: seq<bv8>)
    ensures |frame| == |data| + 2 && frame[..|data|] == data
    ensures Accepts(frame)
    ensures Crc(frame) == 0
  {
    var c := ComputeCrc(data);
    frame := data + [Low(c), High(c)];
    assert frame[..|data|] == data;
    SplitWord(c);
    ResidueIffAccepted(frame);
  }

  // ------------------------------------------------------------------- detection

  const PRESET: bv16 := 0xFFFF

  /** `a` and `b` agree everywhere except possibly at `p` and `p + 1`. */
  predicate DifferWithinTwo(a: seq<bv8>, b: seq<bv8>, p: nat) {
    |a| == |b| && p + 2 <= |a| && a[..p] == b[..p] && a[p + 2..] == b[p + 2..]
  }

  lemma HighBytesAgree(x: bv16, y: bv16, a: bv8, b: bv8)
    requires x ^ (a as bv16) == y ^ (b as bv16)
    ensures x & 0xFF00 == y & 0xFF00
  {
  }

  lemma HighBytesEqualAfterStep(x: bv16, y: bv16, a: bv8, b: bv8, n: nat)
    requires ShiftBits(x ^ (a as bv16), n) == ShiftBits(y ^ (b as bv16), n)
    ensures x & 0xFF00 == y & 0xFF00
  {
    ShiftBitsInjective(x ^ (a as bv16), y ^ (b as bv16), n);
    HighBytesAgree(x, y, a, b);
  }

  lemma StepKeepsHighByte(x: bv16, y: bv16, a: bv8, b: bv8)
    requires StepByte(x, a) == StepByte(y, b)
    ensures x & 0xFF00 == y & 0xFF00
  {
    HighBytesEqualAfterStep(x, y, a, b, 8);
  }

  lemma XorCancelsByte(c: bv16, a: bv8, b: bv8)
    requires c ^ (a as bv16) == c ^ (b as bv16)
    ensures a == b
  {
  }

  lemma SecondByteDetermined(x: bv16, a: bv8, b: bv8, n: nat)
    requires ShiftBits(x ^ (a as bv16), n) == ShiftBits(x ^ (b as bv16), n)
    ensures a == b
  {
    ShiftBitsInjective(x ^ (a as bv16), x ^ (b as bv16), n);
    XorCancelsByte(x, a, b);
  }

  lemma StepDeterminesByte(x: bv16, a: bv8, b: bv8)
    requires StepByte(x, a) == StepByte(x, b)
    ensures a == b
  {
    SecondByteDetermined(x, a, b, 8);
  }

  lemma HighByteKept(c: bv16, a: bv8, b: bv8)
    ensures (c ^ (a as bv16)) & 0xFF00 == (c ^ (b as bv16)) & 0xFF00
  {
  }

  lemma FirstByteDetermined(c: bv16, a: bv8, b: bv8)
    requires StepByte(c, a) & 0xFF00 == StepByte(c, b) & 0xFF00
    ensures a == b
  {
    HighByteKept(c, a, b);
    LowDifferenceReachesHigh(c ^ (a as bv16), c ^ (b as bv16));
    XorCancelsByte(c, a, b);
  }

  lemma TwoBytesInjective(c: bv16, a0: bv8, a1: bv8, b0: bv8, b1: bv8)
    requires StepByte(StepByte(c, a0), a1) == StepByte(StepByte(c, b0), b1)
    ensures a0 == b0 && a1 == b1
  {
    StepKeepsHighByte(StepByte(c, a0), StepByte(c, b0), a1, b1);
    FirstByteDetermined(c, a0, b0);
    StepDeterminesByte(StepByte(c, a0), a1, b1);
  }

  /** Equal-length strings differing only inside one pair of neighbouring bytes have
      different CRCs; a difference in exactly one byte is the special case. */
  lemma BurstChangesCrc(a: seq<bv8>, b: seq<bv8>, p: nat)
    requires DifferWithinTwo(a, b, p)
    requires a != b
    ensures Crc(a) != Crc(b)
  {
    var c := Fold(PRESET, a[..p]);
    var tail := a[p + 2..];
    assert a == a[..p] + ([a[p], a[p + 1]] + tail);
    assert b == b[..p] + ([b[p], b[p + 1]] + tail);
    FoldConcat(PRESET, a[..p], [a[p], a[p + 1]] + tail);
    FoldConcat(PRESET, b[..p], [b[p], b[p + 1]] + tail);
    FoldConcat(c, [a[p], a[p + 1]], tail);
    FoldConcat(c, [b[p], b[p + 1]], tail);
    FoldTwo(c, a[p], a[p + 1]);
    FoldTwo(c, b[p], b[p + 1]);
    if Crc(a) == Crc(b) {
      FoldInjective(StepByte(StepByte(c, a[p]), a[p + 1]),
                    StepByte(StepByte(c, b[p]), b[p + 1]), tail);
      TwoBytesInjective(c, a[p], a[p + 1], b[p], b[p + 1]);
      assert false;
    }
  }

  /** A frame the receiver accepts is rejected after any corruption confined to two
      neighbouring bytes, wherever they lie, the trailer included. */
  lemma CorruptionIsRejected(sent: seq<bv8>, got: seq<bv8>, p: nat)
    requires Accepts(sent)
    requires DifferWithinTwo(sent, got, p) && got != sent
    ensures !Accepts(got)
  {
    ResidueIffAccepted(sent);
    ResidueIffAccepted(got);
    BurstChangesCrc(sent, got, p);
  }
}
