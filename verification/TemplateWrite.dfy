/**
 Writing a scaled value to a holding register and reading it back (`_writeback` and `_decode`
 of bridge_template.py), in exact arithmetic.
 */
module TemplateWrite {
  import opened Base
  import opened ReadPlan

  datatype Scaling = Scaling(scale: real, offset: real)

  newtype Word = x: int | 0 <= x < 0x1_0000

  /** Python's round: to the nearest integer, a half to the even one. */
  function Round(x: real): int {
    var low := x.Floor;
    var frac := x - low as real;
    if frac < 0.5 || (frac == 0.5 && low % 2 == 0) then low else low + 1
  }

  /** The raw values a single-register write may carry; an unknown format has none. */
  function WriteRange(fmt: Format): (int, int) {
    match fmt
    case U16 => (0, 0xFFFF)
    case S16 => (-0x8000, 0x7FFF)
    case _ => (1, 0)
  }

  function Exact(s: Scaling, value: real): real
    requires s.scale != 0.0
  {
    (value - s.offset) / s.scale
  }

  function RawOf(s: Scaling, value: real): int {
    if s.scale != 0.0 then Round(Exact(s, value)) else 0
  }

  /** The word written, or None for a refused write. */
  function Encode(fmt: Format, s: Scaling, value: real): Option<Word> {
    var raw, range := RawOf(s, value), WriteRange(fmt);
    if range.0 <= raw <= range.1 then Some((raw % 0x1_0000) as Word) else None
  }

  /** The raw value of one register: `_decode` of the two single-word formats. */
  function Raw(signed: bool, w: Word): int {
    if signed && w >= 0x8000 then w as int - 0x1_0000 else w as int
  }

  function Decode(signed: bool, s: Scaling, w: Word): real {
    Raw(signed, w) as real * s.scale + s.offset
  }

  function SingleWord(signed: bool): Format {
    if signed then S16 else U16
  }

  function Abs(x: real): real {
    if x < 0.0 then -x else x
  }

  // ------------------------------------------------------------------------------- rounding

  /** Round gives the nearest integer, and of two equally near ones the even one. */
  lemma RoundIsNearest(x: real, other: int)
    ensures Abs(Round(x) as real - x) <= 0.5
    ensures Abs(Round(x) as real - x) <= Abs(other as real - x)
    ensures other != Round(x) && Abs(other as real - x) == Abs(Round(x) as real - x) ==> Round(x) % 2 == 0
  {
    var low := x.Floor;
    assert low as real <= x < low as real + 1.0;
    if other < low {
      assert other as real <= low as real - 1.0;
    } else if other > low + 1 {
      assert other as real >= low as real + 2.0;
    }
  }

  lemma RoundOfInteger(k: int)
    ensures Round(k as real) == k
  {
    RoundIsNearest(k as real, k);
  }

  /** Which reals round into a range: its ends are pushed out by one half, and the half itself
      belongs to the range only where its end is even. */
  lemma RoundsIntoRangeIff(x: real, lo: int, hi: int)
    requires lo <= hi
    ensures lo <= Round(x) <= hi <==>
      && (if lo % 2 == 0 then lo as real - 0.5 <= x else lo as real - 0.5 < x)
      && (if hi % 2 == 0 then x <= hi as real + 0.5 else x < hi as real + 0.5)
  {
    RoundIsNearest(x, lo);
    RoundIsNearest(x, lo - 1);
    RoundIsNearest(x, hi);
    RoundIsNearest(x, hi + 1);
    var r := Round(x);
    if r < lo {
      assert r as real <= lo as real - 1.0;
    }
    if r > hi {
      assert r as real >= hi as real + 1.0;
    }
  }

  // -------------------------------------------------------------------------------- scaling

  lemma Unscale(s: Scaling, value: real)
    requires s.scale != 0.0
    ensures Exact(s, value) * s.scale == value - s.offset
  {
  }

  lemma AbsScales(a: real, b: real)
    ensures Abs(a * b) == Abs(a) * Abs(b)
  {
  }

  /** A distance of `d` steps of the scale. */
  function Steps(d: real, s: Scaling): real {
    d * Abs(s.scale)
  }

  lemma Monotone(a: real, b: real, s: Scaling)
    requires a <= b
    ensures Steps(a, s) <= Steps(b, s)
  {
  }

  /** How far a word reads back from a value, in steps of the scale. */
  lemma Distance(signed: bool, s: Scaling, value: real, w: Word)
    requires s.scale != 0.0
    ensures Abs(Decode(signed, s, w) - value) ==
      Steps(Abs(Raw(signed, w) as real - Exact(s, value)), s)
  {
    var x, r := Exact(s, value), Raw(signed, w) as real;
    Unscale(s, value);
    assert Decode(signed, s, w) - value == (r - x) * s.scale;
    AbsScales(r - x, s.scale);
  }

  /** No sign wrap: the word of an accepted write reads back as the rounded raw value. */
  lemma MaskKeepsValue(signed: bool, s: Scaling, value: real)
    requires Encode(SingleWord(signed), s, value).Some?
    ensures Raw(signed, Encode(SingleWord(signed), s, value).value) == RawOf(s, value)
  {
  }

  // ------------------------------------------------------------------------------- theorems

  /** An accepted write reads back within half a step, and no other word would be nearer. */
  lemma AcceptedWriteReadsBack(signed: bool, s: Scaling, value: real, other: Word)
    requires s.scale != 0.0 && Encode(SingleWord(signed), s, value).Some?
    ensures var w := Encode(SingleWord(signed), s, value).value;
      && Abs(Decode(signed, s, w) - value) <= Steps(0.5, s)
      && Abs(Decode(signed, s, w) - value) <= Abs(Decode(signed, s, other) - value)
  {
    hide Steps, Decode, Abs, Exact, Round;
    var w := Encode(SingleWord(signed), s, value).value;
    var x := Exact(s, value);
    MaskKeepsValue(signed, s, value);
    Distance(signed, s, value, w);
    Distance(signed, s, value, other);
    RoundIsNearest(x, Raw(signed, other));
    Monotone(Abs(Raw(signed, w) as real - x), 0.5, s);
    Monotone(Abs(Raw(signed, w) as real - x), Abs(Raw(signed, other) as real - x), s);
  }

  /** Exactly which values are accepted, for every format and scale: never for a two-word channel,
      always with scale 0, and else to the half step at either end. The highest raw value is odd in
      both formats, so the half above it is refused; the lowest is even, so the half below it is
      accepted. With scale 0 the register is written 0 and reads as the offset. */
  lemma AcceptedIff(fmt: Format, s: Scaling, value: real)
    ensures Encode(fmt, s, value).Some? <==>
      && (fmt == U16 || fmt == S16)
      && (s.scale != 0.0 ==>
            if fmt == S16 then -32768.5 <= Exact(s, value) < 32767.5 else -0.5 <= Exact(s, value) < 65535.5)
    ensures s.scale == 0.0 && Encode(fmt, s, value).Some? ==>
      Encode(fmt, s, value) == Some(0) && Decode(fmt == S16, s, 0) == s.offset
  {
    if s.scale != 0.0 && (fmt == U16 || fmt == S16) {
      var range := WriteRange(fmt);
      RoundsIntoRangeIff(Exact(s, value), range.0, range.1);
    }
  }

  /** A refused write could not have been carried out: every word reads back at least half a step
      away from the value. */
  lemma RefusedIsOutOfReach(signed: bool, s: Scaling, value: real, w: Word)
    requires s.scale != 0.0 && Encode(SingleWord(signed), s, value) == None
    ensures Abs(Decode(signed, s, w) - value) >= Steps(0.5, s)
  {
    hide Steps, Decode, Exact, Round, Encode;
    var x := Exact(s, value);
    Distance(signed, s, value, w);
    AcceptedIff(SingleWord(signed), s, value);
    assert Abs(Raw(signed, w) as real - x) >= 0.5;
    Monotone(0.5, Abs(Raw(signed, w) as real - x), s);
  }

  lemma DivideBack(r: real, c: real)
    requires c != 0.0
    ensures r * c / c == r
  {
  }

  lemma ExactOfRead(signed: bool, s: Scaling, w: Word)
    requires s.scale != 0.0
    ensures Exact(s, Decode(signed, s, w)) == Raw(signed, w) as real
  {
    var r := Raw(signed, w) as real;
    assert Decode(signed, s, w) - s.offset == r * s.scale;
    DivideBack(r, s.scale);
  }

  /** Writing back what a register reads leaves the register as it was. */
  lemma WriteOfReadIsIdentity(signed: bool, s: Scaling, w: Word)
    requires s.scale != 0.0
    ensures Encode(SingleWord(signed), s, Decode(signed, s, w)) == Some(w)
  {
    ExactOfRead(signed, s, w);
    hide Exact, Decode, Round;
    RoundOfInteger(Raw(signed, w));
  }
}
