/**
 The two event-record grammars of Fast Modbus (`_parse_event_records`,
 `_parse_events_wb`, `_parse_events_legacy` of bridge_fmb.py). One wire carries both;
 the parser picks by the generation cached for the slave, except that a frame which
 reads as WB and carries a reboot is WB. The claim that this never misreads a genuine
 frame is settled here: every WB frame is read back under any cache, and a nonempty
 legacy frame is read back under a cache exactly when the WB grammar rejects it.
 */
module EventWire {
  import opened Base

  datatype Kind = Coil | Discrete | Holding | Input | Reboot

  /** One decoded record; a reboot carries the value -1. */
  datatype Event = Event(kind: Kind, reg: int, val: int)

  predicate Valid(e: Event) {
    && 0 <= e.reg < 0x10000
    && match e.kind
       case Coil => 0 <= e.val < 256
       case Discrete => 0 <= e.val < 256
       case Holding => 0 <= e.val < 0x10000
       case Input => 0 <= e.val < 0x10000
       case Reboot => e.val == -1
  }

  predicate AllValid(es: seq<Event>) {
    forall k :: 0 <= k < |es| ==> Valid(es[k])
  }

  predicate HasReboot(es: seq<Event>) {
    exists k :: 0 <= k < |es| && es[k].kind == Reboot
  }

  function PayloadLen(k: Kind): (n: nat)
    ensures n <= 2
  {
    match k
    case Coil => 1
    case Discrete => 1
    case Holding => 2
    case Input => 2
    case Reboot => 0
  }

  /** The internal code, which is also the legacy type byte. */
  function Code(k: Kind): byte {
    match k
    case Coil => 0
    case Discrete => 1
    case Holding => 2
    case Input => 3
    case Reboot => 0x0F
  }

  /** The WB wire code. */
  function Wire(k: Kind): byte {
    match k
    case Coil => 1
    case Discrete => 2
    case Holding => 3
    case Input => 4
    case Reboot => 0x0F
  }

  function KindOfCode(b: byte): Option<Kind> {
    if b == 0 then Some(Coil) else if b == 1 then Some(Discrete) else if b == 2 then Some(Holding)
    else if b == 3 then Some(Input) else if b == 0x0F then Some(Reboot) else None
  }

  function KindOfWire(b: byte): Option<Kind> {
    if b == 1 then Some(Coil) else if b == 2 then Some(Discrete) else if b == 3 then Some(Holding)
    else if b == 4 then Some(Input) else if b == 0x0F then Some(Reboot) else None
  }

  // ------------------------------------------------------------------------- encoding

  /** [LEN][TYPE wire][ID_H][ID_L][value, little-endian] */
  function WbRecord(e: Event): (r: seq<byte>)
    requires Valid(e)
    ensures |r| == 4 + PayloadLen(e.kind)
  {
    [PayloadLen(e.kind), Wire(e.kind), e.reg / 256, e.reg % 256] +
    match PayloadLen(e.kind)
    case 0 => []
    case 1 => [e.val]
    case _ => [e.val % 256, e.val / 256]
  }

  /** [TYPE int][REG_H][REG_L][value, big-endian] */
  function LegacyRecord(e: Event): (r: seq<byte>)
    requires Valid(e)
    ensures |r| == 3 + PayloadLen(e.kind)
  {
    [Code(e.kind), e.reg / 256, e.reg % 256] +
    match PayloadLen(e.kind)
    case 0 => []
    case 1 => [e.val]
    case _ => [e.val / 256, e.val % 256]
  }

  function WbFrame(es: seq<Event>): seq<byte>
    requires AllValid(es)
  {
    if es == [] then [] else WbRecord(es[0]) + WbFrame(es[1..])
  }

  function LegacyFrame(es: seq<Event>): seq<byte>
    requires AllValid(es)
  {
    if es == [] then [] else LegacyRecord(es[0]) + LegacyFrame(es[1..])
  }

  // ------------------------------------------------------------------------- decoding

  /** The first WB record of `d`, if there is one. */
  function WbFirst(d: seq<byte>): (r: Option<Event>)
    ensures r.Some? ==> Valid(r.value) && |d| >= 4 + PayloadLen(r.value.kind)
  {
    if |d| < 4 then None
    else
      var k := KindOfWire(d[1]);
      if k == None || d[0] != PayloadLen(k.value) || |d| < 4 + d[0] then None
      else
        var reg := Pair(d[2], d[3]);
        Some(Event(k.value, reg, if d[0] == 0 then -1 else if d[0] == 1 then d[4] else Pair(d[5], d[4])))
  }

  function LegacyFirst(d: seq<byte>): (r: Option<Event>)
    ensures r.Some? ==> Valid(r.value) && |d| >= 3 + PayloadLen(r.value.kind)
  {
    if |d| < 3 then None
    else
      var k := KindOfCode(d[0]);
      if k == None || |d| < 3 + PayloadLen(k.value) then None
      else
        var reg := Pair(d[1], d[2]);
        var plen := PayloadLen(k.value);
        Some(Event(k.value, reg, if plen == 0 then -1 else if plen == 1 then d[3] else Pair(d[3], d[4])))
  }

  function Prepend(es: seq<Event>, r: Option<seq<Event>>): Option<seq<Event>> {
    if r == None then None else Some(es + r.value)
  }

  /** `n` WB records filling `d` exactly. */
  function ParseWb(d: seq<byte>, n: nat): Option<seq<Event>>
    decreases n
  {
    if n == 0 then (if d == [] then Some([]) else None)
    else
      var e := WbFirst(d);
      if e == None then None else Prepend([e.value], ParseWb(d[4 + PayloadLen(e.value.kind)..], n - 1))
  }

  function ParseLegacy(d: seq<byte>, n: nat): Option<seq<Event>>
    decreases n
  {
    if n == 0 then (if d == [] then Some([]) else None)
    else
      var e := LegacyFirst(d);
      if e == None then None else Prepend([e.value], ParseLegacy(d[3 + PayloadLen(e.value.kind)..], n - 1))
  }

  /** The cached generation of a slave: unknown, or known to be WB or not. */
  type Generation = Option<bool>

  function Fill(cache: Generation, wb: bool): Generation {
    if cache == None then Some(wb) else cache
  }

  /** The decision: the reboot rule, then the attempt order of the cached generation. An
      unknown generation is filled in by what fitted, a known one never changes. */
  function Decode(d: seq<byte>, n: nat, cache: Generation): (Option<seq<Event>>, Generation) {
    var wb, legacy := ParseWb(d, n), ParseLegacy(d, n);
    var preferWb := cache != Some(false);
    if wb.Some? && (HasReboot(wb.value) || preferWb) then (wb, Fill(cache, true))
    else if legacy.Some? then (legacy, Fill(cache, false))
    else if wb.Some? then (wb, Fill(cache, true))
    else (None, cache)
  }

  // -------------------------------------------------------------------- the parsing loops

  lemma PrependTwice(a: seq<Event>, b: seq<Event>, r: Option<seq<Event>>)
    ensures Prepend(a, Prepend(b, r)) == Prepend(a + b, r)
  {
    if r.Some? {
      assert a + (b + r.value) == a + b + r.value;
    }
  }

  /** One turn of the WB loop, read off the buffer. */
  lemma WbTurn(buf: seq<byte>, pos: nat, end: nat, n: nat, events: seq<Event>)
    requires pos <= end <= |buf| && n > 0
    ensures var r := Prepend(events, ParseWb(buf[pos..end], n));
            if pos + 4 > end then r == None
            else
              var kind, plen := KindOfWire(buf[pos + 1]), buf[pos];
              if kind == None || plen != PayloadLen(kind.value) || pos + 4 + plen > end then r == None
              else
                var val :=
                  if plen == 0 then -1 else if plen == 1 then buf[pos + 4] else Pair(buf[pos + 5], buf[pos + 4]);
                var e := Event(kind.value, Pair(buf[pos + 2], buf[pos + 3]), val);
                r == Prepend(events + [e], ParseWb(buf[pos + 4 + plen..end], n - 1))
  {
    hide Pair, Valid;
    var d := buf[pos..end];
    var e := WbFirst(d);
    if e.Some? {
      var len := 4 + PayloadLen(e.value.kind);
      assert d[len..] == buf[pos + len..end];
      PrependTwice(events, [e.value], ParseWb(d[len..], n - 1));
    }
  }

  lemma WbLast(buf: seq<byte>, pos: nat, end: nat, events: seq<Event>)
    requires pos <= end <= |buf|
    ensures Prepend(events, ParseWb(buf[pos..end], 0)) == if pos == end then Some(events) else None
  {
    assert events + [] == events;
  }

  lemma PrependNothing(r: Option<seq<Event>>)
    ensures Prepend([], r) == r
  {
    if r.Some? {
      assert [] + r.value == r.value;
    }
  }

  method ParseEventsWb(buf: seq<byte>, start: nat, end: nat, n: nat) returns (r: Option<seq<Event>>)
    requires start <= end <= |buf|
    ensures r == ParseWb(buf[start..end], n)
  {
    hide ParseWb, Prepend, WbFirst;
    var events: seq<Event> := [];
    var pos := start;
    PrependNothing(ParseWb(buf[start..end], n));
    for i := 0 to n
      invariant start <= pos <= end
      invariant ParseWb(buf[start..end], n) == Prepend(events, ParseWb(buf[pos..end], n - i))
    {
      WbTurn(buf, pos, end, n - i, events);
      if pos + 4 > end {
        return None;
      }
      var plen, wire := buf[pos], buf[pos + 1];
      var kind := KindOfWire(wire);
      if kind == None || plen != PayloadLen(kind.value) {
        return None;
      }
      var reg := Pair(buf[pos + 2], buf[pos + 3]);
      if pos + 4 + plen > end {
        return None;
      }
      var val := if plen == 0 then -1 else if plen == 1 then buf[pos + 4] else Pair(buf[pos + 5], buf[pos + 4]);
      events := events + [Event(kind.value, reg, val)];
      pos := pos + 4 + plen;
    }
    WbLast(buf, pos, end, events);
    return if pos == end then Some(events) else None;
  }

  /** One turn of the legacy loop, read off the buffer. */
  lemma LegacyTurn(buf: seq<byte>, pos: nat, end: nat, n: nat, events: seq<Event>)
    requires pos <= end <= |buf| && n > 0
    ensures var r := Prepend(events, ParseLegacy(buf[pos..end], n));
            if pos + 3 > end then r == None
            else
              var kind := KindOfCode(buf[pos]);
              if kind == None || pos + 3 + PayloadLen(kind.value) > end then r == None
              else
                var plen := PayloadLen(kind.value);
                var val :=
                  if plen == 0 then -1 else if plen == 1 then buf[pos + 3] else Pair(buf[pos + 3], buf[pos + 4]);
                var e := Event(kind.value, Pair(buf[pos + 1], buf[pos + 2]), val);
                r == Prepend(events + [e], ParseLegacy(buf[pos + 3 + plen..end], n - 1))
  {
    hide Pair, Valid;
    var d := buf[pos..end];
    var e := LegacyFirst(d);
    if e.Some? {
      var len := 3 + PayloadLen(e.value.kind);
      assert d[len..] == buf[pos + len..end];
      PrependTwice(events, [e.value], ParseLegacy(d[len..], n - 1));
    }
  }

  lemma LegacyLast(buf: seq<byte>, pos: nat, end: nat, events: seq<Event>)
    requires pos <= end <= |buf|
    ensures Prepend(events, ParseLegacy(buf[pos..end], 0)) == if pos == end then Some(events) else None
  {
    assert events + [] == events;
  }

  method ParseEventsLegacy(buf: seq<byte>, start: nat, end: nat, n: nat) returns (r: Option<seq<Event>>)
    requires start <= end <= |buf|
    ensures r == ParseLegacy(buf[start..end], n)
  {
    hide ParseLegacy, Prepend, LegacyFirst;
    var events: seq<Event> := [];
    var pos := start;
    PrependNothing(ParseLegacy(buf[start..end], n));
    for i := 0 to n
      invariant start <= pos <= end
      invariant ParseLegacy(buf[start..end], n) == Prepend(events, ParseLegacy(buf[pos..end], n - i))
    {
      LegacyTurn(buf, pos, end, n - i, events);
      if pos + 3 > end {
        return None;
      }
      var kind := KindOfCode(buf[pos]);
      if kind == None {
        return None;
      }
      var plen := PayloadLen(kind.value);
      var reg := Pair(buf[pos + 1], buf[pos + 2]);
      if pos + 3 + plen > end {
        return None;
      }
      var val := if plen == 0 then -1 else if plen == 1 then buf[pos + 3] else Pair(buf[pos + 3], buf[pos + 4]);
      events := events + [Event(kind.value, reg, val)];
      pos := pos + 3 + plen;
    }
    LegacyLast(buf, pos, end, events);
    return if pos == end then Some(events) else None;
  }

  /** The manager's cache of generations, by slave address. */
  class EventParser {
    var wbFrameSlaves: map<int, bool>

    constructor ()
      ensures wbFrameSlaves == map[]
    {
      wbFrameSlaves := map[];
    }

    ghost function Cached(slave: int): Generation
      reads this
    {
      if slave in wbFrameSlaves then Some(wbFrameSlaves[slave]) else None
    }

    method SetDefault(slave: int, wb: bool)
      modifies this
      ensures Cached(slave) == Fill(old(Cached(slave)), wb)
      ensures forall x :: x != slave ==> Cached(x) == old(Cached(x))
    {
      if slave !in wbFrameSlaves {
        wbFrameSlaves := wbFrameSlaves[slave := wb];
      }
    }

    method ParseEventRecords(slave: int, buf: seq<byte>, start: nat, end: nat, n: nat) returns (r: Option<seq<Event>>)
      requires start <= end <= |buf|
      modifies this
      ensures (r, Cached(slave)) == Decode(buf[start..end], n, old(Cached(slave)))
      ensures forall x :: x != slave ==> Cached(x) == old(Cached(x))
    {
      var wb := ParseEventsWb(buf, start, end, n);
      if wb.Some? && HasReboot(wb.value) {
        SetDefault(slave, true);
        return wb;
      }
      var preferWb := if slave in wbFrameSlaves then wbFrameSlaves[slave] else true;
      if preferWb && wb.Some? {
        SetDefault(slave, true);
        return wb;
      }
      var legacy := ParseEventsLegacy(buf, start, end, n);
      if legacy.Some? {
        SetDefault(slave, false);
        return legacy;
      }
      if wb.Some? {
        SetDefault(slave, true);
        return wb;
      }
      return None;
    }
  }

  // ----------------------------------------------------------------- each grammar alone

  lemma WbFirstInverts(e: Event, rest: seq<byte>)
    requires Valid(e)
    ensures WbFirst(WbRecord(e) + rest) == Some(e)
    ensures (WbRecord(e) + rest)[4 + PayloadLen(e.kind)..] == rest
  {
  }

  lemma LegacyFirstInverts(e: Event, rest: seq<byte>)
    requires Valid(e)
    ensures LegacyFirst(LegacyRecord(e) + rest) == Some(e)
    ensures (LegacyRecord(e) + rest)[3 + PayloadLen(e.kind)..] == rest
  {
  }

  lemma {:induction false} WbInverts(es: seq<Event>)
    requires AllValid(es)
    ensures ParseWb(WbFrame(es), |es|) == Some(es)
  {
    if es != [] {
      WbFirstInverts(es[0], WbFrame(es[1..]));
      WbInverts(es[1..]);
      assert es == [es[0]] + es[1..];
    }
  }

  lemma {:induction false} LegacyInverts(es: seq<Event>)
    requires AllValid(es)
    ensures ParseLegacy(LegacyFrame(es), |es|) == Some(es)
  {
    if es != [] {
      LegacyFirstInverts(es[0], LegacyFrame(es[1..]));
      LegacyInverts(es[1..]);
      assert es == [es[0]] + es[1..];
    }
  }

  lemma WbFirstOnly(d: seq<byte>)
    requires WbFirst(d).Some?
    ensures var e := WbFirst(d).value; d == WbRecord(e) + d[4 + PayloadLen(e.kind)..]
  {
    var e := WbFirst(d).value;
    assert d[..4 + PayloadLen(e.kind)] == WbRecord(e);
  }

  /** The WB parser accepts nothing but the frame of the events it returns. */
  lemma {:induction false} WbOnly(d: seq<byte>, n: nat)
    requires ParseWb(d, n).Some?
    ensures var es := ParseWb(d, n).value; |es| == n && AllValid(es) && d == WbFrame(es)
    decreases n
  {
    if n > 0 {
      var e := WbFirst(d).value;
      var rest := d[4 + PayloadLen(e.kind)..];
      WbFirstOnly(d);
      WbOnly(rest, n - 1);
      var es := ParseWb(d, n).value;
      assert es[1..] == ParseWb(rest, n - 1).value;
    }
  }

  // -------------------------------------------------------------------- lengths decide

  lemma {:induction false} FrameLengths(es: seq<Event>)
    requires AllValid(es)
    ensures |WbFrame(es)| == |LegacyFrame(es)| + |es|
    ensures !HasReboot(es) ==> |WbFrame(es)| >= 5 * |es|
    ensures es != [] && !HasReboot(es) && PayloadLen(es[0].kind) == 2 ==> |WbFrame(es)| >= 5 * |es| + 1
  {
    if es != [] {
      FrameLengths(es[1..]);
      if !HasReboot(es) {
        assert es[0].kind != Reboot;
        assert forall k :: 0 <= k < |es[1..]| ==> es[1..][k] == es[k + 1];
      }
    }
  }

  /** `n` legacy records take at most five bytes each, and fewer if the first byte is no
      two-byte type. */
  lemma {:induction false} LegacyIsShort(d: seq<byte>, n: nat)
    requires ParseLegacy(d, n).Some?
    ensures |d| <= 5 * n
    ensures n > 0 ==> d != [] && (d[0] != 2 && d[0] != 3 ==> |d| < 5 * n)
    decreases n
  {
    if n > 0 {
      LegacyIsShort(d[3 + PayloadLen(LegacyFirst(d).value.kind)..], n - 1);
    }
  }

  /** A nonempty WB frame without a reboot is never a legacy frame: it is too long. */
  lemma WbNeverLegacy(es: seq<Event>)
    requires AllValid(es) && es != [] && !HasReboot(es)
    ensures ParseLegacy(WbFrame(es), |es|) == None
  {
    var d := WbFrame(es);
    FrameLengths(es);
    assert es[0].kind != Reboot;
    assert d[0] == PayloadLen(es[0].kind);
    if ParseLegacy(d, |es|).Some? {
      LegacyIsShort(d, |es|);
    }
  }

  // --------------------------------------------------------------- the decision is right

  /** Every WB frame is read back, whatever generation is cached for the slave. */
  lemma WbReadBackUnderAnyCache(es: seq<Event>, cache: Generation)
    requires AllValid(es)
    ensures Decode(WbFrame(es), |es|, cache).0 == Some(es)
  {
    WbInverts(es);
    if es != [] && !HasReboot(es) {
      WbNeverLegacy(es);
    }
  }

  /** A nonempty legacy frame is read back under a cached generation, any of them, exactly
      when the WB grammar rejects it. */
  lemma LegacyReadBackIff(es: seq<Event>, cache: Generation)
    requires AllValid(es) && es != []
    ensures Decode(LegacyFrame(es), |es|, cache).0 == Some(es) <==> ParseWb(LegacyFrame(es), |es|) == None
  {
    var d := LegacyFrame(es);
    LegacyInverts(es);
    if ParseWb(d, |es|).Some? {
      WbOnly(d, |es|);
      var w := ParseWb(d, |es|).value;
      if !HasReboot(w) {
        WbNeverLegacy(w);
      }
      FrameLengths(es);
      assert w != es;
    }
  }

  /** The pairs of type and register high byte that look like the head of a WB record. */
  predicate PassesGate(e: Event) {
    var hi := e.reg / 256;
    || (e.kind == Coil && hi == 0x0F)
    || (e.kind == Discrete && (hi == 1 || hi == 2))
    || (e.kind == Holding && (hi == 3 || hi == 4))
  }

  lemma GateRejects(e: Event, rest: seq<byte>)
    requires Valid(e)
    ensures !PassesGate(e) ==> WbFirst(LegacyRecord(e) + rest) == None
  {
    var d := LegacyRecord(e) + rest;
    if |d| >= 4 {
      assert d[0] == Code(e.kind) && d[1] == e.reg / 256;
    }
  }

  /** Register below the per-type limit: COIL 0x0F00, DISCRETE 0x0100, HOLDING 0x0300, none
      for INPUT; a reboot may name any register. */
  predicate BelowLimit(e: Event) {
    match e.kind
    case Coil => e.reg < 0x0F00
    case Discrete => e.reg < 0x0100
    case Holding => e.reg < 0x0300
    case Input => true
    case Reboot => true
  }

  lemma LegacyBelowLimitRejected(es: seq<Event>)
    requires AllValid(es) && es != [] && BelowLimit(es[0])
    ensures ParseWb(LegacyFrame(es), |es|) == None
  {
    hide WbFirst, LegacyRecord;
    GateRejects(es[0], LegacyFrame(es[1..]));
  }

  /** A legacy frame whose first record is below its limit is read back under any cache,
      however many records follow and whatever they are. */
  lemma LegacyBelowLimitReadBack(es: seq<Event>, cache: Generation)
    requires AllValid(es) && es != [] && BelowLimit(es[0])
    ensures Decode(LegacyFrame(es), |es|, cache).0 == Some(es)
  {
    LegacyBelowLimitRejected(es);
    hide Decode, ParseWb, LegacyFrame;
    LegacyReadBackIff(es, cache);
  }

  /** The limit is tight where the gate lets a whole frame through: a single legacy COIL
      record at 0x0F00..0x0FFF reads as a WB reboot under every cache, and it is the only
      single record that is misread. */
  lemma SingleRecordReadBackIff(e: Event, cache: Generation)
    requires Valid(e)
    ensures Decode(LegacyFrame([e]), 1, cache).0 == Some([e]) <==> !(e.kind == Coil && e.reg / 256 == 0x0F)
  {
    var d := LegacyRecord(e);
    assert [e][1..] == [] && d + LegacyFrame([]) == d;
    assert LegacyFrame([e]) == d;
    LegacyReadBackIff([e], cache);
    if !PassesGate(e) {
      GateRejects(e, []);
      assert d + [] == d;
    } else if e.kind == Coil {
      assert WbFirst(d) == Some(Event(Reboot, Pair(d[2], d[3]), -1));
      assert d[4..] == [];
      assert ParseWb(d[4..], 0) == Some([]);
    }
  }

  // ------------------------------------------------------------------- a slave over time

  function FrameOf(es: seq<Event>, wb: bool): seq<byte>
    requires AllValid(es)
  {
    if wb then WbFrame(es) else LegacyFrame(es)
  }

  /** What a slave of this generation may send: anything on the WB wire; on the legacy wire a frame
      that starts with a record below its limit. */
  predicate Sendable(es: seq<Event>, wb: bool) {
    AllValid(es) && (wb || (es != [] && BelowLimit(es[0])))
  }

  predicate AllSendable(frames: seq<seq<Event>>, wb: bool) {
    forall k :: 0 <= k < |frames| ==> Sendable(frames[k], wb)
  }

  /** The cache after a slave's frames, one after another. */
  function Learn(frames: seq<seq<Event>>, wb: bool, cache: Generation): Generation
    requires AllSendable(frames, wb)
  {
    if frames == [] then cache else
      var last := frames[|frames| - 1];
      Decode(FrameOf(last, wb), |last|, Learn(frames[..|frames| - 1], wb, cache)).1
  }

  lemma FrameIsReadBack(es: seq<Event>, wb: bool, cache: Generation)
    requires Sendable(es, wb)
    ensures Decode(FrameOf(es, wb), |es|, cache) == (Some(es), if cache.Some? then cache else Some(wb))
  {
    hide WbFrame, LegacyFrame, ParseWb, ParseLegacy;
    if wb {
      WbInverts(es);
      WbReadBackUnderAnyCache(es, cache);
    } else {
      LegacyBelowLimitRejected(es);
      LegacyInverts(es);
    }
  }

  /** Over any number of frames each one is read back; what is known of the slave beforehand is never
      overwritten, right or wrong, and an unknown slave is learned for what it is. */
  lemma {:induction false} SlaveIsReadBack(frames: seq<seq<Event>>, wb: bool, cache: Generation)
    requires AllSendable(frames, wb)
    ensures Learn(frames, wb, cache) == if frames == [] || cache.Some? then cache else Some(wb)
    ensures forall k :: 0 <= k < |frames| ==>
      Decode(FrameOf(frames[k], wb), |frames[k]|, Learn(frames[..k], wb, cache)).0 == Some(frames[k])
  {
    hide Decode, FrameOf;
    if frames != [] {
      var front, last := frames[..|frames| - 1], frames[|frames| - 1];
      SlaveIsReadBack(front, wb, cache);
      FrameIsReadBack(last, wb, Learn(front, wb, cache));
      forall k | 0 <= k < |frames|
        ensures Decode(FrameOf(frames[k], wb), |frames[k]|, Learn(frames[..k], wb, cache)).0 == Some(frames[k])
      {
        if k < |front| {
          assert frames[..k] == front[..k] && frames[k] == front[k];
        }
      }
    }
  }
}
