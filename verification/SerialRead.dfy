/**
 Reading registers and bits over the serial port (`words_from_response`,
 `bits_from_response`, `fifo_safe_read_regs`, `ModbusSerial._read_words` of
 bridge_serial.py): the payload decoders invert the device's encoding, and a register
 read that the port cuts into pieces returns what one long read would have returned.
 */
module SerialRead {
  import opened Base
  import ReadPlan

  /** A 16-bit register. */
  type word = w: int | 0 <= w < 0x10000

  // ------------------------------------------------------------------- payload decoding

  /** What the device puts on the wire for a run of registers, high byte first. */
  function WordBytes(words: seq<word>): (r: seq<byte>)
    ensures |r| == 2 * |words|
  {
    if words == [] then [] else [words[0] / 256, words[0] % 256] + WordBytes(words[1..])
  }

  function WordsFromResponse(resp: seq<byte>, count: nat): (r: seq<int>)
    requires |resp| >= 3 + 2 * count
    ensures |r| == count
    ensures forall i :: 0 <= i < count ==> r[i] == Pair(resp[3 + 2 * i], resp[4 + 2 * i])
  {
    seq(count, i requires 0 <= i < count => Pair(resp[3 + 2 * i], resp[4 + 2 * i]))
  }

  lemma {:induction false} WordBytesAt(words: seq<word>, i: nat)
    requires i < |words|
    ensures WordBytes(words)[2 * i] == words[i] / 256 && WordBytes(words)[2 * i + 1] == words[i] % 256
  {
    if i > 0 {
      WordBytesAt(words[1..], i - 1);
      assert WordBytes(words)[2 * i] == WordBytes(words[1..])[2 * (i - 1)];
      assert WordBytes(words)[2 * i + 1] == WordBytes(words[1..])[2 * (i - 1) + 1];
    }
  }

  lemma ReplyAt(head: seq<byte>, body: seq<byte>, crc: seq<byte>, k: nat)
    requires |head| == 3 && k < |body|
    ensures (head + body + crc)[3 + k] == body[k]
  {
  }

  lemma WordInReply(head: seq<byte>, words: seq<word>, crc: seq<byte>, i: nat)
    requires |head| == 3 && i < |words|
    ensures var resp := head + WordBytes(words) + crc;
            |resp| >= 5 + 2 * i && Pair(resp[3 + 2 * i], resp[4 + 2 * i]) == words[i]
  {
    var body := WordBytes(words);
    WordBytesAt(words, i);
    hide WordBytes;
    ReplyAt(head, body, crc, 2 * i);
    ReplyAt(head, body, crc, 2 * i + 1);
  }

  /** FC03/FC04: decoding a reply returns the registers it was made from, whatever follows. */
  lemma WordsRoundTrip(head: seq<byte>, words: seq<word>, crc: seq<byte>)
    requires |head| == 3
    ensures |head + WordBytes(words) + crc| >= 3 + 2 * |words|
    ensures WordsFromResponse(head + WordBytes(words) + crc, |words|) == words
  {
    var resp := head + WordBytes(words) + crc;
    forall i | 0 <= i < |words| ensures Pair(resp[3 + 2 * i], resp[4 + 2 * i]) == words[i] {
      WordInReply(head, words, crc, i);
    }
    hide WordBytes, Pair;
  }

  function Pow2(n: nat): (p: nat)
    ensures p > 0
  {
    if n == 0 then 1 else 2 * Pow2(n - 1)
  }

  /** A byte from at most eight bits, the first one lowest. */
  function PackBits(bits: seq<bool>): (r: nat)
    ensures r < Pow2(|bits|)
  {
    if bits == [] then 0 else (if bits[0] then 1 else 0) + 2 * PackBits(bits[1..])
  }

  /** `(b >> k) & 1` */
  function BitOf(b: nat, k: nat): int {
    if k == 0 then b % 2 else BitOf(b / 2, k - 1)
  }

  lemma {:induction false} PackedBit(bits: seq<bool>, k: nat)
    requires k < |bits|
    ensures BitOf(PackBits(bits), k) == if bits[k] then 1 else 0
  {
    if k > 0 {
      PackedBit(bits[1..], k - 1);
    }
  }

  lemma {:induction false} Pow2Grows(a: nat, b: nat)
    requires a <= b
    ensures Pow2(a) <= Pow2(b)
  {
    if a < b {
      Pow2Grows(a, b - 1);
    }
  }

  lemma ByteOfBits(bits: seq<bool>)
    requires |bits| <= 8
    ensures PackBits(bits) < 256
  {
    Pow2Grows(|bits|, 8);
    assert Pow2(8) == 256;
  }

  /** The device's bit payload: eight bits a byte, the last byte padded with zeroes. */
  function BitBytes(bits: seq<bool>): (r: seq<byte>)
    ensures |r| == (|bits| + 7) / 8
  {
    if bits == [] then []
    else
      var n := Min(8, |bits|);
      ByteOfBits(bits[..n]);
      [PackBits(bits[..n])] + BitBytes(bits[n..])
  }

  function BitsFromResponse(resp: seq<byte>, count: nat): (r: seq<int>)
    requires |resp| >= 3 + (count + 7) / 8
    ensures |r| == count
  {
    seq(count, i requires 0 <= i < count => BitOf(resp[3 + i / 8], i % 8))
  }

  lemma {:induction false} BitBytesAt(bits: seq<bool>, i: nat)
    requires i < |bits|
    ensures i / 8 < |BitBytes(bits)| && BitOf(BitBytes(bits)[i / 8], i % 8) == if bits[i] then 1 else 0
  {
    var n := Min(8, |bits|);
    ByteOfBits(bits[..n]);
    if i < 8 {
      PackedBit(bits[..n], i);
    } else {
      BitBytesAt(bits[8..], i - 8);
      assert BitBytes(bits)[i / 8] == BitBytes(bits[8..])[i / 8 - 1] && bits[8..][i - 8] == bits[i];
      assert (i - 8) / 8 == i / 8 - 1 && (i - 8) % 8 == i % 8;
    }
  }

  lemma BitInReply(head: seq<byte>, bits: seq<bool>, crc: seq<byte>, i: nat)
    requires |head| == 3 && i < |bits|
    ensures var resp := head + BitBytes(bits) + crc;
            |resp| > 3 + i / 8 && BitOf(resp[3 + i / 8], i % 8) == if bits[i] then 1 else 0
  {
    BitBytesAt(bits, i);
    hide BitBytes, BitOf;
    ReplyAt(head, BitBytes(bits), crc, i / 8);
  }

  /** FC01/FC02: decoding a reply returns the bits it was made from. */
  lemma BitsRoundTrip(head: seq<byte>, bits: seq<bool>, crc: seq<byte>)
    requires |head| == 3
    ensures |head + BitBytes(bits) + crc| >= 3 + (|bits| + 7) / 8
    ensures var r := BitsFromResponse(head + BitBytes(bits) + crc, |bits|);
            forall i :: 0 <= i < |bits| ==> r[i] == if bits[i] then 1 else 0
  {
    var r := BitsFromResponse(head + BitBytes(bits) + crc, |bits|);
    forall i | 0 <= i < |bits| ensures r[i] == if bits[i] then 1 else 0 {
      BitInReply(head, bits, crc, i);
    }
  }

  // ------------------------------------------------------------------- the host FIFO cap

  const UART_RX_FIFO_BYTES := 64
  const UART_RX_SAFE_BYTES := UART_RX_FIFO_BYTES - 8
  const UART_FIFO_GUARD_MIN_BAUD := 57600
  const MODBUS_MAX_READ_REGS := 125

  /** Registers per read; `uart`: the port is, or may turn out to be, a built-in UART. */
  function FifoSafeReadRegs(baudrate: int, uart: bool): (n: int)
    ensures 2 <= n <= MODBUS_MAX_READ_REGS
    ensures baudrate >= UART_FIFO_GUARD_MIN_BAUD && uart ==> n % 2 == 0 && 5 + 2 * n + 8 <= UART_RX_FIFO_BYTES
    ensures baudrate < UART_FIFO_GUARD_MIN_BAUD || !uart ==> n == MODBUS_MAX_READ_REGS
  {
    if baudrate < UART_FIFO_GUARD_MIN_BAUD || !uart then MODBUS_MAX_READ_REGS
    else
      var n := (UART_RX_SAFE_BYTES - 5) / 2;
      n - n % 2
  }

  // --------------------------------------------------------------------- chunked reading

  /** The line during one call: which of its transactions are answered, and what the
      registers hold (the port lock is held throughout, so nobody writes in between). */
  datatype Line = Line(answers: (nat, int, int) -> bool, memory: int -> int)

  function Registers(line: Line, start: int, count: nat): (r: seq<int>)
    ensures |r| == count
  {
    seq(count, i requires 0 <= i < count => line.memory(start + i))
  }

  /** The k-th piece of a read of `count` registers in steps of `step`. */
  function PieceStart(start: int, step: nat, k: nat): int {
    start + k * step
  }

  function PieceSize(count: int, step: nat, k: nat): int {
    Min(step, count - k * step)
  }

  ghost predicate PieceAnswered(line: Line, start: int, count: nat, step: nat, k: nat) {
    line.answers(k, PieceStart(start, step, k), PieceSize(count, step, k))
  }

  lemma MoreSteps(k: nat, step: nat)
    ensures (k + 1) * step == k * step + step
  {
  }

  lemma StepsOrdered(k: nat, m: nat, step: nat)
    requires k <= m
    ensures k * step <= m * step
  {
  }

  lemma AppendPiece(line: Line, start: int, words: seq<int>, n: nat)
    requires words == Registers(line, start, |words|)
    ensures words + Registers(line, start + |words|, n) == Registers(line, start, |words| + n)
  {
  }

  /** The read in consecutive pieces of at most `max(1, maxRegs)` registers. It succeeds
      exactly when every piece is answered, and then returns what one read would have. */
  method ReadWords(line: Line, start: int, count: nat, maxRegs: int) returns (r: Option<seq<int>>)
    ensures var step := Max(1, maxRegs);
            r.Some? <==> PieceAnswered(line, start, count, step, 0)
                         && forall k: nat :: k * step < count ==> PieceAnswered(line, start, count, step, k)
    ensures r.Some? ==> r.value == Registers(line, start, count)
  {
    var step := Max(1, maxRegs);
    if count <= step {
      forall k: nat | k * step < count ensures k == 0 {
        if k > 0 {
          StepsOrdered(1, k, step);
        }
      }
      assert PieceStart(start, step, 0) == start && PieceSize(count, step, 0) == count;
      return if line.answers(0, start, count) then Some(Registers(line, start, count)) else None;
    }
    var words: seq<int> := [];
    var k := 0;
    while |words| < count
      invariant |words| == Min(k * step, count)
      invariant words == Registers(line, start, |words|)
      invariant forall m: nat :: m < k && m * step < count ==> PieceAnswered(line, start, count, step, m)
      decreases count - |words|
    {
      var n := Min(step, count - |words|);
      if !line.answers(k, start + |words|, n) {
        assert !PieceAnswered(line, start, count, step, k);
        return None;
      }
      AppendPiece(line, start, words, n);
      words := words + Registers(line, start + |words|, n);
      MoreSteps(k, step);
      k := k + 1;
    }
    forall m: nat | m * step < count ensures PieceAnswered(line, start, count, step, m) {
      if m >= k {
        StepsOrdered(k, m, step);
      }
    }
    assert 0 * step < count;
    r := Some(words);
  }

  lemma CutsDoNotShow(line: Line, start: int, count: nat, off: nat, n: nat)
    requires off + n <= count
    ensures Registers(line, start, count)[off..off + n] == Registers(line, start + off, n)
  {
  }

  /** A block of a template over a serial port that cuts reads again: however the port cuts it,
      each channel's slice is what the channel read alone would return. */
  method ReadBlock(line: Line, tpl: seq<ReadPlan.Channel>, u: ReadPlan.ReadUnit, maxRegs: int)
    returns (values: Option<seq<seq<int>>>)
    requires ReadPlan.WellFormed(tpl, u)
    ensures values.Some? <==> forall k: nat :: k == 0 || k * Max(1, maxRegs) < u.count ==>
      PieceAnswered(line, u.start, u.count, Max(1, maxRegs), k)
    ensures values.Some? ==> |values.value| == |u.channels| && forall k :: 0 <= k < |u.channels| ==>
      values.value[k] == Registers(line, tpl[u.channels[k]].address, tpl[u.channels[k]].Words())
  {
    var words := ReadWords(line, u.start, u.count, maxRegs);
    if words == None {
      return None;
    }
    var slices: seq<seq<int>> := [];
    while |slices| < |u.channels|
      invariant |slices| <= |u.channels|
      invariant forall k :: 0 <= k < |slices| ==>
        slices[k] == Registers(line, tpl[u.channels[k]].address, tpl[u.channels[k]].Words())
    {
      var ch := tpl[u.channels[|slices|]];
      var off := ch.address - u.start;
      CutsDoNotShow(line, u.start, u.count, off, ch.Words());
      slices := slices + [words.value[off..off + ch.Words()]];
    }
    values := Some(slices);
  }
}
