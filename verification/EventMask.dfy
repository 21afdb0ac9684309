/**
 Confirming a configure_events request (`fmb_configure_reply_mask`, `fmb_expected_mask`,
 `fmb_configure_reply_confirms` of bridge_fmb.py): the reply carries one bit per requested
 register, each range starting on a byte. The check is exact on the registers and blind to
 the padding, and bus noise in front of a good reply does not hide it.
 */
module EventMask {
  import opened Base
  import opened Crc16

  // ----------------------------------------------------------------- finding the reply

  /** A CRC-valid reply [addr][0x46][0x18][LEN][mask][CRC] starts at `i`. */
  predicate ReplyAt(resp: seq<bv8>, addr: bv8, i: nat) {
    && i + 4 <= |resp|
    && resp[i] == addr && resp[i + 1] == 0x46 && resp[i + 2] == 0x18
    && i + 6 + (resp[i + 3] as int) <= |resp|
    && Accepts(resp[i..i + 6 + (resp[i + 3] as int)])
  }

  function MaskAt(resp: seq<bv8>, i: nat): seq<bv8>
    requires i + 4 <= |resp| && i + 4 + (resp[i + 3] as int) <= |resp|
  {
    resp[i + 4..i + 4 + (resp[i + 3] as int)]
  }

  /** `r` is the mask of the first CRC-valid reply in `resp`, or None if there is none. */
  ghost predicate IsFirstMask(resp: seq<bv8>, addr: bv8, r: Option<seq<bv8>>) {
    if r == None then forall i :: 0 <= i < |resp| ==> !ReplyAt(resp, addr, i)
    else exists i :: 0 <= i < |resp| && ReplyAt(resp, addr, i) && r.value == MaskAt(resp, i)
                     && forall j :: 0 <= j < i ==> !ReplyAt(resp, addr, j)
  }

  lemma TrailerCheck(resp: seq<bv8>, i: nat, end: nat)
    requires i <= end && end + 2 <= |resp|
    ensures Accepts(resp[i..end + 2]) <==> Crc(resp[i..end]) == Word(resp[end], resp[end + 1])
  {
    var frame := resp[i..end + 2];
    assert frame == resp[i..end] + [resp[end], resp[end + 1]];
    AcceptsParts(resp[i..end], resp[end], resp[end + 1]);
  }

  method ReplyMask(resp: seq<bv8>, addr: bv8) returns (r: Option<seq<bv8>>)
    ensures IsFirstMask(resp, addr, r)
  {
    for i := 0 to |resp|
      invariant forall j :: 0 <= j < i ==> !ReplyAt(resp, addr, j)
    {
      if !(resp[i] == addr && i + 3 <= |resp| && resp[i + 1] == 0x46 && resp[i + 2] == 0x18) {
        continue;
      }
      if i + 4 > |resp| {
        return None;
      }
      var end := i + 4 + (resp[i + 3] as int);
      if end + 2 > |resp| {
        continue;
      }
      var crc := ComputeCrc(resp[i..end]);
      TrailerCheck(resp, i, end);
      if crc == Word(resp[end], resp[end + 1]) {
        assert ReplyAt(resp, addr, i) && MaskAt(resp, i) == resp[i + 4..end];
        return Some(resp[i + 4..end]);
      }
    }
    return None;
  }

  /** The first mask is determined by the bytes. */
  lemma FirstMaskUnique(resp: seq<bv8>, addr: bv8, r: Option<seq<bv8>>, q: Option<seq<bv8>>)
    requires IsFirstMask(resp, addr, r) && IsFirstMask(resp, addr, q)
    ensures r == q
  {
    if r.Some? && q.Some? {
      var i :| 0 <= i < |resp| && ReplyAt(resp, addr, i) && r.value == MaskAt(resp, i)
               && forall j :: 0 <= j < i ==> !ReplyAt(resp, addr, j);
      var k :| 0 <= k < |resp| && ReplyAt(resp, addr, k) && q.value == MaskAt(resp, k)
               && forall j :: 0 <= j < k ==> !ReplyAt(resp, addr, j);
      assert i == k;
    }
  }

  lemma SliceOfSlice(s: seq<bv8>, a: nat, b: nat, i: nat, j: nat)
    requires a <= b <= |s| && i <= j <= b - a
    ensures s[a..b][i..j] == s[a + i..a + j]
  {
    var inner, outer := s[a..b][i..j], s[a + i..a + j];
    assert |inner| == |outer|;
    forall k | 0 <= k < |inner| ensures inner[k] == outer[k] {
      assert inner[k] == s[a..b][i + k] == s[a + (i + k)];
    }
  }

  /** A reply is one wherever its bytes stand. */
  lemma ReplyAnywhere(resp: seq<bv8>, n: nat, reply: seq<bv8>, addr: bv8)
    requires ReplyAt(reply, addr, 0) && |reply| == 6 + (reply[3] as int)
    requires n + |reply| <= |resp| && resp[n..n + |reply|] == reply
    ensures ReplyAt(resp, addr, n) && MaskAt(resp, n) == MaskAt(reply, 0)
  {
    hide Accepts;
    var at := resp[n..n + |reply|];
    assert at[0] == resp[n] && at[1] == resp[n + 1] && at[2] == resp[n + 2] && at[3] == resp[n + 3];
    assert reply[0..|reply|] == reply;
    SliceOfSlice(resp, n, n + |reply|, 4, |reply| - 2);
  }

  /** Bytes other than the slave's address in front of a good reply are skipped: the mask
      found is the reply's, whatever follows it. */
  lemma NoiseNeverHidesReply(noise: seq<bv8>, reply: seq<bv8>, rest: seq<bv8>, addr: bv8, r: Option<seq<bv8>>)
    requires forall k :: 0 <= k < |noise| ==> noise[k] != addr
    requires ReplyAt(reply, addr, 0) && |reply| == 6 + (reply[3] as int)
    requires IsFirstMask(noise + reply + rest, addr, r)
    ensures r == Some(MaskAt(reply, 0))
  {
    var resp, n := noise + reply + rest, |noise|;
    assert resp[n..n + |reply|] == reply;
    ReplyAnywhere(resp, n, reply, addr);
    forall j | 0 <= j < n ensures !ReplyAt(resp, addr, j) {
      assert resp[j] == noise[j];
    }
    hide ReplyAt, MaskAt;
    assert IsFirstMask(resp, addr, Some(MaskAt(reply, 0)));
    FirstMaskUnique(resp, addr, r, Some(MaskAt(reply, 0)));
  }

  // ---------------------------------------------------------------- the requested registers

  /** `count` registers asked for with one setting (nonzero = events on). */
  datatype Range = Range(count: nat, on: bool)

  function Bytes(count: nat): nat {
    (count + 7) / 8
  }

  /** Byte position at which the r-th range starts. */
  function Offset(req: seq<Range>, r: nat): nat
    requires r <= |req|
  {
    if r == 0 then 0 else Offset(req, r - 1) + Bytes(req[r - 1].count)
  }

  /** The low `n` bits. */
  function LowBits(n: nat): bv8 {
    if n == 0 then 0 else if n == 1 then 1 else if n == 2 then 3 else if n == 3 then 7 else if n == 4 then 15
    else if n == 5 then 31 else if n == 6 then 63 else if n == 7 then 127 else 255
  }

  function OneBit(k: nat): bv8 {
    if k == 0 then 1 else if k == 1 then 2 else if k == 2 then 4 else if k == 3 then 8 else if k == 4 then 16
    else if k == 5 then 32 else if k == 6 then 64 else 128
  }

  predicate BitSet(b: bv8, k: nat) {
    b & OneBit(k) != 0
  }

  /** Bit `b` of byte `k` of range `r`. */
  predicate BitOn(mask: seq<bv8>, req: seq<Range>, r: nat, k: nat, b: nat)
    requires r < |req|
  {
    Offset(req, r) + k < |mask| && BitSet(mask[Offset(req, r) + k], b)
  }

  /** The mask bit of register `j` of range `r`. */
  predicate RegisterOn(mask: seq<bv8>, req: seq<Range>, r: nat, j: nat)
    requires r < |req|
  {
    BitOn(mask, req, r, j / 8, j % 8)
  }

  /** The mask has the right length and says of every requested register what was asked. */
  ghost predicate Agrees(mask: seq<bv8>, req: seq<Range>) {
    && |mask| == Offset(req, |req|)
    && forall r: nat, j: nat :: r < |req| && j < req[r].count ==> RegisterOn(mask, req, r, j) == req[r].on
  }

  // ----------------------------------------------------------------------- one mask byte

  /** How many of a range's registers lie in its byte number `k`. */
  function Used(count: nat, k: nat): nat {
    if 8 * k >= count then 0 else Min(8, count - 8 * k)
  }

  function WantByte(range: Range, k: nat): bv8 {
    if range.on then LowBits(Used(range.count, k)) else 0
  }

  predicate ByteMatches(m: bv8, range: Range, k: nat) {
    (m ^ WantByte(range, k)) & LowBits(Used(range.count, k)) == 0
  }

  lemma XorLow(m: bv8, l: bv8)
    ensures (m ^ l) & l == 0 <==> m & l == l
  {
  }

  lemma XorZero(m: bv8, l: bv8)
    ensures (m ^ 0) & l == m & l
  {
  }

  lemma LowBitsSet(m: bv8, n: nat)
    requires 1 <= n <= 8
    ensures m & LowBits(n) == LowBits(n) <==> forall k: nat :: k < n ==> BitSet(m, k)
  {
    assert (forall k: nat :: k < n ==> BitSet(m, k)) ==>
      (n > 0 ==> BitSet(m, 0)) && (n > 1 ==> BitSet(m, 1)) && (n > 2 ==> BitSet(m, 2)) && (n > 3 ==> BitSet(m, 3))
      && (n > 4 ==> BitSet(m, 4)) && (n > 5 ==> BitSet(m, 5)) && (n > 6 ==> BitSet(m, 6)) && (n > 7 ==> BitSet(m, 7));
  }

  lemma LowBitsClear(m: bv8, n: nat)
    requires 1 <= n <= 8
    ensures m & LowBits(n) == 0 <==> forall k: nat :: k < n ==> !BitSet(m, k)
  {
    assert (forall k: nat :: k < n ==> !BitSet(m, k)) ==>
      (n > 0 ==> !BitSet(m, 0)) && (n > 1 ==> !BitSet(m, 1)) && (n > 2 ==> !BitSet(m, 2)) && (n > 3 ==> !BitSet(m, 3))
      && (n > 4 ==> !BitSet(m, 4)) && (n > 5 ==> !BitSet(m, 5)) && (n > 6 ==> !BitSet(m, 6)) && (n > 7 ==>
           !BitSet(m, 7));
  }

  lemma ByteMatchesIff(m: bv8, n: nat, on: bool)
    requires 1 <= n <= 8
    ensures (m ^ (if on then LowBits(n) else 0)) & LowBits(n) == 0 <==> forall k: nat :: k < n ==> BitSet(m, k) == on
  {
    hide LowBits, BitSet;
    if on {
      LowBitsSet(m, n);
      XorLow(m, LowBits(n));
    } else {
      LowBitsClear(m, n);
      XorZero(m, LowBits(n));
    }
  }

  // ------------------------------------------------------------------- the whole mask

  lemma {:induction false} OffsetsGrow(req: seq<Range>, a: nat, b: nat)
    requires a <= b <= |req|
    ensures Offset(req, a) <= Offset(req, b)
    decreases b
  {
    if a < b {
      OffsetsGrow(req, a, b - 1);
    }
  }

  lemma ByteInside(req: seq<Range>, r: nat, k: nat)
    requires r < |req| && k < Bytes(req[r].count)
    ensures Offset(req, r) + k < Offset(req, r + 1) <= Offset(req, |req|)
  {
    OffsetsGrow(req, r + 1, |req|);
  }

  /** Byte `k` of range `r` matches on every bit in use. */
  predicate RangeByteOk(mask: seq<bv8>, req: seq<Range>, r: nat, k: nat)
    requires r < |req|
  {
    Offset(req, r) + k < |mask| && ByteMatches(mask[Offset(req, r) + k], req[r], k)
  }

  ghost predicate BytesOk(mask: seq<bv8>, req: seq<Range>) {
    forall r: nat, k: nat :: r < |req| && k < Bytes(req[r].count) ==> RangeByteOk(mask, req, r, k)
  }

  /** All registers of byte `k` of range `r` are as asked. */
  ghost predicate RegistersOk(mask: seq<bv8>, req: seq<Range>, r: nat, k: nat)
    requires r < |req|
  {
    forall b: nat :: b < Used(req[r].count, k) ==> BitOn(mask, req, r, k, b) == req[r].on
  }

  lemma RangeByteIff(mask: seq<bv8>, req: seq<Range>, r: nat, k: nat)
    requires r < |req| && k < Bytes(req[r].count) && |mask| == Offset(req, |req|)
    ensures RangeByteOk(mask, req, r, k) <==> RegistersOk(mask, req, r, k)
  {
    ByteInside(req, r, k);
    var range, m := req[r], mask[Offset(req, r) + k];
    ByteMatchesIff(m, Used(range.count, k), range.on);
    hide BitSet, LowBits, Offset;
    assert forall b: nat :: BitOn(mask, req, r, k, b) == BitSet(m, b);
  }

  /** Comparing the used bits byte by byte is comparing the registers. */
  lemma BytesOkIffAgrees(mask: seq<bv8>, req: seq<Range>)
    requires |mask| == Offset(req, |req|)
    ensures BytesOk(mask, req) <==> Agrees(mask, req)
  {
    hide BitOn, RangeByteOk;
    if BytesOk(mask, req) {
      forall r: nat, j: nat | r < |req| && j < req[r].count ensures RegisterOn(mask, req, r, j) == req[r].on {
        assert RangeByteOk(mask, req, r, j / 8);
        RangeByteIff(mask, req, r, j / 8);
        assert j % 8 < Used(req[r].count, j / 8);
      }
    }
    if Agrees(mask, req) {
      forall r: nat, k: nat | r < |req| && k < Bytes(req[r].count) ensures RangeByteOk(mask, req, r, k) {
        forall b: nat | b < Used(req[r].count, k) ensures BitOn(mask, req, r, k, b) == req[r].on {
          assert (8 * k + b) / 8 == k && (8 * k + b) % 8 == b;
          assert RegisterOn(mask, req, r, 8 * k + b) == req[r].on;
        }
        RangeByteIff(mask, req, r, k);
      }
    }
  }

  predicate WantAt(want: seq<bv8>, req: seq<Range>, r: nat, k: nat)
    requires r < |req|
  {
    Offset(req, r) + k < |want| && want[Offset(req, r) + k] == WantByte(req[r], k)
  }

  /** The mask the contract promises: a byte per eight registers, low bits first. */
  method ExpectedMask(req: seq<Range>) returns (want: seq<bv8>)
    ensures |want| == Offset(req, |req|)
    ensures forall r: nat, k: nat :: r < |req| && k < Bytes(req[r].count) ==> WantAt(want, req, r, k)
  {
    hide WantByte;
    want := [];
    for r := 0 to |req|
      invariant |want| == Offset(req, r)
      invariant forall q: nat, k: nat :: q < r && k < Bytes(req[q].count) ==> WantAt(want, req, q, k)
    {
      for k := 0 to Bytes(req[r].count)
        invariant |want| == Offset(req, r) + k
        invariant forall q: nat, m: nat :: q < r && m < Bytes(req[q].count) ==> WantAt(want, req, q, m)
        invariant forall m: nat :: m < k ==> WantAt(want, req, r, m)
      {
        var longer := want + [WantByte(req[r], k)];
        forall q: nat, m: nat | q < r && m < Bytes(req[q].count) ensures WantAt(longer, req, q, m) {
          assert WantAt(want, req, q, m);
        }
        forall m: nat | m < k + 1 ensures WantAt(longer, req, r, m) {
          assert m < k ==> WantAt(want, req, r, m);
        }
        want := longer;
      }
    }
  }

  /** The first CRC-valid reply carries a mask of the right length that says of every requested
      register what was asked. */
  ghost predicate Confirms(resp: seq<bv8>, addr: bv8, req: seq<Range>) {
    exists mask :: IsFirstMask(resp, addr, Some(mask)) && Agrees(mask, req)
  }

  lemma WrongLength(mask: seq<bv8>, req: seq<Range>)
    requires |mask| != Offset(req, |req|)
    ensures !Agrees(mask, req)
  {
  }

  method CompareMask(mask: seq<bv8>, want: seq<bv8>, req: seq<Range>) returns (ok: bool)
    requires |mask| == |want| == Offset(req, |req|)
    requires forall r: nat, k: nat :: r < |req| && k < Bytes(req[r].count) ==> WantAt(want, req, r, k)
    ensures ok <==> BytesOk(mask, req)
  {
    hide LowBits, WantByte;
    var pos := 0;
    for r := 0 to |req|
      invariant pos == Offset(req, r)
      invariant forall q: nat, k: nat :: q < r && k < Bytes(req[q].count) ==> RangeByteOk(mask, req, q, k)
    {
      for k := 0 to Bytes(req[r].count)
        invariant pos == Offset(req, r) + k
        invariant forall m: nat :: m < k ==> RangeByteOk(mask, req, r, m)
      {
        ByteInside(req, r, k);
        assert WantAt(want, req, r, k);
        var used := LowBits(Used(req[r].count, k));
        if (mask[pos] ^ want[pos]) & used != 0 {
          assert !RangeByteOk(mask, req, r, k);
          return false;
        }
        assert RangeByteOk(mask, req, r, k);
        pos := pos + 1;
      }
    }
    return true;
  }

  /** Sound and complete. */
  method ReplyConfirms(resp: seq<bv8>, addr: bv8, req: seq<Range>) returns (ok: bool)
    ensures ok <==> Confirms(resp, addr, req)
  {
    hide Agrees, IsFirstMask;
    var found := ReplyMask(resp, addr);
    forall mask | IsFirstMask(resp, addr, Some(mask)) ensures found == Some(mask) {
      FirstMaskUnique(resp, addr, found, Some(mask));
    }
    var want := ExpectedMask(req);
    if found == None {
      return false;
    }
    if |found.value| != |want| {
      WrongLength(found.value, req);
      return false;
    }
    ok := CompareMask(found.value, want, req);
    BytesOkIffAgrees(found.value, req);
  }

  /** Padding bits are never compared: masks equal on the registers confirm alike. */
  lemma PaddingIgnored(a: seq<bv8>, b: seq<bv8>, req: seq<Range>)
    requires |a| == |b|
    requires forall r: nat, j: nat :: r < |req| && j < req[r].count ==>
      RegisterOn(a, req, r, j) == RegisterOn(b, req, r, j)
    ensures Agrees(a, req) <==> Agrees(b, req)
  {
  }
}
