/**
 One Modbus TCP transaction on a pooled socket (`_recv_exact`, `ModbusTcpClient._open`,
 `_drop`, `_connect_failed`, `_transact` of bridge_tcp.py; MBAP is section 3.1.3 of MODBUS
 Messaging on TCP/IP Implementation Guide V1.0b).

 The network is nondeterministic: connecting, sending and receiving may fail at any point,
 bytes arrive in any pieces, and the peer answers each request at most once, whenever and
 with whatever it likes, as long as an answer is one MBAP frame. Each byte carries, for the
 proof only, the number of the request it answers.
 */
module TcpClient {
  import opened Base

  datatype Tagged = Tagged(b: byte, of: nat)

  function Tag(bytes: seq<byte>, id: nat): (r: seq<Tagged>)
    ensures |r| == |bytes|
    ensures forall k :: 0 <= k < |r| ==> r[k] == Tagged(bytes[k], id)
  {
    seq(|bytes|, k requires 0 <= k < |bytes| => Tagged(bytes[k], id))
  }

  function Untag(s: seq<Tagged>): (r: seq<byte>)
    ensures |r| == |s|
  {
    seq(|s|, k requires 0 <= k < |s| => s[k].b)
  }

  function LengthField(frame: seq<byte>): int
    requires |frame| >= 6
  {
    Pair(frame[4], frame[5])
  }

  /** One MBAP frame: the length field counts the bytes after itself. */
  predicate IsFrame(frame: seq<byte>) {
    |frame| >= 7 && |frame| == 6 + LengthField(frame)
  }

  datatype Received = Chunk(bytes: seq<Tagged>) | Timeout | Eof | Reset

  datatype Sending = Sent | SendFailed | SendTimedOut

  // -------------------------------------------------------------------- what really happened

  /** What the network saw of the client and the client of the network. `Expired`: time ran out;
      `Ended`: the connection closed or was reset; `Broke`: the local send failed. */
  datatype Event = Connected | Refused | SendOf(id: nat) | Received(n: nat) | Expired | Ended | Broke

  /** The record that every connection of a client writes, and no decision reads. */
  class Wire {
    ghost var log: seq<Event>

    constructor ()
      ensures log == []
    {
      log := [];
    }

    /** The deadline is looked at before each read. */
    method DeadlinePassed() returns (late: bool)
      modifies this
      ensures log == if late then old(log) + [Expired] else old(log)
    {
      late := *;
      if late {
        log := log + [Expired];
      }
    }

    ghost method Note(e: Event)
      modifies this
      ensures log == old(log) + [e]
    {
      log := log + [e];
    }
  }

  /** Only pieces of a reply, none empty. */
  predicate AllPieces(seg: seq<Event>) {
    forall k :: 0 <= k < |seg| ==> seg[k].Received? && seg[k].n > 0
  }

  /** How many bytes of a reply were taken. */
  function Taken(seg: seq<Event>): nat {
    if seg == [] then 0 else
      var last := seg[|seg| - 1];
      Taken(seg[..|seg| - 1]) + if last.Received? then last.n else 0
  }

  /** The numbers of the requests sent, in their order. */
  function SentIn(seg: seq<Event>): seq<nat> {
    if seg == [] then [] else
      var last := seg[|seg| - 1];
      SentIn(seg[..|seg| - 1]) + if last.SendOf? then [last.id] else []
  }

  lemma {:induction false} LogConcat(a: seq<Event>, b: seq<Event>)
    ensures Taken(a + b) == Taken(a) + Taken(b) && SentIn(a + b) == SentIn(a) + SentIn(b)
  {
    if b == [] {
      assert a + b == a;
    } else {
      LogConcat(a, b[..|b| - 1]);
      assert (a + b)[..|a + b| - 1] == a + b[..|b| - 1];
    }
  }

  lemma LogOne(e: Event)
    ensures Taken([e]) == (if e.Received? then e.n else 0) && SentIn([e]) == if e.SendOf? then [e.id] else []
  {
    assert [e][..0] == [];
  }

  lemma {:induction false} NothingSent(seg: seq<Event>)
    requires forall k :: 0 <= k < |seg| ==> !seg[k].SendOf?
    ensures SentIn(seg) == []
  {
    if seg != [] {
      NothingSent(seg[..|seg| - 1]);
    }
  }

  // -------------------------------------------------------------------------- connections

  /** Taking `m` more bytes of an answer. */
  lemma MoreTaken(answer: seq<byte>, c: nat, buf: seq<Tagged>, id: nat, m: nat)
    requires c + |buf| + m <= |answer|
    requires buf != [] ==> buf == Tag(answer[c..c + |buf|], id)
    ensures var rest := Tag(answer[c + |buf|..], id);
            && m <= |rest| && rest[m..] == Tag(answer[c + |buf| + m..], id)
            && buf + rest[..m] == Tag(answer[c..c + |buf| + m], id)
  {
  }

  /** A connection: what the peer still owes an answer to, and the bytes on their way. */
  class Conn {
    const wire: Wire
    var owed: seq<nat>
    var inbox: seq<Tagged>
    ghost var answer: seq<byte>

    constructor (wire: Wire)
      ensures Quiet() && this.wire == wire
    {
      this.wire, owed, inbox, answer := wire, [], [], [];
    }

    /** No request is unanswered and no byte is under way. */
    predicate Quiet()
      reads this
    {
      owed == [] && inbox == []
    }

    /** Request `id` is the only one in question, and `c` bytes of its answer were taken. */
    ghost predicate Serving(id: nat, c: nat)
      reads this
    {
      || (owed == [id] && inbox == [] && c == 0)
      || (owed == [] && IsFrame(answer) && c <= |answer| && inbox == Tag(answer[c..], id))
    }

    /** `buf` is what has been taken of the answer to `id` from its byte `c` on. */
    ghost predicate Took(id: nat, c: nat, buf: seq<Tagged>)
      reads this
    {
      && Serving(id, c + |buf|)
      && (buf != [] ==> c + |buf| <= |answer| && buf == Tag(answer[c..c + |buf|], id))
    }

    /** A local send that fails may have left all the same. */
    method Send(id: nat) returns (r: Sending)
      modifies this, wire
      ensures r.Sent? && old(Quiet()) ==> Serving(id, 0)
      ensures wire.log == old(wire.log) + [SendOf(id)] +
        match r case Sent => [] case SendFailed => [Broke] case SendTimedOut => [Expired]
    {
      r := *;
      owed := owed + [id];
      wire.Note(SendOf(id));
      match r {
        case Sent => assert wire.log + [] == wire.log;
        case SendFailed => wire.Note(Broke);
        case SendTimedOut => wire.Note(Expired);
      }
    }

    /** The peer answers some of what it owes, each request at most once. */
    method PeerMoves(ghost id: nat, ghost c: nat)
      modifies this`owed, this`inbox, this`answer
      ensures old(Serving(id, c)) ==> Serving(id, c)
      ensures old(Serving(id, c)) && c > 0 ==> answer == old(answer)
    {
      var turns: int := *;
      while turns > 0
        invariant old(Serving(id, c)) ==> Serving(id, c)
        invariant old(Serving(id, c)) && c > 0 ==> answer == old(answer)
      {
        var k: int, frame: seq<byte> := *, *;
        if 0 <= k < |owed| && IsFrame(frame) {
          inbox := inbox + Tag(frame, owed[k]);
          owed := owed[..k] + owed[k + 1..];
          answer := frame;
          assert answer[0..] == answer;
        }
        turns := turns - 1;
      }
    }

    /** Up to `n` bytes, an end of the connection, or nothing in time. */
    method Recv(n: nat, ghost id: nat, ghost c: nat, ghost buf: seq<Tagged>) returns (r: Received)
      modifies this, wire
      ensures r.Chunk? ==> 0 < |r.bytes| <= n
      ensures wire.log == old(wire.log) +
        match r case Chunk(bytes) => [Received(|bytes|)] case Timeout => [Expired] case _ => [Ended]
      ensures old(Took(id, c, buf)) && r.Chunk? ==> Took(id, c, buf + r.bytes)
      ensures old(Took(id, c, buf)) && c + |buf| > 0 ==> answer == old(answer)
    {
      PeerMoves(id, c + |buf|);
      var event: int, m: int := *, *;
      if event == 0 || event == 1 {
        wire.Note(Ended);
        return if event == 0 then Eof else Reset;
      }
      if event == 2 || m <= 0 || m > n || m > |inbox| {
        wire.Note(Expired);
        return Timeout;
      }
      if old(Took(id, c, buf)) {
        MoreTaken(answer, c, buf, id, m);
      }
      r := Chunk(inbox[..m]);
      inbox := inbox[m..];
      wire.Note(Received(m));
    }
  }

  datatype RecvResult = Got(bytes: seq<Tagged>) | TimedOut | EarlyEof | Desync

  predicate PiecesAnd(seg: seq<Event>, e: Event) {
    seg != [] && AllPieces(seg[..|seg| - 1]) && seg[|seg| - 1] == e
  }

  /** What reading `n` bytes leaves on the record, given whether bytes of the reply came before. */
  ghost predicate ReadShape(seg: seq<Event>, r: RecvResult, n: nat, before: bool, after: bool) {
    match r
    case Got(_) => AllPieces(seg) && Taken(seg) == n && after == (before || n > 0)
    case EarlyEof => seg == [Ended] && !before && !after
    case TimedOut => PiecesAnd(seg, Expired) && Taken(seg) < n
    case Desync => PiecesAnd(seg, Ended) && Taken(seg) < n && (before || |seg| > 1)
  }

  /** So far `k` bytes have been read, and nothing else has happened. */
  predicate Reading(seg: seq<Event>, k: nat) {
    AllPieces(seg) && Taken(seg) == k && (k > 0 <==> seg != [])
  }

  lemma ReadBegins(conn: Conn, id: nat, c: nat)
    ensures Reading([], 0) && (conn.Serving(id, c) ==> conn.Took(id, c, []))
  {
  }

  lemma ReadDone(seg: seq<Event>, buf: seq<Tagged>, before: bool, after: bool)
    requires Reading(seg, |buf|) && after == (before || seg != [])
    ensures ReadShape(seg, Got(buf), |buf|, before, after)
  {
  }

  lemma OnePieceMore(seg: seq<Event>, k: nat, n: nat)
    requires Reading(seg, k) && n > 0
    ensures Reading(seg + [Received(n)], k + n)
  {
    assert (seg + [Received(n)])[..|seg|] == seg;
  }

  /** What is on the record when a read ends early. */
  lemma ReadEnds(seg: seq<Event>, k: nat, e: Event, n: nat, before: bool, after: bool)
    requires Reading(seg, k) && k < n && after == (before || seg != []) && (e == Expired || e == Ended)
    ensures var r := if e == Expired then TimedOut else if after then Desync else EarlyEof;
            ReadShape(seg + [e], r, n, before, after)
  {
    assert (seg + [e])[..|seg|] == seg;
  }

  lemma Longer(log: seq<Event>, seg: seq<Event>, e: Event) returns (more: seq<Event>)
    ensures more == seg + [e] && log + seg + [e] == log + more
  {
    more := seg + [e];
  }

  /** Read exactly `n` bytes across any number of segments and pauses. An end before any byte
      of the reply is told apart from one in the middle of it. */
  method RecvExact(conn: Conn, n: nat, gotAny: bool, ghost id: nat, ghost c: nat)
    returns (r: RecvResult, gotAny': bool, ghost seg: seq<Event>)
    modifies conn, conn.wire
    ensures r.Got? ==> |r.bytes| == n
    ensures conn.wire.log == old(conn.wire.log) + seg && ReadShape(seg, r, n, gotAny, gotAny')
    ensures old(conn.Serving(id, c)) && r.Got? ==> conn.Took(id, c, r.bytes)
    ensures old(conn.Serving(id, c)) && c > 0 ==> conn.answer == old(conn.answer)
  {
    hide Conn.Took, Conn.Serving, AllPieces, Taken, PiecesAnd, ReadShape, Reading;
    var buf: seq<Tagged> := [];
    gotAny', seg := gotAny, [];
    ghost var log := conn.wire.log;
    ReadBegins(conn, id, c);
    while |buf| < n
      invariant |buf| <= n && gotAny' == (gotAny || seg != [])
      invariant conn.wire.log == log + seg && Reading(seg, |buf|)
      invariant old(conn.Serving(id, c)) ==> conn.Took(id, c, buf)
      invariant old(conn.Serving(id, c)) && c > 0 ==> conn.answer == old(conn.answer)
    {
      var late := conn.wire.DeadlinePassed();
      if late {
        ReadEnds(seg, |buf|, Expired, n, gotAny, gotAny');
        seg := Longer(log, seg, Expired);
        return TimedOut, gotAny', seg;
      }
      var e := conn.Recv(n - |buf|, id, c, buf);
      match e {
        case Timeout =>
          ReadEnds(seg, |buf|, Expired, n, gotAny, gotAny');
          seg := Longer(log, seg, Expired);
          return TimedOut, gotAny', seg;
        case Chunk(bytes) =>
          OnePieceMore(seg, |buf|, |bytes|);
          seg := Longer(log, seg, Received(|bytes|));
          gotAny' := true;
          buf := buf + bytes;
        case _ =>
          ReadEnds(seg, |buf|, Ended, n, gotAny, gotAny');
          seg := Longer(log, seg, Ended);
          return if gotAny' then Desync else EarlyEof, gotAny', seg;
      }
    }
    r := Got(buf);
    ReadDone(seg, buf, gotAny, gotAny');
  }

  // -------------------------------------------------------------------------- one exchange

  const BACKOFF_STEPS: seq<real> := [1.0, 2.0, 4.0, 8.0, 10.0]
  const MUTE_AFTER_TIMEOUTS := 3
  const MBAP_LEN_MIN := 2
  const MBAP_LEN_MAX := 254

  /** Every byte answers request `id`. */
  predicate AllOf(bytes: seq<Tagged>, id: nat) {
    forall k :: 0 <= k < |bytes| ==> bytes[k].of == id
  }

  /** What came of one send. */
  datatype Exchanged = Frame(head: seq<Tagged>, body: seq<Tagged>) | NoAnswer | Closed | Garbled

  /** The request and an end, and no byte of a reply in between. */
  predicate Stale(seg: seq<Event>, id: nat) {
    seg == [SendOf(id), Broke] || seg == [SendOf(id), Ended]
  }

  /** What an exchange leaves on the record: the request, and then what made it end as it did. The
      cases exclude each other, so the outcome says what happened and nothing else. */
  ghost predicate ExchangeShape(seg: seq<Event>, x: Exchanged, id: nat) {
    && seg != [] && seg[0] == SendOf(id)
    && match x
       case Frame(_, body) => AllPieces(seg[1..]) && Taken(seg[1..]) == 7 + |body|
       case Closed => Stale(seg, id)
       case NoAnswer => PiecesAnd(seg[1..], Expired)
       case Garbled => |seg| > 1 && (AllPieces(seg[1..]) || (|seg| > 2 && PiecesAnd(seg[1..], Ended)))
  }

  /** A read of the first bytes of a reply, as the end of an exchange. */
  lemma HeadEnds(seg: seq<Event>, id: nat, r: RecvResult, after: bool)
    requires ReadShape(seg, r, 7, false, after)
    ensures r.TimedOut? ==> ExchangeShape([SendOf(id)] + seg, NoAnswer, id)
    ensures r.EarlyEof? ==> ExchangeShape([SendOf(id)] + seg, Closed, id)
    ensures r.Desync? || r.Got? ==> ExchangeShape([SendOf(id)] + seg, Garbled, id)
    ensures r.Got? ==> AllPieces(seg) && Taken(seg) == 7 && after
  {
    assert ([SendOf(id)] + seg)[1..] == seg;
  }

  /** A read of the rest of a reply, as the end of an exchange. */
  lemma BodyEnds(head: seq<Event>, seg: seq<Event>, id: nat, r: RecvResult, n: nat, after: bool)
    requires AllPieces(head) && Taken(head) == 7 && ReadShape(seg, r, n, true, after)
    ensures !r.EarlyEof?
    ensures r.TimedOut? ==> ExchangeShape([SendOf(id)] + head + seg, NoAnswer, id)
    ensures r.Desync? ==> ExchangeShape([SendOf(id)] + head + seg, Garbled, id)
    ensures r.Got? ==> AllPieces(([SendOf(id)] + head + seg)[1..]) && Taken(([SendOf(id)] + head + seg)[1..]) == 7 + n
  {
    var all := [SendOf(id)] + head + seg;
    assert all[1..] == head + seg;
    LogConcat(head, seg);
    assert head != [];
    if seg != [] {
      assert all[1..][..|all| - 2] == head + seg[..|seg| - 1];
    }
  }

  lemma NotSent(id: nat, x: Exchanged)
    requires x.Closed? || x.NoAnswer?
    ensures ExchangeShape([SendOf(id), if x.Closed? then Broke else Expired], x, id)
  {
  }

  lemma FrameShape(seg: seq<Event>, id: nat, head: seq<Tagged>, body: seq<Tagged>)
    requires seg != [] && seg[0] == SendOf(id) && AllPieces(seg[1..]) && Taken(seg[1..]) == 7 + |body|
    ensures ExchangeShape(seg, Frame(head, body), id)
  {
  }

  /** Seven bytes and then as many as the length field says: the answer is used up. */
  lemma WholeFrameTaken(conn: Conn, answer: seq<byte>, head: seq<Tagged>, body: seq<Tagged>, id: nat)
    requires |head| == 7 && |answer| >= 7 && head == Tag(answer[0..7], id)
    requires conn.answer == answer && conn.Took(id, 7, body) && |body| == Pair(head[4].b, head[5].b) - 1
    ensures conn.Quiet() && AllOf(head, id) && AllOf(body, id)
  {
    assert head[4].b == answer[4] && head[5].b == answer[5];
    assert 7 + |body| == |answer|;
    assert answer[7 + |body|..] == [];
  }

  /** Send the request once and read one frame. A frame read on a connection that was quiet is
      the whole answer to this request, and the connection is quiet again. */
  method Exchange(conn: Conn, id: nat) returns (x: Exchanged, ghost seg: seq<Event>)
    modifies conn, conn.wire
    ensures conn.wire.log == old(conn.wire.log) + seg && ExchangeShape(seg, x, id)
    ensures x.Frame? ==> |x.head| == 7 && MBAP_LEN_MIN <= Pair(x.head[4].b, x.head[5].b) <= MBAP_LEN_MAX
                         && |x.body| == Pair(x.head[4].b, x.head[5].b) - 1
    ensures x.Frame? && old(conn.Quiet()) ==>
      conn.Quiet() && AllOf(x.head, id) && AllOf(x.body, id)
  {
    hide AllPieces, Taken, PiecesAnd, ReadShape, ExchangeShape;
    ghost var log := conn.wire.log;
    var sent := conn.Send(id);
    if !sent.Sent? {
      x := if sent.SendFailed? then Closed else NoAnswer;
      NotSent(id, x);
      return x, [SendOf(id), if x.Closed? then Broke else Expired];
    }
    var r, any;
    ghost var first, rest;
    r, any, first := RecvExact(conn, 7, false, id, 0);
    HeadEnds(first, id, r, any);
    seg := [SendOf(id)] + first;
    assert conn.wire.log == log + seg;
    match r {
      case TimedOut => return NoAnswer, seg;
      case EarlyEof => return Closed, seg;
      case Desync => return Garbled, seg;
      case Got(head) =>
        var pid, length := Pair(head[2].b, head[3].b), Pair(head[4].b, head[5].b);
        if pid != 0 || !(MBAP_LEN_MIN <= length <= MBAP_LEN_MAX) {
          return Garbled, seg;
        }
        ghost var answer := conn.answer;
        r, any, rest := RecvExact(conn, length - 1, any, id, 7);
        BodyEnds(first, rest, id, r, length - 1, any);
        seg := seg + rest;
        match r {
          case TimedOut => return NoAnswer, seg;
          case EarlyEof => return Closed, seg;
          case Desync => return Garbled, seg;
          case Got(body) =>
            x := Frame(head, body);
            FrameShape(seg, id, head, body);
            if old(conn.Quiet()) {
              WholeFrameTaken(conn, answer, head, body, id);
            }
        }
    }
  }

  // -------------------------------------------------------------------- a call on the record

  /** An exchange sends once, first of all, and is over at the first end. */
  ghost predicate OneSend(x: seq<Event>, id: nat) {
    && |x| >= 1 && x[0] == SendOf(id)
    && forall k :: 1 <= k < |x| ==> x[k].Received? || (k == |x| - 1 && x[k] in [Expired, Ended, Broke])
  }

  /** The outcomes of an exchange, told apart by the record alone. */
  lemma Outcomes(x: seq<Event>, came: Exchanged, id: nat)
    requires ExchangeShape(x, came, id)
    ensures OneSend(x, id)
    ensures came.Closed? <==> Stale(x, id)
    ensures came.NoAnswer? <==> x[|x| - 1] == Expired
    ensures came.Frame? ==>
      AllPieces(x[1..]) && Taken(x[1..]) == 7 + |came.body| && |x| > 1 && x[|x| - 1].Received?
  {
    var rest := x[1..];
    assert forall k :: 1 <= k < |x| ==> x[k] == rest[k - 1];
    assert came.Frame? ==> rest != [];
  }

  /** One attempt on the record: the connection made for it, if one was needed and could be had, and
      one exchange `x`. */
  ghost predicate TryRecord(seg: seq<Event>, x: seq<Event>, reused: bool, windowClosed: bool, id: nat) {
    if reused then seg == x && OneSend(x, id)
    else if x == [] then seg == if windowClosed then [] else [Refused]
    else seg == [Connected] + x && !windowClosed && OneSend(x, id)
  }

  /** The only way a call sends twice. */
  predicate Resent(seg: seq<Event>, i: nat, j: nat) {
    i == 0 && j == 3 && j < |seg| && (seg[1] == Broke || seg[1] == Ended) && seg[2] == Connected
  }

  predicate Reconnects(seg: seq<Event>, windowClosed: bool) {
    if windowClosed then |seg| == 2
    else |seg| >= 3 && (seg[2] == Refused || (seg[2] == Connected && |seg| >= 4 && seg[3].SendOf?))
  }

  /** from, ..., to - 1 */
  function Numbers(from: nat, to: nat): seq<nat> {
    if from >= to then [] else Numbers(from, to - 1) + [to - 1]
  }

  /** A call on the record: at most two requests; a second one only on a new connection, after a
      reused one ended with no byte of a reply; none after time ran out; and a stale session is
      always replaced and the request repeated, as far as a connection can be had. */
  ghost predicate CallRecord(seg: seq<Event>, reused: bool, windowClosed: bool, from: nat, to: nat) {
    && from <= to <= from + 2 && SentIn(seg) == Numbers(from, to)
    && (forall i, j :: 0 <= i < j < |seg| && seg[i].SendOf? && seg[j].SendOf? ==> reused && Resent(seg, i, j))
    && (forall i, j :: 0 <= i < j < |seg| && seg[i] == Expired ==> !seg[j].SendOf?)
    && (reused && |seg| >= 2 && (seg[1] == Broke || seg[1] == Ended) ==> Reconnects(seg, windowClosed))
  }

  lemma NothingDone(reused: bool, windowClosed: bool, from: nat)
    ensures CallRecord([], reused, windowClosed, from, from)
  {
  }

  lemma NumbersTwo(id: nat)
    ensures Numbers(id, id + 1) == [id] && Numbers(id, id + 2) == [id, id + 1]
  {
    assert Numbers(id, id) == [];
    assert Numbers(id, id + 1) == [id];
  }

  lemma OneSendSends(x: seq<Event>, id: nat)
    requires OneSend(x, id)
    ensures SentIn(x) == [id]
  {
    NothingSent(x[1..]);
    LogOne(x[0]);
    LogConcat([x[0]], x[1..]);
    assert x == [x[0]] + x[1..];
  }

  lemma ConnectedSends(x: seq<Event>)
    ensures SentIn([Connected] + x) == SentIn(x)
  {
    LogOne(Connected);
    LogConcat([Connected], x);
  }

  /** A call that is over after one attempt. */
  lemma OneTry(seg: seq<Event>, x: seq<Event>, reused: bool, windowClosed: bool, id: nat)
    requires TryRecord(seg, x, reused, windowClosed, id) && !(reused && Stale(x, id))
    ensures CallRecord(seg, reused, windowClosed, id, id + if x == [] then 0 else 1)
  {
    if x == [] {
      NothingSent(seg);
    } else {
      OneSendSends(x, id);
      ConnectedSends(x);
      assert Numbers(id, id + 1) == [id];
    }
    hide SentIn, Numbers;
  }

  /** Where the requests of a resent call stand, and where time can have run out. */
  lemma TwoSends(x: seq<Event>, y: seq<Event>, id: nat, k: nat)
    requires Stale(x, id) && OneSend(y, id + 1) && k < |x + [Connected] + y|
    ensures var all := x + [Connected] + y;
      && |x| == 2 && all[1] == x[1] && all[2] == Connected && all[3].SendOf? && |all| > 3
      && (all[k].SendOf? <==> k == 0 || k == 3) && (all[k] == Expired ==> k == |all| - 1)
  {
    var all := x + [Connected] + y;
    if k >= 3 {
      assert all[k] == y[k - 3];
    }
  }

  lemma ResentCall(x: seq<Event>, y: seq<Event>, id: nat)
    requires Stale(x, id) && OneSend(y, id + 1) && SentIn(x + [Connected] + y) == Numbers(id, id + 2)
    ensures CallRecord(x + [Connected] + y, true, false, id, id + 2)
  {
    var all := x + [Connected] + y;
    forall k | 0 <= k < |all|
      ensures (all[k].SendOf? <==> k == 0 || k == 3) && (all[k] == Expired ==> k == |all| - 1)
    {
      TwoSends(x, y, id, k);
    }
    TwoSends(x, y, id, 0);
    hide SentIn, Numbers, OneSend;
  }

  lemma UnansweredCall(x: seq<Event>, windowClosed: bool, id: nat)
    requires Stale(x, id)
    requires SentIn(if windowClosed then [x[0], x[1]] else [x[0], x[1], Refused]) == Numbers(id, id + 1)
    ensures CallRecord(if windowClosed then [x[0], x[1]] else [x[0], x[1], Refused], true, windowClosed, id, id + 1)
  {
    hide SentIn, Numbers;
  }

  /** A stale session, and an attempt on the connection made after it, if any. */
  lemma TwoTries(seg: seq<Event>, x: seq<Event>, seg2: seq<Event>, y: seq<Event>, windowClosed: bool, id: nat)
    requires TryRecord(seg, x, true, windowClosed, id) && Stale(x, id)
    requires TryRecord(seg2, y, false, windowClosed, id + 1)
    ensures CallRecord(seg + seg2, true, windowClosed, id, id + 1 + if y == [] then 0 else 1)
  {
    OneSendSends(x, id);
    LogConcat(x, seg2);
    NumbersTwo(id);
    if y == [] {
      NothingSent(seg2);
      assert seg + seg2 == if windowClosed then [x[0], x[1]] else [x[0], x[1], Refused];
      UnansweredCall(x, windowClosed, id);
    } else {
      OneSendSends(y, id + 1);
      ConnectedSends(y);
      assert x + ([Connected] + y) == x + [Connected] + y;
      ResentCall(x, y, id);
    }
  }

  // ------------------------------------------------------------------------- the client

  /** What a call returns: the reply `[unit][fc]...`, or an error. */
  datatype Outcome = Reply(resp: seq<byte>) | Failed

  /** One unit's silence: timeouts in a row, window steps taken, when it may be asked again. */
  datatype Mute = Mute(timeouts: nat, steps: nat, retryAt: real)

  /** What is delivered: bytes that all answer request `id`, from the asked unit, with the asked
      function code, and long enough. */
  ghost predicate Delivered(unit: byte, pdu: seq<byte>, expected: nat, resp: seq<byte>, id: nat, reply: seq<Tagged>)
    requires pdu != []
  {
    && reply != [] && AllOf(reply, id)
    && resp == [unit] + Untag(reply) && resp[1] == pdu[0] && |resp| >= expected
  }

  lemma FrameDelivers(unit: byte, pdu: seq<byte>, expected: nat, body: seq<Tagged>, id: nat)
    requires pdu != [] && body != [] && AllOf(body, id)
    requires body[0].b < 128 && body[0].b % 128 == pdu[0] && 1 + |body| >= expected
    ensures Delivered(unit, pdu, expected, [unit] + Untag(body), id, body)
  {
  }

  class Client {
    var sock: Conn?
    var tid: nat
    var failN: nat
    var retryAt: real
    var backoffS: real
    var mutes: map<byte, Mute>
    const wire: Wire
    // serial number of requests, only there to say which reply belongs to which
    var nextId: nat

    /** Between calls an open socket has no unanswered request and no byte under way. */
    ghost predicate Valid()
      reads this, sock
    {
      && (sock != null ==> sock.Quiet() && sock.wire == wire)
      && tid < 0x10000 && 0.0 <= backoffS <= 10.0
    }

    constructor ()
      ensures Valid() && fresh(wire)
    {
      wire := new Wire();
      sock, tid, failN, retryAt, backoffS, nextId, mutes := null, 0, 0, 0.0, 0.0, 0, map[];
    }

    method ConnectFailed(now: real)
      modifies this`failN, this`retryAt, this`backoffS
      ensures sock == old(sock) && tid == old(tid) && nextId == old(nextId) && mutes == old(mutes)
      ensures failN == old(failN) + 1 && retryAt == now + backoffS
      ensures backoffS == BACKOFF_STEPS[Min(old(failN), 4)]
    {
      backoffS := BACKOFF_STEPS[Min(failN, 4)];
      failN := failN + 1;
      retryAt := now + backoffS;
    }

    /** Connect, unless the reconnect window is still closed. */
    method Open(now: real) returns (ok: bool)
      modifies this, wire
      ensures tid == old(tid) && nextId == old(nextId) && mutes == old(mutes)
      ensures old(retryAt) > now ==> !ok && retryAt == old(retryAt)
      ensures wire.log == old(wire.log) + (if ok then [Connected] else if old(retryAt) > now then [] else [Refused])
      ensures ok ==> fresh(sock) && sock.Quiet() && sock.wire == wire && backoffS == old(backoffS)
      ensures !ok ==> sock == old(sock)
      ensures old(0.0 <= backoffS <= 10.0) ==> 0.0 <= backoffS <= 10.0
    {
      if retryAt > now {
        return false;
      }
      var connects: bool, self: bool := *, *;
      if !connects || self {
        wire.Note(Refused);
        ConnectFailed(now);
        return false;
      }
      wire.Note(Connected);
      sock := new Conn(wire);
      return true;
    }

    method Succeeded()
      modifies this`failN, this`retryAt, this`backoffS
      ensures failN == 0 && backoffS == 0.0 && retryAt == 0.0
      ensures sock == old(sock) && tid == old(tid) && nextId == old(nextId) && mutes == old(mutes)
    {
      failN, retryAt, backoffS := 0, 0.0, 0.0;
    }

    method UnitTimedOut(unit: byte, now: real)
      modifies this`mutes
      ensures var was := if unit in old(mutes) then old(mutes)[unit] else Mute(0, 0, 0.0);
              mutes == old(mutes)[unit :=
                if was.timeouts + 1 >= MUTE_AFTER_TIMEOUTS
                then Mute(was.timeouts + 1, was.steps + 1, now + BACKOFF_STEPS[Min(was.steps, 4)])
                else was.(timeouts := was.timeouts + 1)]
    {
      var st := if unit in mutes then mutes[unit] else Mute(0, 0, 0.0);
      st := st.(timeouts := st.timeouts + 1);
      if st.timeouts >= MUTE_AFTER_TIMEOUTS {
        st := Mute(st.timeouts, st.steps + 1, now + BACKOFF_STEPS[Min(st.steps, 4)]);
      }
      mutes := mutes[unit := st];
    }

    /** One attempt: open if needed, send, read, judge. `x`: what the exchange left on the record.
        `again`: the session had gone stale before any byte of the reply and may be retried once. */
    method TryOnce(unit: byte, pdu: seq<byte>, expected: nat, now: real, first: bool)
      returns (out: Outcome, again: bool, ghost seg: seq<Event>, ghost x: seq<Event>, ghost reply: seq<Tagged>)
      requires Valid() && pdu != []
      modifies this, sock, wire
      ensures Valid()
      ensures sock == old(sock) || sock == null || fresh(sock)
      ensures wire.log == old(wire.log) + seg && TryRecord(seg, x, old(sock) != null, old(retryAt) > now, old(nextId))
      ensures nextId == old(nextId) + if x == [] then 0 else 1
      ensures again <==> first && old(sock) != null && Stale(x, old(nextId))
      ensures again ==> x != [] && retryAt == old(retryAt)
      ensures x != [] && x[|x| - 1] == Expired ==> unit in mutes
      ensures again || (x != [] && x[|x| - 1] in [Expired, Ended, Broke]) ==> out.Failed? && sock == null
      ensures out.Reply? ==> x != [] && AllPieces(x[1..]) && Taken(x[1..]) == 6 + |out.resp|
      ensures out.Reply? ==> Delivered(unit, pdu, expected, out.resp, old(nextId), reply)
    {
      hide AllPieces, Taken, PiecesAnd, ExchangeShape;
      hide OneSend, Stale, Delivered;
      out, again, seg, x, reply := Failed, false, [], [], [];
      var reused := sock != null;
      if !reused {
        var ok := Open(now);
        seg := if ok then [Connected] else if old(retryAt) > now then [] else [Refused];
        if !ok {
          return;
        }
      }
      tid := (tid + 1) % 0x10000;
      var id := nextId;
      nextId := nextId + 1;
      var came;
      came, x := Exchange(sock, id);
      seg := seg + x;
      Outcomes(x, came, id);
      match came {
        case NoAnswer =>
          sock := null;
          UnitTimedOut(unit, now);
        case Closed =>
          sock := null;
          again := reused && first;
          if !reused {
            ConnectFailed(now);
          }
        case Garbled =>
          sock := null;
        case Frame(head, body) =>
          var rtid, runit := Pair(head[0].b, head[1].b), head[6].b;
          if rtid != tid || runit != unit || body == [] || body[0].b % 128 != pdu[0] {
            sock := null;
            return;
          }
          Succeeded();
          mutes := mutes - {unit};
          var resp := [unit] + Untag(body);
          if body[0].b >= 128 || |resp| < expected {
            return;
          }
          out := Reply(resp);
          reply := body;
          assert Delivered(unit, pdu, expected, resp, id, reply) by {
            FrameDelivers(unit, pdu, expected, body, id);
          }
      }
    }

    /** One call, with all that went over the wire in it. */
    method Transact(unit: byte, pdu: seq<byte>, expected: nat, now: real)
      returns (out: Outcome, ghost reply: seq<Tagged>)
      requires Valid() && pdu != []
      modifies this, sock, wire
      ensures Valid()
      ensures old(wire.log) <= wire.log
      ensures CallRecord(wire.log[|old(wire.log)|..], old(sock) != null, old(retryAt) > now, old(nextId), nextId)
      ensures unit in old(mutes) && old(mutes)[unit].retryAt > now ==> wire.log == old(wire.log)
      ensures out.Reply? ==> nextId > old(nextId) && Delivered(unit, pdu, expected, out.resp, nextId - 1, reply)
    {
      hide CallRecord, TryRecord, Stale, Taken, AllPieces;
      out, reply := Failed, [];
      ghost var log := wire.log;
      NothingDone(sock != null, retryAt > now, nextId);
      if unit in mutes && mutes[unit].retryAt > now {
        assert wire.log[|log|..] == [];
        return;
      }
      var again;
      ghost var seg, x, seg2, y: seq<Event>;
      out, again, seg, x, reply := TryOnce(unit, pdu, expected, now, true);
      assert wire.log[|log|..] == seg;
      if !again {
        OneTry(seg, x, old(sock) != null, old(retryAt) > now, old(nextId));
        return;
      }
      out, again, seg2, y, reply := TryOnce(unit, pdu, expected, now, false);
      TwoTries(seg, x, seg2, y, old(retryAt) > now, old(nextId));
      assert wire.log[|log|..] == seg + seg2;
      if again {
        assert false;
      }
    }
  }
}
