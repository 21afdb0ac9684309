/**
 The pass of a template device as a function of the poller's state and the device
 (`poll_io`, `_note_read`, `_pass_order`, `_next_probe`, `_may_stop`, `_poll_unit`,
 `_sweep_singles`, `_split_units` of bridge_template.py).

 The device is a register memory and the set of requests it answers, both free to
 change from one request to the next: requests are numbered over the whole run, so
 one device value describes any behaviour on the wire.
 */
module PollEngine {
  import opened Base
  import opened ReadPlan

  datatype Request = Request(regType: RegType, start: int, count: int)

  /** `answers(k, r)`: whether request number `k`, if it is `r`, is answered;
      `memory(k, t, a)`: what address `a` holds when request number `k` is served. */
  datatype Device = Device(answers: (nat, Request) -> bool, memory: (nat, RegType, int) -> int) {
    function Contents(k: nat, r: Request): (w: seq<int>)
      ensures |w| == Max(0, r.count)
    {
      seq(Max(0, r.count), i requires 0 <= i => memory(k, r.regType, r.start + i))
    }
  }

  /** The template, `offline_after_fails`, and the device. */
  datatype Env = Env(tpl: seq<Channel>, threshold: nat, dev: Device) {
    /** Plans only hold channels of the template; the default is never read. */
    function At(c: nat): Channel {
      if c < |tpl| then tpl[c] else Channel(Input, 0, U16)
    }

    function Single(c: nat): Request {
      Request(At(c).regType, At(c).address, At(c).Words())
    }
  }

  datatype Read = Read(unit: nat, req: Request, ok: bool)

  /** A value published for a channel, read by request number `via`. */
  datatype Publication = Publication(ch: nat, words: seq<int>, via: nat)

  datatype Poll = Poll(
    units: seq<ReadUnit>, probe: Option<nat>, probing: bool, freshFails: nat, passes: nat, clock: nat,
    // of the latest pass
    answered: bool, failed: seq<nat>, toSplit: seq<nat>,
    asked: seq<Read>, pubs: seq<Publication>, flags: seq<nat>)

  function Init(units: seq<ReadUnit>): Poll {
    Poll(units, None, false, 0, 0, 0, false, [], [], [], [], [])
  }

  function Head(u: ReadUnit): nat {
    if u.channels == [] then 0 else u.channels[0]
  }

  function Block(u: ReadUnit): Request {
    Request(u.regType, u.start, u.count)
  }

  /** Feed one read's outcome to the stop and probe state. */
  function NoteRead(s: Poll, i: nat, req: Request, ok: bool): (r: Poll)
    requires i < |s.units|
    ensures |r.units| == |s.units|
  {
    var t := s.(clock := s.clock + 1, asked := s.asked + [Read(i, req, ok)]);
    if ok then
      t.(freshFails := 0, probing := false, answered := true, probe := Some(Head(s.units[i])),
         units := s.units[i := s.units[i].(alive := Some(true))])
    else if s.units[i].alive != Some(false) then t.(freshFails := s.freshFails + 1)
    else t
  }

  predicate MayStop(e: Env, s: Poll) {
    s.passes > 0 && s.freshFails >= e.threshold
  }

  predicate SingleAnswers(e: Env, s: Poll, c: nat) {
    e.dev.answers(s.clock, e.Single(c))
  }

  /** One channel read by itself: published, or flagged stale. */
  function PollSingle(e: Env, s: Poll, i: nat, c: nat): (r: Poll)
    requires i < |s.units|
    ensures |r.units| == |s.units|
  {
    var ok := SingleAnswers(e, s, c);
    var t := NoteRead(s, i, e.Single(c), ok);
    if ok then t.(pubs := s.pubs + [Publication(c, e.dev.Contents(s.clock, e.Single(c)), s.clock)])
    else t.(flags := s.flags + [c])
  }

  function SetUnit(s: Poll, i: nat, u: ReadUnit): Poll
    requires i < |s.units|
  {
    s.(units := s.units[i := u])
  }

  /** A sweep that reached the end closes the block attempt. */
  function CloseSweep(s: Poll, i: nat): Poll
    requires i < |s.units|
  {
    var u := s.units[i].(sweepAt := None);
    if u.sweepOk then
      var t := SetUnit(s, i, u.(splitStreak := u.splitStreak + 1));
      if u.splitStreak + 1 >= 2 then t.(toSplit := s.toSplit + [i]) else t
    else SetUnit(s, i, u.(splitStreak := 0))
  }

  /** A channel of the sweep that answered. */
  function SweepHit(e: Env, s: Poll, i: nat, c: nat): (r: Poll)
    requires i < |s.units|
    ensures |r.units| == |s.units|
  {
    var t := PollSingle(e, s, i, c);
    SetUnit(t, i, t.units[i].(sweepOk := true))
  }

  /** The pass stops at channel `j` of the sweep: keep it pending at the next channel, or
      close it when there is none. */
  function SweepStall(s: Poll, i: nat, j: nat, readNow: bool): (r: (Poll, bool))
    requires i < |s.units| && j < |s.units[i].channels|
    ensures |r.0.units| == |s.units|
  {
    var chans := s.units[i].channels;
    var f := s.(flags := s.flags + chans[j + 1..]);
    if j + 1 < |chans| then (SetUnit(f, i, f.units[i].(sweepAt := Some(j + 1))), false)
    else (CloseSweep(f, i), readNow)
  }

  /** Read a refused block's channels one by one from `j`. The second result: did this
      call read a channel (a stall reports false whatever it read). */
  function Sweep(e: Env, s: Poll, i: nat, j: nat, readNow: bool): (r: (Poll, bool))
    requires i < |s.units|
    ensures |r.0.units| == |s.units|
    decreases |s.units[i].channels| - j
  {
    var chans := s.units[i].channels;
    if j >= |chans| then (CloseSweep(s, i), readNow)
    else if SingleAnswers(e, s, chans[j]) then Sweep(e, SweepHit(e, s, i, chans[j]), i, j + 1, true)
    else
      var t := PollSingle(e, s, i, chans[j]);
      if MayStop(e, t) then SweepStall(t, i, j, readNow) else Sweep(e, t, i, j + 1, readNow)
  }

  /** The slice of a block's data that belongs to one of its channels. */
  function Slice(data: seq<int>, off: int, n: nat): seq<int> {
    if 0 <= off && off + n <= |data| then data[off..off + n] else []
  }

  function SlicePubs(e: Env, u: ReadUnit, data: seq<int>, via: nat): (r: seq<Publication>)
    ensures |r| == |u.channels|
  {
    seq(|u.channels|, k requires 0 <= k < |u.channels| =>
      Publication(u.channels[k], Slice(data, e.At(u.channels[k]).address - u.start, e.At(u.channels[k]).Words()), via))
  }

  predicate BlockAnswers(e: Env, s: Poll, i: nat)
    requires i < |s.units|
  {
    e.dev.answers(s.clock, Block(s.units[i]))
  }

  /** A block read that was answered: every channel gets its slice. */
  function BlockOk(e: Env, s: Poll, i: nat): (r: Poll)
    requires i < |s.units|
    ensures |r.units| == |s.units|
  {
    var t := NoteRead(s, i, Block(s.units[i]), true);
    var data := e.dev.Contents(s.clock, Block(s.units[i]));
    SetUnit(t, i, t.units[i].(splitStreak := 0)).(pubs := s.pubs + SlicePubs(e, s.units[i], data, s.clock))
  }

  /** A block read that was not: the sweep is armed. */
  function BlockFailed(s: Poll, i: nat): (r: Poll)
    requires i < |s.units|
    ensures |r.units| == |s.units|
  {
    NoteRead(SetUnit(s, i, s.units[i].(sweepAt := Some(0), sweepOk := false)), i, Block(s.units[i]), false)
  }

  /** Read one unit; the second result: at least one value was read. */
  function PollUnit(e: Env, s: Poll, i: nat): (r: (Poll, bool))
    requires i < |s.units|
    ensures |r.0.units| == |s.units|
  {
    var u := s.units[i];
    if |u.channels| == 1 then (PollSingle(e, s, i, u.channels[0]), SingleAnswers(e, s, u.channels[0]))
    else if u.sweepAt == None then
      if BlockAnswers(e, s, i) then (BlockOk(e, s, i), true)
      else
        var t := BlockFailed(s, i);
        if MayStop(e, t) then (t.(flags := t.flags + u.channels), false)
        else Sweep(e, t, i, 0, false)
    else Sweep(e, s, i, u.sweepAt.value, false)
  }

  // ---------------------------------------------------------------------- the probe

  function FindUnit(units: seq<ReadUnit>, c: nat, j: nat): (r: nat)
    ensures units != [] ==> r < |units|
    decreases |units| - j
  {
    if j >= |units| then 0 else if Head(units[j]) == c then j else FindUnit(units, c, j + 1)
  }

  function ProbeIndex(s: Poll): (r: nat)
    ensures s.units != [] ==> r < |s.units|
  {
    if s.probe.Some? then FindUnit(s.units, s.probe.value, 0) else 0
  }

  /** Template order, or the probe first while the device is silent. */
  function PassOrder(s: Poll): (order: seq<nat>)
    ensures |order| == |s.units|
    ensures forall k :: 0 <= k < |order| ==> order[k] < |s.units|
  {
    var n := |s.units|;
    if !s.probing || n == 0 then seq(n, k requires 0 <= k => k)
    else
      var first := ProbeIndex(s);
      [first] + seq(n - 1, k requires 0 <= k => if k < first then k else k + 1)
  }

  /** Some unit answered the last time the device was answering. */
  predicate Known(units: seq<ReadUnit>) {
    exists j :: 0 <= j < |units| && units[j].alive == Some(true)
  }

  function NextFrom(units: seq<ReadUnit>, i: nat, step: nat): (r: nat)
    requires i < |units|
    ensures r < |units|
    decreases |units| - step
  {
    var j := (i + step) % |units|;
    if step >= |units| then i
    else if units[j].alive == Some(true) || !Known(units) then j
    else NextFrom(units, i, step + 1)
  }

  /** The unit the next window reads first, after a failed read at unit `i` stopped the pass.
      A search that comes round to `i` itself ends there, found or not. */
  function NextProbe(units: seq<ReadUnit>, i: nat): (r: nat)
    requires i < |units|
    ensures r < |units|
  {
    if units[i].sweepAt.Some? then i else NextFrom(units, i, 1)
  }

  // ----------------------------------------------------------------------- the pass

  function ChannelsOf(units: seq<ReadUnit>, order: seq<nat>): seq<nat> {
    if order == [] then []
    else (if order[0] < |units| then units[order[0]].channels else []) + ChannelsOf(units, order[1..])
  }

  /** Give up on the device: choose the next probe, flag what the pass skips. */
  function StopPass(s: Poll, i: nat, rest: seq<nat>): Poll
    requires i < |s.units|
  {
    s.(probe := if s.probing then Some(Head(s.units[NextProbe(s.units, i)])) else s.probe,
       probing := true,
       flags := s.flags + ChannelsOf(s.units, rest))
  }

  /** Poll the units of `order` from position `k` on. */
  function PassLoop(e: Env, s: Poll, order: seq<nat>, k: nat): (r: Poll)
    requires forall m :: 0 <= m < |order| ==> order[m] < |s.units|
    ensures |r.units| == |s.units|
    decreases |order| - k
  {
    if k >= |order| then s
    else
      var (t, ok) := PollUnit(e, s, order[k]);
      if ok then PassLoop(e, t, order, k + 1)
      else
        var f := t.(failed := t.failed + [order[k]]);
        if MayStop(e, f) then StopPass(f, order[k], order[k + 1..])
        else PassLoop(e, f, order, k + 1)
  }

  /** A failure while the device answers is the channel's. */
  function MarkFailed(units: seq<ReadUnit>, failed: seq<nat>): (r: seq<ReadUnit>)
    ensures |r| == |units|
  {
    seq(|units|, j requires 0 <= j < |units| => if j in failed then units[j].(alive := Some(false)) else units[j])
  }

  function SingleUnit(e: Env, c: nat): ReadUnit {
    ReadUnit([c], e.At(c).regType, e.At(c).address, e.At(c).Words(), c, 0, None, false, None)
  }

  function InsertId(ids: seq<nat>, c: nat): seq<nat> {
    if ids == [] then [c] else if c < ids[0] then [c] + ids else [ids[0]] + InsertId(ids[1..], c)
  }

  function SortIds(ids: seq<nat>): seq<nat> {
    if ids == [] then [] else InsertId(SortIds(ids[1..]), ids[0])
  }

  function SingleUnits(e: Env, ids: seq<nat>): (r: seq<ReadUnit>)
    ensures |r| == |ids|
  {
    seq(|ids|, k requires 0 <= k < |ids| => SingleUnit(e, ids[k]))
  }

  /** Replace each unit of `toSplit`, numbered from `j`, by its channels' single reads. */
  function SplitUnits(e: Env, units: seq<ReadUnit>, toSplit: seq<nat>, j: nat): seq<ReadUnit>
    decreases |units| - j
  {
    if j >= |units| then []
    else (if j in toSplit then SingleUnits(e, SortIds(units[j].channels)) else [units[j]])
         + SplitUnits(e, units, toSplit, j + 1)
  }

  function StartPass(s: Poll): Poll {
    s.(answered := false, failed := [], toSplit := [], asked := [], pubs := [], flags := [])
  }

  function EndPass(e: Env, s: Poll): Poll {
    var units := if s.answered then MarkFailed(s.units, s.failed) else s.units;
    s.(units := SplitUnits(e, units, s.toSplit, 0), passes := s.passes + 1)
  }

  function Pass(e: Env, s: Poll): Poll {
    EndPass(e, PassLoop(e, StartPass(s), PassOrder(s), 0))
  }

  /** The state after `n` passes. */
  function Run(e: Env, s: Poll, n: nat): Poll {
    if n == 0 then s else Pass(e, Run(e, s, n - 1))
  }
}
