/**
 The port cycle (`PortCycleScheduler.run`, `_classic_slice` of bridge_device.py): event
 bursts have priority, classic polling gets what is left, and a balancing counter forces
 a classic slice when events have used too much time. Bookkeeping between turns takes no
 time in the model; bursts and slices take as long as they like.
 */
module PortCycle {
  import opened Base

  const MAX_POLL_TIME := 0.1
  const BALANCING_THRESHOLD := 0.5
  const SMALL := 0.005
  const IDLE_GAP := 0.05
  const SILENT_PAUSE := 2.0

  /** The loop variables, with the clock. */
  datatype Cycle = Cycle(now: real, nextEvents: real, nextPoll: real, accum: real, tooSmall: bool)

  /** What one turn's work turns out to be: its duration, whether a slice touched the bus, and
      whether the events have been silent for long. */
  datatype Work = Work(spent: real, did: bool, silent: bool)

  function MinR(a: real, b: real): real {
    if a < b then a else b
  }

  function MaxR(a: real, b: real): real {
    if a < b then b else a
  }

  /** Wait for the next deadline, at most MAX_POLL_TIME; idle time after a slice that did
      nothing counts as event time. */
  function Wake(s: Cycle, hasFmb: bool): Cycle {
    var deadline := if hasFmb then MinR(s.nextEvents, s.nextPoll) else s.nextPoll;
    var wait := MinR(MaxR(0.0, deadline - s.now), MAX_POLL_TIME);
    s.(now := s.now + wait, accum := if s.tooSmall then s.accum + wait else s.accum)
  }

  predicate Forced(s: Cycle) {
    s.accum >= BALANCING_THRESHOLD
  }

  predicate DoesEvents(s: Cycle, hasFmb: bool) {
    hasFmb && s.now >= s.nextEvents && !Forced(s)
  }

  function Burst(s: Cycle, w: Work, period: real): Cycle {
    var end := s.now + w.spent;
    Cycle(end, if w.silent then end + SILENT_PAUSE else s.now + period, s.nextPoll, s.accum + w.spent, false)
  }

  function Slice(s: Cycle, w: Work, hasFmb: bool): Cycle {
    var small := !w.did || w.spent < SMALL;
    Cycle(s.now + w.spent,
          if hasFmb && s.nextEvents < s.now then s.now else s.nextEvents,
          if small then s.now + IDLE_GAP else s.now,
          if Forced(s) then 0.0 else s.accum,
          small)
  }

  function Turn(s: Cycle, w: Work, period: real, hasFmb: bool): Cycle {
    var t := Wake(s, hasFmb);
    if DoesEvents(t, hasFmb) then Burst(t, w, period) else Slice(t, w, hasFmb)
  }

  /** The scheduler's loop, one turn at a time. */
  class Scheduler {
    const period: real
    var now: real
    var nextEvents: real
    var nextPoll: real
    var highTimeAccum: real
    var lastTooSmall: bool

    function State(): Cycle
      reads this
    {
      Cycle(now, nextEvents, nextPoll, highTimeAccum, lastTooSmall)
    }

    constructor (period: real, now: real)
      ensures this.period == period && State() == Cycle(now, now, now, 0.0, false)
    {
      this.period, this.now := period, now;
      nextEvents, nextPoll, highTimeAccum, lastTooSmall := now, now, 0.0, false;
    }

    method RunTurn(work: Work, hasFmb: bool) returns (events: bool)
      modifies this
      ensures State() == Turn(old(State()), work, period, hasFmb)
      ensures events == DoesEvents(Wake(old(State()), hasFmb), hasFmb)
    {
      var deadline := if hasFmb then MinR(nextEvents, nextPoll) else nextPoll;
      var wait := MinR(MaxR(0.0, deadline - now), MAX_POLL_TIME);
      if lastTooSmall {
        highTimeAccum := highTimeAccum + wait;
      }
      now := now + wait;
      var forcePoll := highTimeAccum >= BALANCING_THRESHOLD;
      events := hasFmb && now >= nextEvents && !forcePoll;
      var t0 := now;
      now := now + work.spent;
      if events {
        highTimeAccum := highTimeAccum + work.spent;
        nextEvents := t0 + period;
        lastTooSmall := false;
        if work.silent {
          nextEvents := now + SILENT_PAUSE;
        }
      } else {
        if forcePoll {
          highTimeAccum := 0.0;
        }
        if !work.did || work.spent < SMALL {
          lastTooSmall := true;
          nextPoll := t0 + IDLE_GAP;
        } else {
          lastTooSmall := false;
          nextPoll := t0;
        }
        if hasFmb && nextEvents < t0 {
          nextEvents := t0;
        }
      }
    }
  }

  // ------------------------------------------------------------------------- whole runs

  /** Durations are not negative. */
  ghost predicate Real(ws: seq<Work>) {
    forall k :: 0 <= k < |ws| ==> ws[k].spent >= 0.0
  }

  function Run(s: Cycle, ws: seq<Work>, period: real): Cycle {
    if ws == [] then s else Turn(Run(s, ws[..|ws| - 1], period), ws[|ws| - 1], period, true)
  }

  /** The turn after `ws` is an event burst. */
  predicate BurstNext(s: Cycle, ws: seq<Work>, period: real) {
    DoesEvents(Wake(Run(s, ws, period), true), true)
  }

  /** Every turn of `ws` is an event burst. */
  ghost predicate AllBursts(s: Cycle, ws: seq<Work>, period: real) {
    forall k :: 0 <= k < |ws| ==> BurstNext(s, ws[..k], period)
  }

  /** Holds at the start and after every turn: polling is due soon. */
  predicate Settled(s: Cycle) {
    s.nextPoll <= s.now + IDLE_GAP && s.accum >= 0.0
  }

  lemma TurnSettles(s: Cycle, w: Work, period: real, hasFmb: bool)
    requires Settled(s) && w.spent >= 0.0
    ensures Settled(Turn(s, w, period, hasFmb)) && Turn(s, w, period, hasFmb).now >= s.now
  {
  }

  /** Turns of which some find no events configured. */
  function RunFrom(s: Cycle, ws: seq<Work>, fmb: seq<bool>, period: real): Cycle
    requires |fmb| == |ws|
  {
    if ws == [] then s else
      var k := |ws| - 1;
      Turn(RunFrom(s, ws[..k], fmb[..k], period), ws[k], period, fmb[k])
  }

  lemma {:induction false} RunSettles(s: Cycle, ws: seq<Work>, fmb: seq<bool>, period: real)
    requires Settled(s) && Real(ws) && |fmb| == |ws|
    ensures Settled(RunFrom(s, ws, fmb, period))
  {
    if ws != [] {
      var k := |ws| - 1;
      RunSettles(s, ws[..k], fmb[..k], period);
      TurnSettles(RunFrom(s, ws[..k], fmb[..k], period), ws[k], period, fmb[k]);
    }
  }

  /** After `k` bursts in a row, the first begun at `t1`, the last at `t`: every burst from the
      second on that was followed by another has put at least one period on the counter. */
  ghost predicate Bursting(s: Cycle, k: nat, t1: real, t: real, period: real) {
    && s.now >= t >= t1
    && s.nextEvents >= t + period && s.nextPoll <= t1 + IDLE_GAP
    && s.accum >= s.now - t && !s.tooSmall
    && (k >= 2 ==> t >= t1 + period && s.accum >= (k - 2) as real * period + (s.now - t))
  }

  lemma FirstBurst(s: Cycle, w: Work, period: real)
    requires Settled(s) && w.spent >= 0.0 && IDLE_GAP <= period <= SILENT_PAUSE
    requires DoesEvents(Wake(s, true), true)
    ensures Bursting(Turn(s, w, period, true), 1, Wake(s, true).now, Wake(s, true).now, period)
  {
  }

  lemma OneMore(k: nat, period: real)
    requires k >= 2
    ensures (k - 1) as real * period == (k - 2) as real * period + period
  {
  }

  lemma NextBurst(s: Cycle, w: Work, k: nat, t1: real, t: real, period: real)
    requires Bursting(s, k, t1, t, period) && k >= 1 && w.spent >= 0.0 && IDLE_GAP <= period <= SILENT_PAUSE
    requires DoesEvents(Wake(s, true), true)
    ensures Bursting(Turn(s, w, period, true), k + 1, t1, Wake(s, true).now, period)
    ensures k >= 2 ==> (k - 1) as real * period < BALANCING_THRESHOLD
  {
    if k >= 2 {
      OneMore(k, period);
    }
  }

  lemma {:induction false} BurstsInARow(s: Cycle, ws: seq<Work>, period: real) returns (t1: real, t: real)
    requires Settled(s) && Real(ws) && ws != [] && AllBursts(s, ws, period) && IDLE_GAP <= period <= SILENT_PAUSE
    ensures Bursting(Run(s, ws, period), |ws|, t1, t, period)
    ensures |ws| >= 3 ==> (|ws| - 2) as real * period < BALANCING_THRESHOLD
  {
    hide Turn, Wake, Bursting;
    var before, w := ws[..|ws| - 1], ws[|ws| - 1];
    var u := Run(s, before, period);
    assert BurstNext(s, before, period);
    if before == [] {
      FirstBurst(s, w, period);
      t1, t := Wake(s, true).now, Wake(s, true).now;
    } else {
      assert forall k :: 0 <= k < |before| ==> before[..k] == ws[..k];
      var t0;
      t1, t0 := BurstsInARow(s, before, period);
      NextBurst(u, w, |before|, t1, t0, period);
      t := Wake(u, true).now;
    }
  }

  lemma Grow(a: real, b: real, c: real)
    requires a <= b && c > 0.0
    ensures a * c <= b * c
  {
  }

  lemma DivideBoth(k: int, period: real)
    requires period > 0.0 && k as real * period < BALANCING_THRESHOLD
    ensures k as real < BALANCING_THRESHOLD / period
  {
    if k as real >= BALANCING_THRESHOLD / period {
      Grow(BALANCING_THRESHOLD / period, k as real, period);
    }
  }

  /** Between two classic slices, from any state a run can be in, fewer than T / P + 2 event
      bursts are run, however long each takes. */
  lemma ClassicIsNotStarved(s: Cycle, ws: seq<Work>, period: real)
    requires Settled(s) && Real(ws) && AllBursts(s, ws, period) && IDLE_GAP <= period <= SILENT_PAUSE
    ensures |ws| as real < BALANCING_THRESHOLD / period + 2.0
  {
    hide AllBursts, Settled, Real, Bursting, Run;
    if |ws| >= 3 {
      var t1, t := BurstsInARow(s, ws, period);
      DivideBoth(|ws| - 2, period);
    }
  }

  /** The same at any point of a run from its start, whether or not events are configured yet. */
  lemma NeverStarved(now: real, before: seq<Work>, fmb: seq<bool>, ws: seq<Work>, period: real)
    requires |fmb| == |before| && Real(before) && Real(ws) && IDLE_GAP <= period <= SILENT_PAUSE
    requires AllBursts(RunFrom(Cycle(now, now, now, 0.0, false), before, fmb, period), ws, period)
    ensures |ws| as real < BALANCING_THRESHOLD / period + 2.0
  {
    RunSettles(Cycle(now, now, now, 0.0, false), before, fmb, period);
    hide AllBursts, Settled, Real, RunFrom;
    ClassicIsNotStarved(RunFrom(Cycle(now, now, now, 0.0, false), before, fmb, period), ws, period);
  }

  /** The other way round: an event poll that is due waits for one slice at most. A slice is run in
      its place only when the counter forces it, and then the counter starts again. */
  lemma DueEventsWaitOneSlice(s: Cycle, w: Work, period: real)
    requires w.spent >= 0.0
    requires var t := Wake(s, true); t.now >= t.nextEvents && !DoesEvents(t, true)
    ensures DoesEvents(Wake(Turn(s, w, period, true), true), true)
    ensures Turn(s, w, period, true).accum == 0.0
  {
    var t := Wake(s, true);
    var u := Slice(t, w, true);
    assert u.nextEvents == t.now <= u.now && u.accum == 0.0;
  }

  // --------------------------------------------------------------------- the classic slice

  /** What the pollers do during one slice: who is backing off, how long each pass takes, and whose
      pass raises. */
  datatype Bus = Bus(backoff: seq<bool>, cost: seq<real>, raises: seq<bool>)

  predicate ForPollers(bus: Bus, n: nat) {
    |bus.backoff| == |bus.cost| == |bus.raises| == n
  }

  /** The k-th poller of a slice that starts at `idx`: (idx + k) % n. */
  function Nth(idx: nat, k: nat, n: nat): (p: nat)
    requires idx < n && k <= n
    ensures p < n
  {
    if idx + k < n then idx + k else idx + k - n
  }

  /** Where in that slice a poller comes. */
  function Place(idx: nat, p: nat, n: nat): nat
    requires idx < n && p < n
  {
    if p >= idx then p - idx else p - idx + n
  }

  lemma NthIsRemainder(idx: nat, k: nat, n: nat)
    requires idx < n && k <= n
    ensures Nth(idx, k, n) == (idx + k) % n
  {
    Wraps(idx + k, n);
  }

  function Cost(bus: Bus, p: nat): real {
    if p < |bus.cost| then bus.cost[p] else 0.0
  }

  /** A pass that was long enough to have been on the bus, and did not raise. */
  predicate OnBus(bus: Bus, p: nat) {
    p < |bus.raises| && !bus.raises[p] && Cost(bus, p) >= SMALL
  }

  /** How long the polls took together. */
  function Total(bus: Bus, polled: seq<nat>): real {
    if polled == [] then 0.0 else Total(bus, polled[..|polled| - 1]) + Cost(bus, polled[|polled| - 1])
  }

  /** The last poll began within the time. */
  predicate TimeBoxed(bus: Bus, polled: seq<nat>, budget: real) {
    polled != [] ==> Total(bus, polled[..|polled| - 1]) < budget
  }

  ghost predicate UsedBus(bus: Bus, polled: seq<nat>) {
    exists k :: 0 <= k < |polled| && OnBus(bus, polled[k])
  }

  /** `polled` are the pollers not backing off among the first `i` places, each once, the poller
      whose turn it is first. */
  ghost predicate Swept(bus: Bus, idx: nat, i: nat, polled: seq<nat>) {
    var n := |bus.backoff|;
    && idx < n && i <= n && ForPollers(bus, n)
    && (forall k :: 0 <= k < |polled| ==> polled[k] < n && !bus.backoff[polled[k]] && Place(idx, polled[k], n) < i)
    && (forall a, b :: 0 <= a < b < |polled| ==> polled[a] != polled[b])
    && (forall k :: 0 <= k < i && !bus.backoff[Nth(idx, k, n)] ==> Nth(idx, k, n) in polled)
    && (i > 0 && !bus.backoff[idx] ==> polled != [] && polled[0] == idx)
  }

  /** A slice after `i` places: who was polled, for how long, whether the bus was used. */
  ghost predicate Slicing(bus: Bus, idx: nat, i: nat, polled: seq<nat>, elapsed: real, didBus: bool,
                          budget: real, readAtLeastOne: bool) {
    && Swept(bus, idx, i, polled)
    && elapsed == Total(bus, polled) && (didBus <==> UsedBus(bus, polled))
    && (!readAtLeastOne ==> TimeBoxed(bus, polled, budget))
    && (i == 0 ==> elapsed == 0.0)
  }

  lemma SlicingBegins(bus: Bus, idx: nat, budget: real, readAtLeastOne: bool)
    requires idx < |bus.backoff| && ForPollers(bus, |bus.backoff|)
    ensures Slicing(bus, idx, 0, [], 0.0, false, budget, readAtLeastOne)
  {
  }

  lemma SlicingSkips(bus: Bus, idx: nat, i: nat, polled: seq<nat>, elapsed: real, didBus: bool,
                     budget: real, readAtLeastOne: bool)
    requires Slicing(bus, idx, i, polled, elapsed, didBus, budget, readAtLeastOne)
    requires i < |bus.backoff| && bus.backoff[Nth(idx, i, |bus.backoff|)]
    ensures Slicing(bus, idx, i + 1, polled, elapsed, didBus, budget, readAtLeastOne)
  {
    hide Total, UsedBus, TimeBoxed;
  }

  lemma SlicingPolls(bus: Bus, idx: nat, i: nat, polled: seq<nat>, elapsed: real, didBus: bool,
                     budget: real, readAtLeastOne: bool)
    requires Slicing(bus, idx, i, polled, elapsed, didBus, budget, readAtLeastOne)
    requires i < |bus.backoff| && !bus.backoff[Nth(idx, i, |bus.backoff|)]
    requires !readAtLeastOne ==> elapsed < budget
    ensures var p := Nth(idx, i, |bus.backoff|);
      Slicing(bus, idx, i + 1, polled + [p], elapsed + Cost(bus, p), didBus || OnBus(bus, p), budget, readAtLeastOne)
  {
    SweptOne(bus, idx, i, polled);
    OneMorePolled(bus, polled, Nth(idx, i, |bus.backoff|), budget);
    hide Swept, Total, UsedBus, TimeBoxed, OnBus;
  }

  lemma SlicingEnds(bus: Bus, idx: nat, i: nat, polled: seq<nat>, elapsed: real, didBus: bool,
                    budget: real, readAtLeastOne: bool)
    requires Slicing(bus, idx, i, polled, elapsed, didBus, budget, readAtLeastOne)
    ensures Swept(bus, idx, i, polled) && (didBus <==> UsedBus(bus, polled)) && elapsed == Total(bus, polled)
    ensures !readAtLeastOne ==> TimeBoxed(bus, polled, budget)
    ensures i == 0 ==> elapsed == 0.0
  {
  }

  lemma SweptOne(bus: Bus, idx: nat, i: nat, polled: seq<nat>)
    requires Swept(bus, idx, i, polled) && i < |bus.backoff|
    ensures var p := Nth(idx, i, |bus.backoff|);
      Swept(bus, idx, i + 1, if bus.backoff[p] then polled else polled + [p])
  {
  }

  lemma SweptAll(bus: Bus, idx: nat, polled: seq<nat>, p: nat)
    requires Swept(bus, idx, |bus.backoff|, polled) && p < |bus.backoff| && !bus.backoff[p]
    ensures p in polled
  {
    assert p == Nth(idx, Place(idx, p, |bus.backoff|), |bus.backoff|);
  }

  lemma OneMorePolled(bus: Bus, polled: seq<nat>, p: nat, budget: real)
    ensures Total(bus, polled) < budget ==> TimeBoxed(bus, polled + [p], budget)
    ensures Total(bus, polled + [p]) == Total(bus, polled) + Cost(bus, p)
    ensures UsedBus(bus, polled + [p]) <==> UsedBus(bus, polled) || OnBus(bus, p)
  {
    var more := polled + [p];
    assert more[..|polled|] == polled && more[|polled|] == p;
    if k :| 0 <= k < |polled| && OnBus(bus, polled[k]) {
      assert more[k] == polled[k];
    }
  }

  class Rotation {
    var pollIdx: nat

    constructor ()
      ensures pollIdx == 0
    {
      pollIdx := 0;
    }

    /** One time-boxed pass over the pollers, starting one further each time. A slice that must
        read at least one goes on past its time until the bus was used or everyone was tried. */
    method ClassicSlice(n: nat, budget: real, readAtLeastOne: bool, bus: Bus)
      returns (polled: seq<nat>, didBus: bool, ghost tried: nat)
      requires ForPollers(bus, n) && budget > 0.0 && (n > 0 ==> pollIdx < n)
      modifies this
      ensures n == 0 ==> polled == [] && !didBus && pollIdx == old(pollIdx)
      ensures n > 0 ==> pollIdx == Nth(old(pollIdx), 1, n)
      ensures n > 0 ==> Swept(bus, old(pollIdx), tried, polled) && tried > 0 && (didBus <==> UsedBus(bus, polled))
      ensures n > 0 && tried < n ==> Total(bus, polled) >= budget && (didBus || !readAtLeastOne)
      ensures n > 0 && !readAtLeastOne ==> TimeBoxed(bus, polled, budget)
    {
      hide Nth, Slicing, Swept, Total, UsedBus, TimeBoxed;
      polled, didBus, tried := [], false, 0;
      if n == 0 {
        return;
      }
      var elapsed := 0.0;
      var i := 0;
      SlicingBegins(bus, pollIdx, budget, readAtLeastOne);
      while i < n
        invariant i <= n && pollIdx == old(pollIdx)
        invariant Slicing(bus, pollIdx, i, polled, elapsed, didBus, budget, readAtLeastOne)
      {
        if elapsed >= budget && (didBus || !readAtLeastOne) {
          break;
        }
        var p := Nth(pollIdx, i, n);
        if bus.backoff[p] {
          SlicingSkips(bus, pollIdx, i, polled, elapsed, didBus, budget, readAtLeastOne);
        } else {
          SlicingPolls(bus, pollIdx, i, polled, elapsed, didBus, budget, readAtLeastOne);
          polled := polled + [p];
          elapsed := elapsed + bus.cost[p];
          if !bus.raises[p] && bus.cost[p] >= SMALL {
            didBus := true;
          }
        }
        i := i + 1;
      }
      tried := i;
      SlicingEnds(bus, pollIdx, i, polled, elapsed, didBus, budget, readAtLeastOne);
      pollIdx := Nth(pollIdx, 1, n);
    }
  }

  /** A slice as the rotation runs it. */
  datatype SliceRecord = SliceRecord(idx: nat, backoff: seq<bool>, polled: seq<nat>)

  ghost predicate IsRotation(n: nat, slices: seq<SliceRecord>) {
    && n > 0
    && (forall k :: 0 <= k < |slices| ==> slices[k].idx < n && |slices[k].backoff| == n)
    && (forall k :: 0 <= k < |slices| ==> TurnKept(slices[k]))
    && forall k :: 0 < k < |slices| ==> slices[k].idx == Nth(slices[k - 1].idx, 1, n)
  }

  predicate TurnKept(s: SliceRecord) {
    s.idx < |s.backoff| && (!s.backoff[s.idx] ==> s.idx in s.polled)
  }

  /** The poller is polled in this slice, unless it is backing off. */
  predicate HadItsTurn(s: SliceRecord, q: nat) {
    q < |s.backoff| && (s.backoff[q] || q in s.polled)
  }

  ghost predicate Served(slices: seq<SliceRecord>, q: nat) {
    exists k :: 0 <= k < |slices| && HadItsTurn(slices[k], q)
  }

  lemma {:induction false} IndexAfter(n: nat, slices: seq<SliceRecord>, k: nat)
    requires IsRotation(n, slices) && k < |slices| && k < n
    ensures slices[k].idx == Nth(slices[0].idx, k, n)
  {
    if k > 0 {
      IndexAfter(n, slices, k - 1);
      assert Nth(Nth(slices[0].idx, k - 1, n), 1, n) == Nth(slices[0].idx, k, n);
    }
  }

  /** In any n consecutive slices each of the n pollers has its turn, and is polled in it
      unless it is backing off just then. */
  lemma EveryPollerHasItsTurn(n: nat, slices: seq<SliceRecord>, q: nat) returns (k: nat)
    requires IsRotation(n, slices) && |slices| == n && q < n
    ensures k < n && slices[k].idx == q && HadItsTurn(slices[k], q)
    ensures Served(slices, q)
  {
    var idx := slices[0].idx;
    k := Place(idx, q, n);
    assert Nth(idx, k, n) == q;
    IndexAfter(n, slices, k);
    assert TurnKept(slices[k]);
  }

  lemma Extend(n: nat, slices: seq<SliceRecord>, last: SliceRecord)
    requires IsRotation(n, slices) && last.idx < n && |last.backoff| == n && TurnKept(last)
    requires slices != [] ==> last.idx == Nth(slices[|slices| - 1].idx, 1, n)
    ensures IsRotation(n, slices + [last])
  {
  }

  /** Slice after slice of the cycle; n of them give each of the n pollers its turn. */
  method RunSlices(rotation: Rotation, n: nat, budget: real, forced: seq<bool>, buses: seq<Bus>)
    returns (slices: seq<SliceRecord>)
    requires 0 < n && rotation.pollIdx < n && budget > 0.0 && |forced| == |buses|
    requires forall k :: 0 <= k < |buses| ==> ForPollers(buses[k], n)
    modifies rotation
    ensures |slices| == |buses| && IsRotation(n, slices)
    ensures forall k :: 0 <= k < |slices| ==> slices[k].backoff == buses[k].backoff
    ensures |buses| == n ==> forall q :: 0 <= q < n ==> Served(slices, q)
  {
    slices := [];
    while |slices| < |buses|
      invariant |slices| <= |buses| && rotation.pollIdx < n
      invariant IsRotation(n, slices)
      invariant slices != [] ==> rotation.pollIdx == Nth(slices[|slices| - 1].idx, 1, n)
      invariant forall k :: 0 <= k < |slices| ==> slices[k].backoff == buses[k].backoff
    {
      var at, bus := rotation.pollIdx, buses[|slices|];
      var polled, didBus, tried := rotation.ClassicSlice(n, budget, forced[|slices|], bus);
      Extend(n, slices, SliceRecord(at, bus.backoff, polled));
      slices := slices + [SliceRecord(at, bus.backoff, polled)];
    }
    if |buses| == n {
      forall q | 0 <= q < n ensures Served(slices, q) {
        var k := EveryPollerHasItsTurn(n, slices, q);
      }
    }
  }
}
