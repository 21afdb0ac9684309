/**
 Any plan, blocks and pending sweeps included: how soon a lasting silence is noticed, and what the
 first pass is worth in which every request is answered again.
 */
module Silence {
  import opened Base
  import opened ReadPlan
  import opened PollEngine
  import opened PollInvariants
  import opened PollPublish

  // ------------------------------------------------- there is always someone to be missed

  predicate NotAllBroken(units: seq<ReadUnit>) {
    exists j :: 0 <= j < |units| && units[j].alive != Some(false)
  }

  /** Some unit is not known broken, or the failures on the count have reached the threshold. */
  predicate Hopeful(e: Env, s: Poll) {
    (s.passes > 0 && s.freshFails >= e.threshold) || NotAllBroken(s.units)
  }

  /** What part of a pass does to unit `i` and the count, if nothing was read and if something was. */
  predicate Heard(e: Env, s: Poll, i: nat, t: Poll, ok: bool) {
    && i < |s.units| == |t.units| && t.answered && t.units[i].alive == Some(true) && (ok || MayStop(e, t))
  }

  predicate Unheard(s: Poll, i: nat, t: Poll) {
    && i < |s.units| == |t.units|
    && t.answered == s.answered && t.units[i].alive == s.units[i].alive && t.freshFails >= s.freshFails
  }

  lemma SingleHeard(e: Env, s: Poll, i: nat, c: nat)
    requires i < |s.units|
    ensures var t := PollSingle(e, s, i, c);
            && t.units[i].channels == s.units[i].channels
            && (if SingleAnswers(e, s, c) then Heard(e, s, i, t, true) else Unheard(s, i, t))
    ensures var t := SweepHit(e, s, i, c);
            t.units[i].channels == s.units[i].channels && (SingleAnswers(e, s, c) ==> Heard(e, s, i, t, true))
  {
  }

  lemma StallHeard(e: Env, s: Poll, i: nat, j: nat, readNow: bool)
    requires i < |s.units| && j < |s.units[i].channels|
    ensures var (t, ok) := SweepStall(s, i, j, readNow);
            Unheard(s, i, t) && (ok ==> readNow) && (MayStop(e, t) <==> MayStop(e, s))
  {
  }

  lemma CloseHeard(s: Poll, i: nat)
    requires i < |s.units|
    ensures Unheard(s, i, CloseSweep(s, i))
  {
  }

  lemma {:induction false} SweepHeard(e: Env, s: Poll, i: nat, j: nat, readNow: bool)
    requires i < |s.units|
    ensures var (t, ok) := Sweep(e, s, i, j, readNow);
            || Heard(e, s, i, t, ok)
            || (Unheard(s, i, t) && (ok ==> readNow) && (!ok && readNow ==> MayStop(e, t)))
    decreases |s.units[i].channels| - j
  {
    hide SweepHit, PollSingle, SweepStall, CloseSweep, SingleAnswers, MayStop;
    var chans := s.units[i].channels;
    if j >= |chans| {
      CloseHeard(s, i);
    } else {
      SingleHeard(e, s, i, chans[j]);
      if SingleAnswers(e, s, chans[j]) {
        SweepHeard(e, SweepHit(e, s, i, chans[j]), i, j + 1, true);
      } else {
        var t := PollSingle(e, s, i, chans[j]);
        if MayStop(e, t) {
          StallHeard(e, t, i, j, readNow);
        } else {
          SweepHeard(e, t, i, j + 1, readNow);
        }
      }
    }
  }

  lemma BlockHeard(e: Env, s: Poll, i: nat)
    requires i < |s.units|
    ensures Heard(e, s, i, BlockOk(e, s, i), true) && Unheard(s, i, BlockFailed(s, i))
    ensures BlockFailed(s, i).units[i].channels == s.units[i].channels
  {
  }

  /** Reading one unit: something answered and the unit counts as read, or as the last one of a pass
      that stops; or nothing did, and only failures were added. */
  lemma UnitHeard(e: Env, s: Poll, i: nat)
    requires i < |s.units|
    ensures var (t, ok) := PollUnit(e, s, i); Heard(e, s, i, t, ok) || (!ok && Unheard(s, i, t))
  {
    hide PollSingle, BlockOk, BlockFailed, Sweep, SingleAnswers, BlockAnswers, MayStop;
    var u := s.units[i];
    if |u.channels| == 1 {
      SingleHeard(e, s, i, u.channels[0]);
    } else if u.sweepAt.Some? {
      SweepHeard(e, s, i, u.sweepAt.value, false);
    } else {
      BlockHeard(e, s, i);
      if !BlockAnswers(e, s, i) && !MayStop(e, BlockFailed(s, i)) {
        SweepHeard(e, BlockFailed(s, i), i, 0, false);
      }
    }
  }

  /** A pass that began in `s0`, has polled the first `k` units of `order` and has not stopped. */
  ghost predicate Hoping(s0: Poll, s: Poll, order: seq<nat>, k: nat) {
    && k <= |order| && |s.units| == |s0.units|
    && (forall x :: x in s.failed ==> x in order[..k])
    && (!s.answered ==>
          s.freshFails >= s0.freshFails && forall j :: 0 <= j < |s.units| ==> s.units[j].alive == s0.units[j].alive)
    && (s.answered ==> exists j :: j in order[..k] && j !in s.failed && j < |s.units| && s.units[j].alive == Some(true))
  }

  lemma HopingHeard(e: Env, s0: Poll, s: Poll, order: seq<nat>, k: nat)
    requires Hoping(s0, s, order, k) && k < |order| && order[k] < |s.units| && Distinct(order)
    ensures var (t, ok) := PollUnit(e, s, order[k]);
            var f := t.(failed := t.failed + [order[k]]);
            && (ok ==> Hoping(s0, t, order, k + 1))
            && (!ok && !MayStop(e, f) ==> Hoping(s0, f, order, k + 1))
            && (!ok && MayStop(e, f) ==> f.freshFails >= e.threshold)
  {
    var i := order[k];
    UnitHeard(e, s, i);
    PollUnitMoves(e, s, i);
    assert order[..k + 1] == order[..k] + [i];
    assert i !in order[..k];
    hide PollUnit, Distinct;
  }

  lemma HopingSize(s0: Poll, s: Poll, order: seq<nat>, k: nat)
    requires Hoping(s0, s, order, k)
    ensures |s.units| == |s0.units| && k <= |order|
  {
  }

  lemma {:induction false} HopingLoop(e: Env, s0: Poll, s: Poll, order: seq<nat>, k: nat)
    requires Hoping(s0, s, order, k) && Distinct(order)
    requires forall m :: 0 <= m < |order| ==> order[m] < |s.units|
    ensures var t := PassLoop(e, s, order, k);
            t.freshFails >= e.threshold || Hoping(s0, t, order, |order|)
    decreases |order| - k
  {
    hide Hoping, PollUnit, Distinct, MayStop, NextProbe, ChannelsOf;
    if k < |order| {
      HopingSize(s0, s, order, k);
      HopingHeard(e, s0, s, order, k);
      var (t, ok) := PollUnit(e, s, order[k]);
      if ok {
        HopingLoop(e, s0, t, order, k + 1);
      } else if !MayStop(e, t.(failed := t.failed + [order[k]])) {
        HopingLoop(e, s0, t.(failed := t.failed + [order[k]]), order, k + 1);
      }
    } else {
      HopingSize(s0, s, order, k);
    }
  }

  /** A split replaces a unit by fresh ones and leaves the others as they are. */
  lemma {:induction false} SplitKeepsHope(e: Env, units: seq<ReadUnit>, toSplit: seq<nat>, j: nat, x: nat)
    requires j <= x < |units| && units[x].alive != Some(false) && units[x].channels != []
    ensures NotAllBroken(SplitUnits(e, units, toSplit, j))
    decreases |units| - j
  {
    var front := if j in toSplit then SingleUnits(e, SortIds(units[j].channels)) else [units[j]];
    var rest := SplitUnits(e, units, toSplit, j + 1);
    if j < x {
      SplitKeepsHope(e, units, toSplit, j + 1, x);
      var y :| 0 <= y < |rest| && rest[y].alive != Some(false);
      assert (front + rest)[|front| + y] == rest[y];
    } else {
      assert SortIds(units[x].channels) != [];
      assert (front + rest)[0] == front[0] && front[0].alive != Some(false);
    }
  }

  lemma EndKeepsHope(e: Env, s0: Poll, t: Poll, order: seq<nat>)
    requires Hoping(s0, t, order, |order|) && Hopeful(e, s0) && SoundUnits(e, t.units)
    ensures Hopeful(e, EndPass(e, t))
  {
    hide SplitUnits;
    var units := if t.answered then MarkFailed(t.units, t.failed) else t.units;
    if t.freshFails < e.threshold {
      assert NotAllBroken(units);
      var j :| 0 <= j < |units| && units[j].alive != Some(false);
      SoundAt(e, t.units, j);
      SplitKeepsHope(e, units, t.toSplit, 0, j);
    }
  }

  lemma PassKeepsHope(e: Env, s: Poll)
    requires Inv(e, s) && Hopeful(e, s)
    ensures Hopeful(e, Pass(e, s))
  {
    var s0, order := StartPass(s), PassOrder(s);
    PassOrderShape(s);
    assert Hoping(s0, s0, order, 0);
    hide PassOrder, Distinct;
    PassLoopInv(e, s0, order, 0);
    HopingLoop(e, s0, s0, order, 0);
    var t := PassLoop(e, s0, order, 0);
    hide PassLoop, Hoping, SoundUnits, MarkFailed, SplitUnits;
    if t.freshFails < e.threshold {
      EndKeepsHope(e, s0, t, order);
    }
  }

  lemma FreshIsHopeful(e: Env, units: seq<ReadUnit>)
    requires Fresh(e, units) && units != []
    ensures Hopeful(e, Init(units))
  {
    assert units[0].alive != Some(false);
  }

  lemma {:induction false} RunIsHopeful(e: Env, units: seq<ReadUnit>, n: nat)
    requires Fresh(e, units) && units != []
    ensures var s := Run(e, Init(units), n); Inv(e, s) && Hopeful(e, s) && s.units != []
  {
    hide Pass, Inv, Hopeful;
    RunInv(e, units, n);
    UnitsRemain(e, units, n);
    if n > 0 {
      RunIsHopeful(e, units, n - 1);
      PassKeepsHope(e, Run(e, Init(units), n - 1));
    } else {
      FreshIsHopeful(e, units);
    }
  }

  // ------------------------------------------------------------------ noticing a silence

  /** Nothing is answered from request number `from` on. */
  ghost predicate Silent(e: Env, from: nat) {
    forall k: nat, r :: k >= from ==> !e.dev.answers(k, r)
  }

  lemma SilentSingle(e: Env, s: Poll, i: nat, c: nat)
    requires i < |s.units| && Silent(e, s.clock) && !s.answered
    ensures !SingleAnswers(e, s, c)
    ensures var t := PollSingle(e, s, i, c);
            && !t.answered && Silent(e, t.clock)
            && t.units == s.units
            && t.freshFails == s.freshFails + if s.units[i].alive == Some(false) then 0 else 1
  {
  }

  lemma {:induction false} SilentSweep(e: Env, s: Poll, i: nat, j: nat, readNow: bool)
    requires i < |s.units| && Silent(e, s.clock) && !s.answered
    ensures var t := Sweep(e, s, i, j, readNow).0;
            && !t.answered && t.freshFails >= s.freshFails
            && (j < |s.units[i].channels| && s.units[i].alive != Some(false) ==> t.freshFails > s.freshFails)
    decreases |s.units[i].channels| - j
  {
    hide SweepHit, PollSingle, SweepStall, CloseSweep, SingleAnswers, MayStop, Silent;
    var chans := s.units[i].channels;
    if j >= |chans| {
      CloseHeard(s, i);
    } else {
      SilentSingle(e, s, i, chans[j]);
      var t := PollSingle(e, s, i, chans[j]);
      if MayStop(e, t) {
        StallHeard(e, t, i, j, readNow);
      } else {
        SilentSweep(e, t, i, j + 1, readNow);
      }
    }
  }

  lemma SilentCounts(e: Env, s: Poll, i: nat)
    requires i < |s.units| && Silent(e, s.clock) && !s.answered && SoundUnits(e, s.units)
    ensures var t := PollUnit(e, s, i).0;
            && !t.answered && t.freshFails >= s.freshFails
            && (s.units[i].alive != Some(false) ==> t.freshFails > s.freshFails)
  {
    SoundAt(e, s.units, i);
    hide Sweep, SoundUnits;
    var u := s.units[i];
    if |u.channels| == 1 {
      SilentSingle(e, s, i, u.channels[0]);
    } else if u.sweepAt.Some? {
      SilentSweep(e, s, i, u.sweepAt.value, false);
    } else if !MayStop(e, BlockFailed(s, i)) {
      SilentSweep(e, BlockFailed(s, i), i, 0, false);
    }
  }

  /** A unit of a silent device: nothing was read, and a failure is on the count if the unit was not
      known broken. */
  lemma SilentUnit(e: Env, s: Poll, i: nat)
    requires i < |s.units| && Silent(e, s.clock) && !s.answered && SoundUnits(e, s.units)
    ensures var (t, ok) := PollUnit(e, s, i);
            && !ok && !t.answered && t.probing == s.probing && Silent(e, t.clock) && SoundUnits(e, t.units)
            && |t.units| == |s.units| && (forall j :: 0 <= j < |s.units| ==> t.units[j].alive == s.units[j].alive)
            && t.freshFails >= s.freshFails
            && (s.units[i].alive != Some(false) ==> t.freshFails > s.freshFails)
  {
    SilentCounts(e, s, i);
    UnitHeard(e, s, i);
    PollUnitMoves(e, s, i);
    PollUnitSound(e, s, i);
    hide PollUnit, SoundUnits, MayStop;
  }

  /** A silent pass over units from position `k` on. */
  lemma {:induction false} SilentLoop(e: Env, s: Poll, order: seq<nat>, k: nat)
    requires SoundUnits(e, s.units) && forall m :: 0 <= m < |order| ==> order[m] < |s.units|
    requires Silent(e, s.clock) && !s.probing && !s.answered && k <= |order|
    ensures var t := PassLoop(e, s, order, k);
            && Silent(e, t.clock) && !t.answered && t.freshFails >= s.freshFails
            && ((exists m :: k <= m < |order| && s.units[order[m]].alive != Some(false)) ==>
                 t.probing || t.freshFails > s.freshFails)
            && (k < |order| && s.passes > 0 ==> t.probing || t.freshFails < e.threshold)
    decreases |order| - k
  {
    hide PollUnit, SoundUnits, Silent, NextProbe, ChannelsOf;
    if k < |order| {
      SilentUnit(e, s, order[k]);
      PollUnitMoves(e, s, order[k]);
      var t := PollUnit(e, s, order[k]).0;
      var f := t.(failed := t.failed + [order[k]]);
      if !MayStop(e, f) {
        SilentLoop(e, f, order, k + 1);
      }
    }
  }

  /** A silent pass over a device not yet suspected: it stops, or there is a failure more. */
  lemma SilentPassCounts(e: Env, s: Poll)
    requires Inv(e, s) && Hopeful(e, s) && s.units != [] && Silent(e, s.clock) && !s.probing
    ensures var t := Pass(e, s);
            && Silent(e, t.clock)
            && (t.probing || (t.freshFails > s.freshFails && (s.passes > 0 ==> t.freshFails < e.threshold)))
  {
    var s0, order := StartPass(s), PassOrder(s);
    if NotAllBroken(s.units) {
      var j :| 0 <= j < |s.units| && s.units[j].alive != Some(false);
      OrderHas(s, j);
    }
    hide PassLoop, PassOrder, SplitUnits, Silent;
    SilentLoop(e, s0, order, 0);
  }

  lemma {:induction false} LoopClock(e: Env, s: Poll, order: seq<nat>, k: nat)
    requires forall m :: 0 <= m < |order| ==> order[m] < |s.units|
    ensures PassLoop(e, s, order, k).clock >= s.clock
    decreases |order| - k
  {
    hide PollUnit, MayStop;
    if k < |order| {
      PollUnitMoves(e, s, order[k]);
      var (t, ok) := PollUnit(e, s, order[k]);
      var f := t.(failed := t.failed + [order[k]]);
      if ok {
        LoopClock(e, t, order, k + 1);
      } else if !MayStop(e, f) {
        LoopClock(e, f, order, k + 1);
      }
    }
  }

  lemma ProbedPassStaysProbed(e: Env, s: Poll)
    requires Inv(e, s) && s.units != [] && Silent(e, s.clock) && s.probing
    ensures var t := Pass(e, s); Silent(e, t.clock) && t.probing && |t.asked| == 1
  {
    SilentPassAsksOnce(e, s);
    LoopClock(e, StartPass(s), PassOrder(s), 0);
    hide PassLoop, PassOrder, SplitUnits, Inv, ProbeRequest;
  }

  /** What `m` silent passes have achieved. */
  ghost predicate Suspecting(e: Env, s: Poll, m: nat) {
    && Inv(e, s) && Hopeful(e, s) && s.units != [] && Silent(e, s.clock)
    && (s.probing || (s.freshFails >= m && (m >= 1 ==> s.passes > 0) && (m >= 2 ==> s.freshFails < e.threshold)))
  }

  lemma SuspicionGrows(e: Env, s: Poll, m: nat)
    requires Suspecting(e, s, m)
    ensures Suspecting(e, Pass(e, s), m + 1)
  {
    PassInv(e, s);
    PassKeepsHope(e, s);
    PassCountsOne(e, s);
    UnitsStay(e, s, Pass(e, s));
    hide Pass, Inv, Hopeful, Silent;
    if s.probing {
      ProbedPassStaysProbed(e, s);
    } else {
      SilentPassCounts(e, s);
    }
  }

  lemma {:induction false} SilentRun(e: Env, s: Poll, m: nat)
    requires Suspecting(e, s, 0)
    ensures Suspecting(e, Run(e, s, m), m)
  {
    hide Pass, Suspecting;
    if m > 0 {
      SilentRun(e, s, m - 1);
      SuspicionGrows(e, Run(e, s, m - 1), m - 1);
    }
  }

  /** On any plan and from any state of any run, blocks and pending sweeps included: a silence that
      lasts is noticed within threshold + 1 passes, and from then on every pass costs exactly one
      request. */
  lemma SilenceIsNoticed(e: Env, units: seq<ReadUnit>, n: nat, m: nat)
    requires Fresh(e, units) && units != [] && e.threshold > 0
    requires Silent(e, Run(e, Init(units), n).clock)
    requires m > e.threshold
    ensures Run(e, Init(units), n + m).probing
    ensures |Run(e, Init(units), n + m + 1).asked| == 1
  {
    hide Pass, Inv, Hopeful, Silent;
    RunIsHopeful(e, units, n);
    SilentRun(e, Run(e, Init(units), n), m);
    RunContinues(e, Init(units), n, m);
    ProbedPassStaysProbed(e, Run(e, Init(units), n + m));
  }

  // ------------------------------------------------------------------ the device is back

  /** Every request numbered from `a` up to `b` is answered. */
  ghost predicate Answering(e: Env, a: nat, b: nat) {
    forall k: nat, r :: a <= k < b ==> e.dev.answers(k, r)
  }

  /** Nothing has been missed, and the device is not suspected. */
  predicate Clear(s: Poll) {
    s.answered && s.freshFails == 0 && !s.probing
  }

  /** Between the two states a request went to unit `i`. */
  predicate AskedOf(s: Poll, t: Poll, i: nat) {
    s.asked <= t.asked && exists q :: |s.asked| <= q < |t.asked| && t.asked[q].unit == i
  }

  lemma AnsweredSingle(e: Env, s: Poll, i: nat, c: nat)
    requires i < |s.units| && SingleAnswers(e, s, c)
    ensures forall t :: t == PollSingle(e, s, i, c) || t == SweepHit(e, s, i, c) ==>
      && Clear(t) && t.flags == s.flags && t.clock == s.clock + 1 && t.units[i].channels == s.units[i].channels
      && t.units[i].sweepAt == s.units[i].sweepAt && t.asked == s.asked + [Read(i, e.Single(c), true)]
  {
  }

  lemma ClosedClear(s: Poll, i: nat)
    requires i < |s.units|
    ensures var t := CloseSweep(s, i);
            && t.units[i].sweepAt == None && t.flags == s.flags && t.clock == s.clock && t.asked == s.asked
            && (Clear(t) <==> Clear(s))
  {
  }

  lemma SweepAsks(e: Env, s: Poll, i: nat, j: nat, readNow: bool)
    requires i < |s.units| && j < |s.units[i].channels|
    ensures Sweep(e, s, i, j, readNow).0.clock > s.clock
    ensures SingleAnswers(e, s, s.units[i].channels[j]) ==>
      Sweep(e, s, i, j, readNow) == Sweep(e, SweepHit(e, s, i, s.units[i].channels[j]), i, j + 1, true)
  {
    var c := s.units[i].channels[j];
    var t, h := PollSingle(e, s, i, c), SweepHit(e, s, i, c);
    assert t.clock == h.clock == s.clock + 1 && t.units[i].channels == s.units[i].channels;
    hide PollSingle, SweepHit, MayStop, CloseSweep, SingleAnswers;
    if SingleAnswers(e, s, c) {
      SweepMoves(e, h, i, j + 1, true);
    } else if MayStop(e, t) {
      SweepStallMoves(t, i, j, readNow);
    } else {
      SweepMoves(e, t, i, j + 1, readNow);
    }
  }

  /** In a sweep that is answered throughout the next channel answers. */
  lemma FirstAnswered(e: Env, s: Poll, i: nat, j: nat, readNow: bool)
    requires i < |s.units| && j < |s.units[i].channels|
    requires Answering(e, s.clock, Sweep(e, s, i, j, readNow).0.clock)
    ensures SingleAnswers(e, s, s.units[i].channels[j])
    ensures var h := SweepHit(e, s, i, s.units[i].channels[j]);
            && Sweep(e, s, i, j, readNow) == Sweep(e, h, i, j + 1, true)
            && Answering(e, h.clock, Sweep(e, s, i, j, readNow).0.clock)
  {
    SweepAsks(e, s, i, j, readNow);
    assert e.dev.answers(s.clock, e.Single(s.units[i].channels[j]));
    hide Sweep;
  }

  lemma {:induction false} AnsweredSweep(e: Env, s: Poll, i: nat, j: nat, readNow: bool)
    requires i < |s.units| && Answering(e, s.clock, Sweep(e, s, i, j, readNow).0.clock)
    requires j < |s.units[i].channels| || (readNow && Clear(s))
    ensures var (t, ok) := Sweep(e, s, i, j, readNow);
            && ok && Clear(t) && t.flags == s.flags && t.units[i].sweepAt == None
            && (j < |s.units[i].channels| ==> AskedOf(s, t, i))
    decreases |s.units[i].channels| - j
  {
    hide SweepHit, PollSingle, SweepStall, CloseSweep, MayStop;
    var chans := s.units[i].channels;
    SweepMoves(e, s, i, j, readNow);
    if j >= |chans| {
      ClosedClear(s, i);
    } else {
      FirstAnswered(e, s, i, j, readNow);
      AnsweredSingle(e, s, i, chans[j]);
      var h := SweepHit(e, s, i, chans[j]);
      hide Answering, SingleAnswers;
      SweepMoves(e, h, i, j + 1, true);
      assert h.asked[|s.asked|].unit == i;
      AnsweredSweep(e, h, i, j + 1, true);
    }
  }

  lemma BlockAsks(e: Env, s: Poll, i: nat)
    requires i < |s.units| && |s.units[i].channels| > 1 && s.units[i].sweepAt == None
    ensures PollUnit(e, s, i).0.clock > s.clock
  {
    var f := BlockFailed(s, i);
    assert f.clock == s.clock + 1;
    hide MayStop, Sweep;
    if !MayStop(e, f) {
      SweepMoves(e, f, i, 0, false);
    }
  }

  lemma BlockIsAnswered(e: Env, s: Poll, i: nat)
    requires i < |s.units| && |s.units[i].channels| > 1 && s.units[i].sweepAt == None
    requires Answering(e, s.clock, PollUnit(e, s, i).0.clock)
    ensures var (t, ok) := PollUnit(e, s, i);
            ok && Clear(t) && t.flags == s.flags && t.units[i].sweepAt == None && AskedOf(s, t, i)
  {
    BlockAsks(e, s, i);
    assert e.dev.answers(s.clock, Block(s.units[i]));
    assert PollUnit(e, s, i).0.asked[|s.asked|].unit == i;
  }

  /** A unit of a device that answers throughout. */
  lemma UnitAnswered(e: Env, s: Poll, i: nat)
    requires i < |s.units| && SoundUnits(e, s.units) && Answering(e, s.clock, PollUnit(e, s, i).0.clock)
    ensures var (t, ok) := PollUnit(e, s, i);
            ok && Clear(t) && t.flags == s.flags && t.units[i].sweepAt == None && AskedOf(s, t, i)
  {
    SoundAt(e, s.units, i);
    hide Sweep, SoundUnits, MayStop, CloseSweep;
    var u := s.units[i];
    if |u.channels| == 1 {
      assert SingleAnswers(e, s, u.channels[0]);
      AnsweredSingle(e, s, i, u.channels[0]);
      assert PollUnit(e, s, i).0.asked[|s.asked|].unit == i;
    } else if u.sweepAt.Some? {
      AnsweredSweep(e, s, i, u.sweepAt.value, false);
    } else {
      BlockIsAnswered(e, s, i);
    }
  }

  /** The units of `order` polled so far in such a pass. */
  ghost predicate Reading(s0: Poll, s: Poll, order: seq<nat>, k: nat) {
    && k <= |order| && |s.units| == |s0.units| && s.flags == s0.flags && s.failed == s0.failed
    && (k > 0 ==> Clear(s))
    && (forall m :: 0 <= m < k && order[m] < |s.units| ==>
          AskedOf(s0, s, order[m]) && s.units[order[m]].sweepAt == None)
    && s0.asked <= s.asked
  }

  lemma AskedStill(a: Poll, b: Poll, c: Poll, i: nat)
    requires AskedOf(a, b, i) && b.asked <= c.asked
    ensures AskedOf(a, c, i)
  {
    var q :| |a.asked| <= q < |b.asked| && b.asked[q].unit == i;
    assert c.asked[q] == b.asked[q];
  }

  lemma AskedSince(a: Poll, b: Poll, c: Poll, i: nat)
    requires a.asked <= b.asked && AskedOf(b, c, i)
    ensures AskedOf(a, c, i)
  {
  }

  lemma ReadingOn(e: Env, s0: Poll, s: Poll, order: seq<nat>, k: nat)
    requires Reading(s0, s, order, k) && k < |order| && order[k] < |s.units| && Distinct(order)
    requires SoundUnits(e, s.units) && Answering(e, s.clock, PollUnit(e, s, order[k]).0.clock)
    ensures var (t, ok) := PollUnit(e, s, order[k]); ok && Reading(s0, t, order, k + 1)
  {
    var i := order[k];
    UnitAnswered(e, s, i);
    PollUnitMoves(e, s, i);
    var t := PollUnit(e, s, i).0;
    hide PollUnit, SoundUnits, Answering;
    forall m | 0 <= m < k + 1 && order[m] < |t.units|
      ensures AskedOf(s0, t, order[m]) && t.units[order[m]].sweepAt == None
    {
      if m < k {
        assert order[m] != i;
        AskedStill(s0, s, t, order[m]);
      } else {
        AskedSince(s0, s, t, i);
      }
    }
  }

  lemma ReadingStarts(s0: Poll, s: Poll, order: seq<nat>, k: nat)
    requires Reading(s0, s, order, k)
    ensures k <= |order|
  {
  }

  lemma {:induction false} ReadingLoop(e: Env, s0: Poll, s: Poll, order: seq<nat>, k: nat)
    requires Reading(s0, s, order, k) && Distinct(order) && SoundUnits(e, s.units)
    requires forall m :: 0 <= m < |order| ==> order[m] < |s.units|
    requires Answering(e, s.clock, PassLoop(e, s, order, k).clock)
    ensures Reading(s0, PassLoop(e, s, order, k), order, |order|)
    decreases |order| - k
  {
    hide PollUnit, SoundUnits, Reading, Distinct, MayStop, NextProbe, ChannelsOf;
    if k < |order| {
      var (t, ok) := PollUnit(e, s, order[k]);
      var f := t.(failed := t.failed + [order[k]]);
      PollUnitMoves(e, s, order[k]);
      PollUnitSound(e, s, order[k]);
      if ok {
        LoopClock(e, t, order, k + 1);
      } else if !MayStop(e, f) {
        LoopClock(e, f, order, k + 1);
      }
      ReadingOn(e, s0, s, order, k);
      ReadingLoop(e, s0, t, order, k + 1);
    } else {
      ReadingStarts(s0, s, order, k);
    }
  }

  /** Some request of the pass went to unit `i`. */
  predicate WasAsked(t: Poll, i: nat) {
    exists q :: 0 <= q < |t.asked| && t.asked[q].unit == i
  }

  /** A pass from `s` to `t` that asked every unit, published every channel that no pending sweep had
      behind it and flagged none, and left no sweep pending, nothing on the count and no suspicion. */
  ghost predicate Complete(e: Env, s: Poll, t: Poll) {
    && Clear(t)
    && (forall i :: 0 <= i < |s.units| ==> WasAsked(t, i))
    && (forall c: nat :: c < |e.tpl| && !BehindSweep(s, c) ==> Published(t, c))
    && forall c: nat :: !BehindSweep(t, c)
  }

  lemma TouchIsPublished(t: Poll, c: nat)
    requires t.flags == [] && Touch(t, c) == 1
    ensures Published(t, c)
  {
  }

  lemma PassIsLoop(e: Env, s: Poll)
    ensures var t := PassLoop(e, StartPass(s), PassOrder(s), 0);
            var p := Pass(e, s);
            && p == EndPass(e, t) && p.clock == t.clock && p.flags == t.flags && p.asked == t.asked
            && (Clear(p) <==> Clear(t))
  {
    hide PassLoop, PassOrder, SplitUnits;
  }

  lemma AnsweredLoop(e: Env, s: Poll)
    requires Inv(e, s) && s.units != []
    requires Answering(e, s.clock, PassLoop(e, StartPass(s), PassOrder(s), 0).clock)
    ensures var t := PassLoop(e, StartPass(s), PassOrder(s), 0);
            && Clear(t) && t.flags == [] && t.failed == [] && |t.units| == |s.units|
            && forall i :: 0 <= i < |s.units| ==> t.units[i].sweepAt == None && WasAsked(t, i)
  {
    var s0, order := StartPass(s), PassOrder(s);
    var t := PassLoop(e, s0, order, 0);
    PassOrderShape(s);
    ReadingLoop(e, s0, s0, order, 0);
    assert Reading(s0, t, order, |order|);
    hide PassLoop, Distinct, Answering, Inv;
    forall i | 0 <= i < |s.units| ensures t.units[i].sweepAt == None && WasAsked(t, i) {
      OrderHas(s, i);
      var m :| 0 <= m < |s.units| && order[m] == i;
      assert AskedOf(s0, t, order[m]);
    }
  }

  lemma NoSweepLeft(e: Env, t: Poll)
    requires t.failed == [] && forall i :: 0 <= i < |t.units| ==> t.units[i].sweepAt == None
    ensures forall c: nat :: !BehindSweep(EndPass(e, t), c)
  {
    var units := if t.answered then MarkFailed(t.units, t.failed) else t.units;
    var r := EndPass(e, t).units;
    forall x | 0 <= x < |r| ensures r[x].sweepAt == None {
      SplitMember(e, units, t.toSplit, 0, x);
    }
  }

  lemma AnsweredPass(e: Env, s: Poll)
    requires Inv(e, s) && s.units != [] && Answering(e, s.clock, Pass(e, s).clock)
    ensures Complete(e, s, Pass(e, s))
  {
    PassIsLoop(e, s);
    hide Pass, PassLoop, PassOrder, EndPass, BehindSweep, Answering, Inv, Touch;
    var t := PassLoop(e, StartPass(s), PassOrder(s), 0);
    AnsweredLoop(e, s);
    NoSweepLeft(e, t);
    forall i | 0 <= i < |s.units| ensures WasAsked(Pass(e, s), i) {
      assert WasAsked(t, i);
    }
    forall c: nat | c < |e.tpl| && !BehindSweep(s, c) ensures Published(Pass(e, s), c) {
      PassTouch(e, s, c);
      TouchIsPublished(Pass(e, s), c);
    }
  }

  /** On any plan and from any state of any run, however the silence before it left blocks and sweeps:
      a pass in which every request is answered is complete; and the next such pass publishes every
      channel, no sweep being pending then. */
  lemma AnsweredPassIsComplete(e: Env, units: seq<ReadUnit>, n: nat)
    requires Fresh(e, units) && units != []
    requires var s := Run(e, Init(units), n); Answering(e, s.clock, Pass(e, s).clock)
    ensures Complete(e, Run(e, Init(units), n), Run(e, Init(units), n + 1))
  {
    hide Pass, Complete, Answering, Inv;
    RunInv(e, units, n);
    UnitsRemain(e, units, n);
    AnsweredPass(e, Run(e, Init(units), n));
  }
}
