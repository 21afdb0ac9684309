/**
 A device that serves every single read but refuses some blocks: no value is lost in any
 pass, and every refused block is gone after the second one. The threshold has to be at
 least two for that; with a threshold of one the second pass stops at the first refusal.
 */
module RefusedBlocks {
  import opened Base
  import opened ReadPlan
  import opened PollEngine
  import opened PollInvariants
  import opened PollPublish

  /** Every channel can be read alone, at any time. */
  ghost predicate Serves(e: Env) {
    forall k: nat, c: nat :: e.dev.answers(k, e.Single(c))
  }

  predicate Refused(e: Env, u: ReadUnit) {
    |u.channels| > 1 && !e.dev.answers(0, Block(u))
  }

  predicate NoneRefused(e: Env, units: seq<ReadUnit>) {
    forall j :: 0 <= j < |units| ==> !Refused(e, units[j])
  }

  // --------------------------------------------------------------------- one unit

  lemma HitServes(e: Env, s: Poll, i: nat, c: nat)
    requires i < |s.units| && SingleAnswers(e, s, c)
    ensures var t := SweepHit(e, s, i, c);
            && t.flags == s.flags && t.toSplit == s.toSplit && t.freshFails == 0 && !t.probing && t.units[i].sweepOk
            && t.units[i].channels == s.units[i].channels && t.units[i].splitStreak == s.units[i].splitStreak
  {
  }

  lemma {:induction false} SweepServes(e: Env, s: Poll, i: nat, j: nat, readNow: bool)
    requires Serves(e) && i < |s.units| && j <= |s.units[i].channels|
    requires j == |s.units[i].channels| ==> s.units[i].sweepOk && s.freshFails == 0 && !s.probing && readNow
    ensures var (t, ok) := Sweep(e, s, i, j, readNow);
            && ok && t.flags == s.flags && t.freshFails == 0 && !t.probing
            && t.units[i].sweepAt == None && t.units[i].splitStreak == s.units[i].splitStreak + 1
            && t.toSplit == if s.units[i].splitStreak + 1 >= 2 then s.toSplit + [i] else s.toSplit
    decreases |s.units[i].channels| - j
  {
    var chans := s.units[i].channels;
    if j < |chans| {
      assert SingleAnswers(e, s, chans[j]);
      HitServes(e, s, i, chans[j]);
      hide SweepHit, PollSingle, SweepStall, CloseSweep, MayStop, SingleAnswers;
      SweepServes(e, SweepHit(e, s, i, chans[j]), i, j + 1, true);
    }
  }

  /** A unit no sweep is pending on, while the pass has no failure on the count. */
  predicate Untroubled(s: Poll, i: nat) {
    i < |s.units| && s.units[i].channels != [] && s.units[i].sweepAt == None && s.freshFails == 0 && !s.probing
  }

  lemma ServedUnit(e: Env, s: Poll, i: nat)
    requires Steady(e) && Serves(e) && Untroubled(s, i) && !Refused(e, s.units[i])
    ensures var (t, ok) := PollUnit(e, s, i);
            && ok && t.flags == s.flags && t.freshFails == 0 && !t.probing
            && t.units[i].sweepAt == None && t.toSplit == s.toSplit
  {
    if |s.units[i].channels| == 1 {
      assert SingleAnswers(e, s, s.units[i].channels[0]);
    } else {
      assert BlockAnswers(e, s, i);
    }
  }

  lemma RefusedUnit(e: Env, s: Poll, i: nat)
    requires Steady(e) && Serves(e) && Untroubled(s, i) && Refused(e, s.units[i])
    requires e.threshold >= 2 || s.passes == 0
    ensures var (t, ok) := PollUnit(e, s, i);
            && ok && t.flags == s.flags && t.freshFails == 0 && !t.probing
            && t.units[i].sweepAt == None && t.units[i].splitStreak == s.units[i].splitStreak + 1
            && t.toSplit == if s.units[i].splitStreak + 1 >= 2 then s.toSplit + [i] else s.toSplit
  {
    var t := BlockFailed(s, i);
    assert !BlockAnswers(e, s, i) && !MayStop(e, t);
    SweepServes(e, t, i, 0, false);
  }

  // ------------------------------------------------------------------------ one pass

  /** The refused blocks that have been tried before. */
  predicate Due2(e: Env, u: ReadUnit) {
    Refused(e, u) && u.splitStreak + 1 >= 2
  }

  /** A pass that began in `s0` and has polled the first `k` units. */
  ghost predicate Serving(e: Env, s0: Poll, s: Poll, k: nat) {
    && k <= |s0.units| && SameShape(s0.units, s.units) && s.passes == s0.passes
    && s.flags == [] && s.failed == [] && s.freshFails == 0 && !s.probing
    && (forall j :: 0 <= j < |s.units| ==> s.units[j].sweepAt == None)
    && (forall j :: k <= j < |s.units| ==> s.units[j] == s0.units[j])
    && (forall j :: 0 <= j < k && Refused(e, s.units[j]) ==> s.units[j].splitStreak == s0.units[j].splitStreak + 1)
    && (forall j: nat :: j in s.toSplit <==> j < k && Due2(e, s0.units[j]))
  }

  lemma ServingStep(e: Env, s0: Poll, s: Poll, k: nat)
    requires Steady(e) && Serves(e) && Serving(e, s0, s, k) && k < |s.units| && s.units[k].channels != []
    requires !Refused(e, s0.units[k]) || e.threshold >= 2 || s0.passes == 0
    ensures PollUnit(e, s, k).1 && Serving(e, s0, PollUnit(e, s, k).0, k + 1)
  {
    var t := PollUnit(e, s, k).0;
    PollUnitMoves(e, s, k);
    if Refused(e, s.units[k]) {
      RefusedUnit(e, s, k);
    } else {
      ServedUnit(e, s, k);
    }
    hide PollUnit;
    assert Plain(t.units[k]) == Plain(s0.units[k]);
    assert Refused(e, t.units[k]) == Refused(e, s.units[k]);
    forall j: nat ensures j in t.toSplit <==> j < k + 1 && Due2(e, s0.units[j]) {
      if t.toSplit == s.toSplit + [k] {
        assert j in t.toSplit <==> j in s.toSplit || j == k;
      }
    }
  }

  lemma {:induction false} ServingLoop(e: Env, s0: Poll, s: Poll, order: seq<nat>, k: nat)
    requires Steady(e) && Serves(e) && Serving(e, s0, s, k) && SoundUnits(e, s.units)
    requires |order| == |s.units| == |s0.units| && forall m :: 0 <= m < |order| ==> order[m] == m
    requires k <= |order| && (e.threshold >= 2 || s0.passes == 0 || NoneRefused(e, s0.units))
    ensures Serving(e, s0, PassLoop(e, s, order, k), |order|)
    decreases |order| - k
  {
    hide PollUnit, SoundUnits, Serving, MayStop, StopPass;
    if k < |order| {
      SoundAt(e, s.units, k);
      ServingStep(e, s0, s, k);
      PollUnitSound(e, s, k);
      ServingLoop(e, s0, PollUnit(e, s, k).0, order, k + 1);
    }
  }

  /** Between passes: a refused block has been tried in every pass so far, and no block
      survives two refusals. */
  ghost predicate Tried(e: Env, s: Poll) {
    && Inv(e, s) && !s.probing && s.freshFails == 0
    && (forall j :: 0 <= j < |s.units| ==> s.units[j].sweepAt == None)
    && forall j :: 0 <= j < |s.units| && Refused(e, s.units[j]) ==> s.passes < 2 && s.units[j].splitStreak == s.passes
  }

  lemma TriedAfter(e: Env, s0: Poll, t: Poll)
    requires Serving(e, s0, t, |s0.units|) && Inv(e, EndPass(e, t))
    requires forall j :: 0 <= j < |s0.units| && Refused(e, s0.units[j]) ==>
      s0.passes < 2 && s0.units[j].splitStreak == s0.passes
    ensures Tried(e, EndPass(e, t))
    ensures NoneRefused(e, s0.units) ==> NoneRefused(e, EndPass(e, t).units)
  {
    var units := if t.answered then MarkFailed(t.units, t.failed) else t.units;
    assert units == t.units;
    var r := EndPass(e, t);
    forall x | 0 <= x < |r.units|
      ensures r.units[x].sweepAt == None
      ensures Refused(e, r.units[x]) ==> r.passes < 2 && r.units[x].splitStreak == r.passes
      ensures Refused(e, r.units[x]) ==> !NoneRefused(e, s0.units)
    {
      SplitMember(e, t.units, t.toSplit, 0, x);
      if |r.units[x].channels| > 1 {
        var m :| 0 <= m < |t.units| && m !in t.toSplit && r.units[x] == t.units[m];
        assert Plain(t.units[m]) == Plain(s0.units[m]);
      }
    }
  }

  lemma TriedPass(e: Env, s: Poll)
    requires Steady(e) && Serves(e) && Tried(e, s)
    requires e.threshold >= 2 || s.passes == 0 || NoneRefused(e, s.units)
    ensures Tried(e, Pass(e, s)) && Pass(e, s).flags == []
    ensures NoneRefused(e, s.units) ==> NoneRefused(e, Pass(e, s).units)
  {
    var s0, order := StartPass(s), PassOrder(s);
    PassInv(e, s);
    ServingLoop(e, s0, s0, order, 0);
    TriedAfter(e, s0, PassLoop(e, s0, order, 0));
  }

  lemma TriedInit(e: Env, units: seq<ReadUnit>)
    requires Fresh(e, units)
    ensures Tried(e, Init(units))
  {
    InitInv(e, units);
  }

  lemma {:induction false} TriedRun(e: Env, units: seq<ReadUnit>, n: nat)
    requires Steady(e) && Serves(e) && Fresh(e, units)
    requires e.threshold >= 2 || n <= 1 || NoneRefused(e, units)
    ensures Tried(e, Run(e, Init(units), n)) && Run(e, Init(units), n).passes == n
    ensures NoneRefused(e, units) ==> NoneRefused(e, Run(e, Init(units), n).units)
  {
    hide Pass, Tried, NoneRefused;
    if n == 0 {
      TriedInit(e, units);
    } else {
      var s := Run(e, Init(units), n - 1);
      TriedRun(e, units, n - 1);
      TriedPass(e, s);
      RunInv(e, units, n - 1);
      PassCountsOne(e, s);
    }
  }

  lemma PublishedInPass(e: Env, s: Poll, c: nat)
    requires Steady(e) && Serves(e) && Tried(e, s) && c < |e.tpl|
    requires e.threshold >= 2 || s.passes == 0 || NoneRefused(e, s.units)
    ensures Published(Pass(e, s), c)
  {
    TriedPass(e, s);
    assert !BehindSweep(s, c);
    PassTouch(e, s, c);
  }

  /** Threshold two or more, or nothing refused: every pass publishes every channel exactly once and
      flags none, and after two passes no refused block is left in the plan. */
  lemma NoValueIsLost(e: Env, units: seq<ReadUnit>, n: nat, c: nat)
    requires Steady(e) && Serves(e) && Fresh(e, units) && (e.threshold >= 2 || NoneRefused(e, units)) && c < |e.tpl|
    ensures n > 0 ==> Published(Run(e, Init(units), n), c)
    ensures n >= 2 ==> NoneRefused(e, Run(e, Init(units), n).units)
  {
    hide Pass;
    TriedRun(e, units, n);
    if n > 0 {
      TriedRun(e, units, n - 1);
      PublishedInPass(e, Run(e, Init(units), n - 1), c);
    }
  }

  // ------------------------------------------------------------------ threshold of one

  ghost predicate FirstRefused(e: Env, units: seq<ReadUnit>, f: nat) {
    f < |units| && Refused(e, units[f]) && forall j :: 0 <= j < f ==> !Refused(e, units[j])
  }

  lemma {:induction false} FindFirstRefused(e: Env, units: seq<ReadUnit>, k: nat) returns (f: nat)
    requires k < |units| && Refused(e, units[k])
    ensures FirstRefused(e, units, f)
  {
    if j :| 0 <= j < k && Refused(e, units[j]) {
      f := FindFirstRefused(e, units, j);
    } else {
      f := k;
    }
  }

  predicate NoneBroken(units: seq<ReadUnit>) {
    forall j :: 0 <= j < |units| ==> units[j].alive != Some(false)
  }

  lemma ServingUnpolled(e: Env, s0: Poll, s: Poll, k: nat)
    requires Serving(e, s0, s, k) && k < |s.units|
    ensures s.units[k] == s0.units[k] && s.units[k].sweepAt == None && s.passes == s0.passes
  {
  }

  lemma RefusalFlags(e: Env, s: Poll, i: nat)
    requires Steady(e) && i < |s.units| && Refused(e, s.units[i]) && s.units[i].sweepAt == None
    requires e.threshold == 1 && s.passes > 0 && s.units[i].alive != Some(false)
    ensures var (t, ok) := PollUnit(e, s, i); !ok && MayStop(e, t) && t.flags == s.flags + s.units[i].channels
  {
    assert !BlockAnswers(e, s, i);
  }

  lemma {:induction false} StopsAtRefusal(e: Env, s0: Poll, s: Poll, order: seq<nat>, k: nat, f: nat)
    requires Steady(e) && Serves(e) && Serving(e, s0, s, k) && SoundUnits(e, s.units)
    requires |order| == |s.units| == |s0.units| && forall m :: 0 <= m < |order| ==> order[m] == m
    requires e.threshold == 1 && s0.passes > 0
    requires k <= f && FirstRefused(e, s0.units, f) && NoneBroken(s0.units)
    ensures PassLoop(e, s, order, k).flags != []
    decreases f - k
  {
    hide PollUnit, SoundUnits, Serving, NextProbe, ChannelsOf;
    SoundAt(e, s.units, k);
    if k < f {
      ServingStep(e, s0, s, k);
      PollUnitSound(e, s, k);
      StopsAtRefusal(e, s0, PollUnit(e, s, k).0, order, k + 1, f);
    } else {
      ServingUnpolled(e, s0, s, k);
      RefusalFlags(e, s, k);
    }
  }

  lemma AliveInStep(e: Env, s: Poll, i: nat, c: nat)
    requires i < |s.units| && s.units[i].alive != Some(false)
    ensures var u := PollSingle(e, s, i, c).units[i]; u.alive != Some(false) && u.channels == s.units[i].channels
    ensures var u := SweepHit(e, s, i, c).units[i]; u.alive != Some(false) && u.channels == s.units[i].channels
  {
  }

  lemma CloseKeepsMark(s: Poll, i: nat)
    requires i < |s.units|
    ensures i < |CloseSweep(s, i).units| && CloseSweep(s, i).units[i].alive == s.units[i].alive
  {
  }

  lemma StallKeepsMark(s: Poll, i: nat, j: nat, readNow: bool)
    requires i < |s.units| && j < |s.units[i].channels|
    ensures SweepStall(s, i, j, readNow).0.units[i].alive == s.units[i].alive
  {
  }

  lemma {:induction false} AliveInSweep(e: Env, s: Poll, i: nat, j: nat, readNow: bool)
    requires i < |s.units| && s.units[i].alive != Some(false)
    ensures Sweep(e, s, i, j, readNow).0.units[i].alive != Some(false)
    decreases |s.units[i].channels| - j
  {
    hide SweepHit, PollSingle, MayStop, SweepStall, SingleAnswers, CloseSweep;
    var chans := s.units[i].channels;
    CloseKeepsMark(s, i);
    if j < |chans| {
      AliveInStep(e, s, i, chans[j]);
      var t := PollSingle(e, s, i, chans[j]);
      StallKeepsMark(t, i, j, readNow);
      if SingleAnswers(e, s, chans[j]) {
        AliveInSweep(e, SweepHit(e, s, i, chans[j]), i, j + 1, true);
      } else if !MayStop(e, t) {
        AliveInSweep(e, t, i, j + 1, readNow);
      }
    }
  }

  lemma AliveInUnit(e: Env, s: Poll, i: nat)
    requires i < |s.units| && s.units[i].alive != Some(false)
    ensures PollUnit(e, s, i).0.units[i].alive != Some(false)
  {
    var u := s.units[i];
    hide Sweep;
    if |u.channels| != 1 {
      if u.sweepAt.Some? {
        AliveInSweep(e, s, i, u.sweepAt.value, false);
      } else if !BlockAnswers(e, s, i) {
        AliveInSweep(e, BlockFailed(s, i), i, 0, false);
      }
    }
  }

  lemma {:induction false} AliveInLoop(e: Env, s: Poll, order: seq<nat>, k: nat)
    requires forall m :: 0 <= m < |order| ==> order[m] < |s.units|
    requires NoneBroken(s.units)
    ensures NoneBroken(PassLoop(e, s, order, k).units)
    decreases |order| - k
  {
    if k < |order| {
      PollUnitMoves(e, s, order[k]);
      AliveInUnit(e, s, order[k]);
      var (t, ok) := PollUnit(e, s, order[k]);
      var f := t.(failed := t.failed + [order[k]]);
      assert NoneBroken(t.units);
      hide PollUnit, NoneBroken;
      if ok {
        AliveInLoop(e, t, order, k + 1);
      } else if !MayStop(e, f) {
        AliveInLoop(e, f, order, k + 1);
      }
    }
  }

  lemma HasMember(xs: seq<nat>)
    requires xs != []
    ensures exists j :: j in xs
  {
    assert xs[0] in xs;
  }

  lemma NothingDue(e: Env, s0: Poll, t: Poll)
    requires Serving(e, s0, t, |s0.units|)
    requires forall j :: 0 <= j < |s0.units| ==> s0.units[j].splitStreak == 0
    ensures t.toSplit == []
  {
    if t.toSplit != [] {
      HasMember(t.toSplit);
    }
  }

  /** After the first pass of a serving device nothing is marked broken and nothing is split. */
  lemma FirstPassKeepsPlan(e: Env, units: seq<ReadUnit>)
    requires Steady(e) && Serves(e) && Fresh(e, units)
    ensures var s := Pass(e, Init(units));
            SameShape(units, s.units) && NoneBroken(s.units)
  {
    var s0 := StartPass(Init(units));
    var order := PassOrder(Init(units));
    InitInv(e, units);
    ServingLoop(e, s0, s0, order, 0);
    AliveInLoop(e, s0, order, 0);
    var t := PassLoop(e, s0, order, 0);
    NothingDue(e, s0, t);
    SplitNothing(e, t.units, 0);
    assert MarkFailed(t.units, []) == t.units && t.units[0..] == t.units;
  }

  /** Every pass of the run publishes every channel once and flags none. */
  ghost predicate Lossless(e: Env, units: seq<ReadUnit>) {
    forall n: nat, c: nat :: n > 0 && c < |e.tpl| ==> Published(Run(e, Init(units), n), c)
  }

  lemma FlagsAreLosses(s: Poll, c: nat)
    requires s.flags != []
    ensures !Published(s, c)
  {
  }

  lemma SecondPassFlags(e: Env, s: Poll, k: nat)
    requires Steady(e) && Serves(e) && Tried(e, s) && e.threshold == 1 && s.passes == 1
    requires k < |s.units| && Refused(e, s.units[k])
    requires NoneBroken(s.units)
    ensures Pass(e, s).flags != []
  {
    var f := FindFirstRefused(e, s.units, k);
    StopsAtRefusal(e, StartPass(s), StartPass(s), PassOrder(s), 0, f);
  }

  /** Threshold one: the second pass leaves channels unread whenever the plan holds a refused block. */
  lemma ThresholdOneLosesValues(e: Env, units: seq<ReadUnit>, k: nat)
    requires Steady(e) && Serves(e) && Fresh(e, units) && e.threshold == 1
    requires k < |units| && Refused(e, units[k])
    ensures Run(e, Init(units), 2).flags != []
  {
    FirstPassKeepsPlan(e, units);
    TriedRun(e, units, 1);
    hide Pass;
    var s := Run(e, Init(units), 1);
    assert Run(e, Init(units), 0) == Init(units);
    assert s == Pass(e, Init(units));
    assert Refused(e, s.units[k]) by {
      assert Plain(s.units[k]) == Plain(units[k]);
    }
    SecondPassFlags(e, s, k);
    assert Run(e, Init(units), 2) == Pass(e, s);
  }

  lemma LossyWhen(e: Env, units: seq<ReadUnit>, k: nat)
    requires Steady(e) && Serves(e) && Fresh(e, units) && e.threshold == 1
    requires k < |units| && Refused(e, units[k])
    ensures !Lossless(e, units)
  {
    var c := units[k].channels[0];
    assert WellFormed(e.tpl, units[k]) && c < |e.tpl|;
    hide Run, Pass, Published, Fresh, Steady, Serves, WellFormed;
    ThresholdOneLosesValues(e, units, k);
    FlagsAreLosses(Run(e, Init(units), 2), c);
  }

  /** Exactly when no value is lost, over all thresholds: at least two, or nothing is refused. */
  lemma LosslessIff(e: Env, units: seq<ReadUnit>)
    requires Steady(e) && Serves(e) && Fresh(e, units) && e.threshold >= 1
    ensures Lossless(e, units) <==> e.threshold >= 2 || NoneRefused(e, units)
  {
    if e.threshold >= 2 || NoneRefused(e, units) {
      hide Run, Pass, Published, Fresh, Steady, Serves, NoneRefused;
      forall n: nat, c: nat | n > 0 && c < |e.tpl| ensures Published(Run(e, Init(units), n), c) {
        NoValueIsLost(e, units, n, c);
      }
    } else {
      var k :| 0 <= k < |units| && Refused(e, units[k]);
      LossyWhen(e, units, k);
    }
  }
}
