/**
 A live device with broken channels, on a single-channel plan: some units always answer,
 the others never do. The documentation promises that such a device is read in full in
 every pass. The failures of the first pass are counted before any unit is known to be
 broken, and the count is carried into the second pass, so the promise fails there for one
 family of devices and for that family only; from the third pass on it holds for all.
 */
module LiveDevice {
  import opened Base
  import opened ReadPlan
  import opened PollEngine
  import opened PollInvariants
  import opened PollPublish
  import opened SinglePlan
  import opened ReturningDevice

  predicate Good(e: Env, u: ReadUnit) {
    e.dev.answers(0, e.Single(Head(u)))
  }

  /** How many of the first `k` units fail after the last one that answers. */
  function Trailing(e: Env, units: seq<ReadUnit>, k: nat): nat
    requires k <= |units|
  {
    if k == 0 || Good(e, units[k - 1]) then 0 else 1 + Trailing(e, units, k - 1)
  }

  /** Every unit's mark says whether it answers. */
  ghost predicate Settled(e: Env, units: seq<ReadUnit>) {
    forall j :: 0 <= j < |units| ==> units[j].alive == Some(Good(e, units[j]))
  }

  ghost predicate SomeGood(e: Env, units: seq<ReadUnit>) {
    exists j :: 0 <= j < |units| && Good(e, units[j])
  }

  // ----------------------------------------------------------------------- the first pass

  /** The first pass after `k` units: nothing was known, so every failure was counted. */
  ghost predicate Learning(e: Env, units: seq<ReadUnit>, s: Poll, k: nat) {
    && k <= |units| && |s.units| == |units| && Singles(s.units)
    && (forall j :: 0 <= j < |units| ==>
         s.units[j] == if j < k && Good(e, units[j]) then units[j].(alive := Some(true)) else units[j])
    && (forall j: nat :: j in s.failed <==> j < k && !Good(e, units[j]))
    && s.toSplit == [] && s.passes == 0 && !s.probing
    && s.freshFails == Trailing(e, units, k)
    && Asked(s, Range(0, |units|), k)
    && (s.answered <==> exists j :: 0 <= j < k && Good(e, units[j]))
  }

  lemma LearnHit(e: Env, units: seq<ReadUnit>, s: Poll, k: nat)
    requires Steady(e) && Singles(units) && forall j :: 0 <= j < |units| ==> units[j].alive == None
    requires k < |units| && Learning(e, units, s, k) && Answers(e, s, k)
    ensures Good(e, units[k]) && Learning(e, units, PollUnit(e, s, k).0, k + 1)
  {
    PollOne(e, s, k);
    assert Range(0, |units|)[k] == k;
  }

  lemma FailedGrows(e: Env, units: seq<ReadUnit>, failed: seq<nat>, k: nat)
    requires k < |units| && !Good(e, units[k])
    requires forall j: nat :: j in failed <==> j < k && !Good(e, units[j])
    ensures forall j: nat :: j in failed + [k] <==> j < k + 1 && !Good(e, units[j])
  {
    forall j: nat ensures j in failed + [k] <==> j < k + 1 && !Good(e, units[j]) {
      assert j in failed + [k] <==> j in failed || j == k;
    }
  }

  lemma LearnMiss(e: Env, units: seq<ReadUnit>, s: Poll, k: nat)
    requires Steady(e) && Singles(units) && forall j :: 0 <= j < |units| ==> units[j].alive == None
    requires k < |units| && Learning(e, units, s, k) && !Answers(e, s, k)
    ensures var t := PollUnit(e, s, k).0;
            Learning(e, units, t.(failed := t.failed + [k]), k + 1)
  {
    PollOne(e, s, k);
    hide PollUnit;
    assert Range(0, |units|)[k] == k;
    assert !Good(e, units[k]);
    FailedGrows(e, units, s.failed, k);
  }

  lemma LearnStep(e: Env, units: seq<ReadUnit>, s: Poll, k: nat)
    requires Steady(e) && Singles(units) && forall j :: 0 <= j < |units| ==> units[j].alive == None
    requires k < |units| && Learning(e, units, s, k)
    ensures var (t, ok) := PollUnit(e, s, k);
            var f := t.(failed := t.failed + [k]);
            && (ok ==> Learning(e, units, t, k + 1))
            && (!ok ==> !MayStop(e, f) && Learning(e, units, f, k + 1))
  {
    PollOne(e, s, k);
    hide Learning;
    if Answers(e, s, k) {
      LearnHit(e, units, s, k);
    } else {
      LearnMiss(e, units, s, k);
    }
  }

  lemma {:induction false} LearnLoop(e: Env, units: seq<ReadUnit>, s: Poll, order: seq<nat>, k: nat)
    requires Steady(e) && Singles(units) && forall j :: 0 <= j < |units| ==> units[j].alive == None
    requires |order| == |units| == |s.units| && forall m :: 0 <= m < |order| ==> order[m] == m
    requires k <= |units| && Learning(e, units, s, k)
    ensures Learning(e, units, PassLoop(e, s, order, k), |units|)
    decreases |units| - k
  {
    hide PollUnit, Learning, Singles, Steady, MayStop, StopPass;
    if k < |units| {
      LearnStep(e, units, s, k);
      var (t, ok) := PollUnit(e, s, k);
      var f := t.(failed := t.failed + [k]);
      if ok {
        LearnLoop(e, units, t, order, k + 1);
      } else {
        LearnLoop(e, units, f, order, k + 1);
      }
    }
  }

  lemma LearnedMarks(e: Env, units: seq<ReadUnit>, t: Poll)
    requires Learning(e, units, t, |units|) && SomeGood(e, units) && Singles(units)
    ensures t.answered && Settled(e, MarkFailed(t.units, t.failed)) && SameHeads(units, MarkFailed(t.units, t.failed))
  {
    var marked := MarkFailed(t.units, t.failed);
    hide Trailing, Range, Asked;
    forall j | 0 <= j < |marked| ensures marked[j].alive == Some(Good(e, marked[j])) {
      assert Head(marked[j]) == Head(units[j]);
    }
  }

  /** After the first pass every mark is right and the trailing failures are on the count. */
  lemma FirstPass(e: Env, units: seq<ReadUnit>)
    requires Steady(e) && Singles(units) && SomeGood(e, units)
    requires forall j :: 0 <= j < |units| ==> units[j].alive == None
    ensures var s := Pass(e, Init(units));
            && Settled(e, s.units) && SameHeads(units, s.units)
            && !s.probing && s.passes == 1 && s.freshFails == Trailing(e, units, |units|)
            && Asked(s, Range(0, |units|), |units|)
  {
    var s0 := StartPass(Init(units));
    PassOrderShape(Init(units));
    LearnLoop(e, units, s0, Range(0, |units|), 0);
    var t := PassLoop(e, s0, Range(0, |units|), 0);
    LearnedMarks(e, units, t);
    SplitNothing(e, MarkFailed(t.units, t.failed), 0);
    assert MarkFailed(t.units, t.failed)[0..] == MarkFailed(t.units, t.failed);
  }

  // --------------------------------------------------------------- passes with right marks

  /** A settled pass leaves every mark as it is. */
  ghost predicate Unmoved(e: Env, units: seq<ReadUnit>, s: Poll) {
    && s.units == units && s.toSplit == []
    && forall j :: 0 <= j < |units| && j in s.failed ==> !Good(e, units[j])
  }

  lemma {:induction false} SettledLoop(e: Env, units: seq<ReadUnit>, s: Poll, order: seq<nat>, k: nat)
    requires Steady(e) && Singles(units) && Settled(e, units)
    requires forall m :: 0 <= m < |order| ==> order[m] < |units|
    requires Unmoved(e, units, s)
    ensures Unmoved(e, units, PassLoop(e, s, order, k))
    decreases |order| - k
  {
    if k < |order| {
      var i := order[k];
      PollOne(e, s, i);
      var (t, ok) := PollUnit(e, s, i);
      assert ok == Good(e, units[i]);
      if ok {
        assert t.units == units;
        SettledLoop(e, units, t, order, k + 1);
      } else {
        var f := t.(failed := t.failed + [i]);
        assert Unmoved(e, units, f);
        if !MayStop(e, f) {
          SettledLoop(e, units, f, order, k + 1);
        }
      }
    }
  }

  lemma SettledPass(e: Env, s: Poll)
    requires Steady(e) && Singles(s.units) && Settled(e, s.units)
    ensures Pass(e, s).units == s.units
  {
    var s0 := StartPass(s);
    SettledLoop(e, s.units, s0, PassOrder(s), 0);
    var t := PassLoop(e, s0, PassOrder(s), 0);
    assert MarkFailed(t.units, t.failed) == t.units;
    SplitNothing(e, t.units, 0);
    assert t.units[0..] == t.units;
  }

  lemma SettledResponsive(e: Env, s: Poll)
    requires Steady(e) && Settled(e, s.units) && SomeGood(e, s.units)
    ensures Responsive(e, s)
    ensures exists j :: 0 <= j < |s.units| && s.units[j].alive != Some(false)
  {
    var j :| 0 <= j < |s.units| && Good(e, s.units[j]);
    assert s.units[j].alive != Some(false);
  }

  /** The state between passes once the marks are right. */
  ghost predicate Calm(e: Env, s: Poll) {
    SingleInv(e, s) && Settled(e, s.units) && SomeGood(e, s.units) && s.passes > 0
  }

  lemma StopsAtOnce(e: Env, s: Poll)
    requires Steady(e) && Singles(s.units) && Settled(e, s.units) && s.units != [] && s.passes > 0
    requires s.freshFails >= e.threshold && !Good(e, s.units[PassOrder(s)[0]])
    ensures |Pass(e, s).asked| == 1 && Pass(e, s).probing
  {
    var s0 := StartPass(s);
    PollOne(e, s0, PassOrder(s)[0]);
  }

  /** With right marks a pass is complete unless the count carried into it is already over the
      threshold and the first unit it reads is a broken one; then it stops after that unit. */
  lemma CalmPass(e: Env, s: Poll)
    requires Steady(e) && Calm(e, s) && e.threshold > 0
    ensures var t := Pass(e, s);
            var stops := s.freshFails >= e.threshold && !Good(e, s.units[PassOrder(s)[0]]);
            && Calm(e, t) && t.units == s.units
            && (!stops ==> Asked(t, PassOrder(s), |s.units|) && t.freshFails == 0 && !t.probing)
            && (stops ==> |t.asked| == 1 && t.probing)
  {
    SettledPass(e, s);
    PassMemory(e, s);
    PassCountsOne(e, s);
    if s.freshFails >= e.threshold && !Good(e, s.units[PassOrder(s)[0]]) {
      StopsAtOnce(e, s);
    } else {
      SettledResponsive(e, s);
      ResponsivePass(e, s);
    }
  }

  // ---------------------------------------------------------------------------- whole runs

  /** Pass number `k` read every unit, each once. */
  ghost predicate Complete(e: Env, units: seq<ReadUnit>, k: nat)
    requires k > 0
  {
    var s := Run(e, Init(units), k - 1);
    Asked(Run(e, Init(units), k), PassOrder(s), |s.units|)
  }

  /** The devices the second pass cuts short: the first unit is broken, and at least
      `threshold` units fail after the last one that answers. */
  predicate CutShort(e: Env, units: seq<ReadUnit>) {
    units != [] && !Good(e, units[0]) && Trailing(e, units, |units|) >= e.threshold
  }

  lemma AfterFirst(e: Env, units: seq<ReadUnit>)
    requires Steady(e) && Fresh(e, units) && Singles(units) && SomeGood(e, units)
    ensures var s := Run(e, Init(units), 1);
            && Calm(e, s) && SameHeads(units, s.units) && !s.probing
            && s.freshFails == Trailing(e, units, |units|) && Asked(s, Range(0, |units|), |units|)
  {
    hide Pass, SingleInv, WellFormed;
    FirstPass(e, units);
    SingleRunInv(e, units, 1);
    var s := Run(e, Init(units), 1);
    assert Run(e, Init(units), 0) == Init(units);
    assert s == Pass(e, Init(units));
    var j :| 0 <= j < |units| && Good(e, units[j]);
    assert Good(e, s.units[j]);
  }

  /** The state before pass `k + 1`: which of the two families the device is in decides what
      the second pass did; from the third on, all is as promised. */
  ghost predicate Before(e: Env, units: seq<ReadUnit>, s: Poll, k: nat) {
    && Calm(e, s) && SameHeads(units, s.units)
    && (k == 1 ==> !s.probing && s.freshFails == Trailing(e, units, |units|))
    && (k >= 2 ==> s.freshFails == 0 || s.probing)
    && (k >= 3 ==> s.freshFails == 0)
    && (k == 2 ==> (s.probing <==> CutShort(e, units)))
  }

  lemma FirstInOrder(e: Env, units: seq<ReadUnit>, s: Poll)
    requires Calm(e, s) && SameHeads(units, s.units)
    ensures s.probing ==> Good(e, s.units[PassOrder(s)[0]])
    ensures !s.probing ==> PassOrder(s)[0] == 0 && (Good(e, s.units[0]) <==> Good(e, units[0]))
  {
    var j :| 0 <= j < |s.units| && Good(e, s.units[j]);
    assert s.units[j].alive == Some(true);
    hide Inv, ProbeOf, ProbeIndex;
    if s.probing {
      assert Known(s.units);
      ProbeIndexAlive(e, s);
    }
  }

  lemma TwoUnits(e: Env, units: seq<ReadUnit>)
    requires CutShort(e, units)
    ensures e.threshold > 0 && SomeGood(e, units) ==> |units| > 1
  {
  }

  lemma BeforeStep(e: Env, units: seq<ReadUnit>, s: Poll, k: nat)
    requires Steady(e) && e.threshold > 0 && k >= 1
    requires Before(e, units, s, k)
    ensures Before(e, units, Pass(e, s), k + 1)
    ensures Asked(Pass(e, s), PassOrder(s), |s.units|) <==> !(k == 1 && CutShort(e, units))
  {
    hide Pass, SingleInv;
    CalmPass(e, s);
    FirstInOrder(e, units, s);
    if k == 1 && CutShort(e, units) {
      TwoUnits(e, units);
    }
  }

  lemma {:induction false} BeforeRun(e: Env, units: seq<ReadUnit>, k: nat)
    requires Steady(e) && Fresh(e, units) && Singles(units) && SomeGood(e, units) && e.threshold > 0 && k >= 1
    ensures Before(e, units, Run(e, Init(units), k), k)
  {
    hide Pass, Calm;
    if k == 1 {
      AfterFirst(e, units);
    } else {
      BeforeRun(e, units, k - 1);
      BeforeStep(e, units, Run(e, Init(units), k - 1), k - 1);
    }
  }

  /** The whole run of a live device, exactly: every pass reads every unit once, except the
      second pass of a device in the `CutShort` family, which asks a single request. */
  lemma LiveDevicePasses(e: Env, units: seq<ReadUnit>, k: nat)
    requires Steady(e) && Fresh(e, units) && Singles(units) && SomeGood(e, units) && e.threshold > 0 && k >= 1
    ensures Complete(e, units, k) <==> !(k == 2 && CutShort(e, units))
  {
    hide Pass, Calm, SingleInv;
    if k == 1 {
      AfterFirst(e, units);
      PassOrderShape(Init(units));
    } else {
      BeforeRun(e, units, k - 1);
      BeforeStep(e, units, Run(e, Init(units), k - 1), k - 1);
    }
  }

  /** A concrete device of that family: five coils, only the second answers, threshold 3. */
  function SampleTemplate(): seq<Channel> {
    seq(5, k => Channel(Coil, k, U16))
  }

  function Sample(): Env {
    Env(SampleTemplate(), 3, Device((k: nat, r: Request) => r.start == 1, (k: nat, t: RegType, a: int) => 0))
  }

  lemma PromiseFails(units: seq<ReadUnit>)
    requires Fresh(Sample(), units) && |units| == 5
    requires forall i :: 0 <= i < 5 ==> units[i].channels == [i]
    ensures Steady(Sample()) && SomeGood(Sample(), units)
    ensures !Complete(Sample(), units, 2)
  {
    var e := Sample();
    forall i | 0 <= i < 5 ensures Good(e, units[i]) == (i == 1) {
      assert e.Single(i).start == i;
    }
    assert Good(e, units[1]);
    assert Trailing(e, units, 2) == 0;
    assert Trailing(e, units, 3) == 1;
    assert Trailing(e, units, 4) == 2;
    assert Trailing(e, units, 5) == 3;
    LiveDevicePasses(e, units, 2);
  }

  /** The same with the plan that is built for it. */
  method BuiltPlanFails() returns (units: seq<ReadUnit>)
    ensures |units| == 5 && Fresh(Sample(), units) && Steady(Sample()) && SomeGood(Sample(), units)
    ensures !Complete(Sample(), units, 2)
  {
    units := BuildReadUnits(SampleTemplate(), 1, 0, 0);
    assert forall j :: 0 <= j < |units| ==> units[j] in units;
    PromiseFails(units);
  }
}
