/**
 Single-channel plans, continued: the window in which a silent device returns.
 */
module ReturningDevice {
  import opened Base
  import opened ReadPlan
  import opened PollEngine
  import opened PollInvariants
  import opened PollPublish
  import opened SinglePlan

  /** The first `k` requests of the pass went to the first `k` units of `order`. */
  predicate Asked(s: Poll, order: seq<nat>, k: nat) {
    |s.asked| == k <= |order| && forall m :: 0 <= m < k ==> s.asked[m].unit == order[m]
  }

  /** Throughout the next pass every unit not marked broken answers. */
  ghost predicate Responsive(e: Env, s: Poll) {
    forall k: nat, j :: s.clock <= k < s.clock + |s.units| && 0 <= j < |s.units| && s.units[j].alive != Some(false) ==>
      e.dev.answers(k, e.Single(Head(s.units[j])))
  }

  /** A pass that has not stopped: it began in `s0` and has polled `k` units. */
  ghost predicate OnCourse(e: Env, s0: Poll, s: Poll, order: seq<nat>, k: nat) {
    && Asked(s, order, k) && Singles(s.units) && |s.units| == |s0.units|
    && s.clock == s0.clock + k && s.passes == s0.passes
    && (forall m :: k <= m < |order| && order[m] < |s.units| ==> s.units[order[m]] == s0.units[order[m]])
    && (k > 0 ==> s.freshFails < e.threshold)
    && (s.answered ==> s.freshFails == 0 && !s.probing)
  }

  ghost predicate Ordering(s: Poll, order: seq<nat>) {
    Distinct(order) && |order| == |s.units| && forall m :: 0 <= m < |order| ==> order[m] < |s.units|
  }

  /** One more unit of such a pass. */
  lemma CourseStep(e: Env, s0: Poll, s: Poll, order: seq<nat>, k: nat)
    requires OnCourse(e, s0, s, order, k) && Ordering(s0, order) && Responsive(e, s0)
    requires k < |order| && e.threshold > 0
    requires k == 0 ==> s.freshFails < e.threshold || s0.units[order[0]].alive != Some(false)
    ensures var (t, ok) := PollUnit(e, s, order[k]);
            var f := t.(failed := t.failed + [order[k]]);
            && (s0.units[order[k]].alive != Some(false) ==> ok)
            && (ok ==> t.answered && OnCourse(e, s0, t, order, k + 1))
            && (!ok ==> !MayStop(e, f) && f.answered == s.answered && OnCourse(e, s0, f, order, k + 1))
  {
    var i := order[k];
    PollOne(e, s, i);
    assert forall m :: k < m < |order| ==> order[m] != i;
  }

  /** Such a pass polls every unit. */
  lemma {:induction false} CourseEnds(e: Env, s0: Poll, s: Poll, order: seq<nat>, k: nat)
    requires OnCourse(e, s0, s, order, k) && Ordering(s0, order) && Responsive(e, s0)
    requires e.threshold > 0
    requires k == 0 && order != [] ==> s.freshFails < e.threshold || s0.units[order[0]].alive != Some(false)
    ensures var t := PassLoop(e, s, order, k);
            && Asked(t, order, |order|)
            && (t.answered ==> t.freshFails == 0 && !t.probing)
            && (s.answered || (exists m :: k <= m < |order| && s0.units[order[m]].alive != Some(false)) ==> t.answered)
    decreases |order| - k
  {
    hide PollUnit, Responsive, Singles;
    if k < |order| {
      CourseStep(e, s0, s, order, k);
      var (t, ok) := PollUnit(e, s, order[k]);
      if ok {
        CourseEnds(e, s0, t, order, k + 1);
      } else {
        CourseEnds(e, s0, t.(failed := t.failed + [order[k]]), order, k + 1);
      }
    }
  }

  lemma CourseStarts(e: Env, s: Poll)
    requires Singles(s.units) && Responsive(e, s)
    ensures var s0 := StartPass(s);
            OnCourse(e, s0, s0, PassOrder(s), 0) && Ordering(s0, PassOrder(s)) && Responsive(e, s0)
  {
    PassOrderShape(s);
  }

  /** A pass whose first read counts no failure over the threshold, with every unit not marked
      broken answering: complete, and the failure count ends at zero. */
  lemma ResponsivePass(e: Env, s: Poll)
    requires SingleInv(e, s) && Responsive(e, s) && e.threshold > 0 && s.units != []
    requires s.freshFails < e.threshold || s.units[PassOrder(s)[0]].alive != Some(false)
    requires exists j :: 0 <= j < |s.units| && s.units[j].alive != Some(false)
    ensures var t := Pass(e, s);
            Asked(t, PassOrder(s), |s.units|) && t.answered && t.freshFails == 0 && !t.probing
  {
    CourseStarts(e, s);
    var j :| 0 <= j < |s.units| && s.units[j].alive != Some(false);
    OrderHas(s, j);
    var s0, order := StartPass(s), PassOrder(s);
    hide PassLoop, PassOrder, SplitUnits, MarkFailed, SingleInv, OnCourse, Ordering, Responsive;
    CourseEnds(e, s0, s0, order, 0);
  }

  lemma SomeUnitNotBroken(e: Env, s: Poll)
    requires SingleInv(e, s) && s.units != []
    ensures exists j :: 0 <= j < |s.units| && s.units[j].alive != Some(false)
  {
    if s.units[0].alive == Some(false) {
      assert Known(s.units);
      var j :| 0 <= j < |s.units| && s.units[j].alive == Some(true);
      assert s.units[j].alive != Some(false);
    }
  }

  lemma ProbeNotBroken(e: Env, s: Poll)
    requires SingleInv(e, s) && s.units != []
    ensures s.units[ProbeIndex(s)].alive != Some(false)
  {
    if Known(s.units) {
      ProbeIndexAlive(e, s);
    }
  }

  lemma ReturningPass(e: Env, s: Poll)
    requires SingleInv(e, s) && s.units != [] && s.probing && Responsive(e, s) && e.threshold > 0
    ensures var t := Pass(e, s);
            && Asked(t, PassOrder(s), |s.units|) && Distinct(PassOrder(s))
            && t.answered && t.freshFails == 0 && !t.probing
  {
    ProbeNotBroken(e, s);
    SomeUnitNotBroken(e, s);
    PassOrderShape(s);
    ResponsivePass(e, s);
  }

  /** Single-channel units are never split away. */
  lemma NonEmptyRun(e: Env, units: seq<ReadUnit>, n: nat)
    requires Fresh(e, units) && Singles(units) && units != []
    ensures |Run(e, Init(units), n).units| == |units|
  {
    hide Pass;
    var P := (s: Poll) => SingleInv(e, s) && |s.units| == |units|;
    InitSingle(e, units);
    forall s | P(s) ensures P(Pass(e, s)) {
      PassMemory(e, s);
    }
    RunKeeps(e, Init(units), n, P);
  }

  /** The first window in which every unit not marked broken answers again, however long the
      silence was and whatever the broken units do: every unit is read exactly once, the
      probe first, and the device is no longer suspected of anything. */
  lemma ReturningDeviceIsReadInFull(e: Env, units: seq<ReadUnit>, n: nat)
    requires Fresh(e, units) && Singles(units) && units != [] && e.threshold > 0
    requires var s := Run(e, Init(units), n); s.probing && Responsive(e, s)
    ensures var s := Run(e, Init(units), n);
            var t := Run(e, Init(units), n + 1);
            && Asked(t, PassOrder(s), |s.units|) && Distinct(PassOrder(s)) && |PassOrder(s)| == |s.units|
            && t.answered && t.freshFails == 0 && !t.probing
  {
    var s := Run(e, Init(units), n);
    SingleRunInv(e, units, n);
    NonEmptyRun(e, units, n);
    ReturningPass(e, s);
  }
}
