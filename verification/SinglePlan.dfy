/**
 Plans of single-channel units (max_read_registers absent or 1): what a pass remembers about
 who answered, and which unit a silent device is probed with.
 */
module SinglePlan {
  import opened Base
  import opened ReadPlan
  import opened PollEngine
  import opened PollInvariants
  import opened PollPublish

  predicate Singles(units: seq<ReadUnit>) {
    forall j :: 0 <= j < |units| ==> |units[j].channels| == 1 && units[j].sweepAt == None
  }

  // ------------------------------------------------------------------ one unit, one read

  predicate Answers(e: Env, s: Poll, i: nat)
    requires i < |s.units|
  {
    SingleAnswers(e, s, Head(s.units[i]))
  }

  /** Everything the theorems below use about one read, except publications and flags. */
  lemma PollOne(e: Env, s: Poll, i: nat)
    requires Singles(s.units) && i < |s.units|
    ensures var (t, ok) := PollUnit(e, s, i);
            && ok == Answers(e, s, i)
            && t.passes == s.passes && t.failed == s.failed && t.toSplit == s.toSplit
            && t.clock == s.clock + 1 && |t.asked| == |s.asked| + 1
            && t.asked[..|s.asked|] == s.asked && t.asked[|s.asked|].unit == i
            && (ok ==> t.units == s.units[i := s.units[i].(alive := Some(true))]
                       && t.freshFails == 0 && !t.probing && t.answered && t.probe == Some(Head(s.units[i])))
            && (!ok ==> t.units == s.units && t.probing == s.probing && t.answered == s.answered && t.probe == s.probe
                        && t.freshFails == s.freshFails + if s.units[i].alive == Some(false) then 0 else 1)
  {
  }

  // ----------------------------------------------------------------------- the next probe

  /** Unit `j` lies `st` places after unit `i`, going round. */
  predicate After(n: nat, i: nat, st: nat, j: nat)
    requires i < n
  {
    j == (i + st) % n
  }

  lemma PlaceAfter(n: nat, i: nat, j: nat) returns (st: nat)
    requires i < n && j < n && i != j
    ensures 1 <= st < n && After(n, i, st, j)
  {
    st := if j > i then j - i else j - i + n;
    Wraps(i + st, n);
  }

  lemma {:induction false} NextFromAlive(units: seq<ReadUnit>, i: nat, step: nat)
    requires i < |units| && Known(units) && step >= 1
    requires forall st: nat, j: nat :: 1 <= st < step && j < |units| && After(|units|, i, st, j) ==>
      units[j].alive != Some(true)
    ensures units[NextFrom(units, i, step)].alive == Some(true)
    decreases |units| - step
  {
    if step >= |units| {
      var j :| 0 <= j < |units| && units[j].alive == Some(true);
      if j != i {
        var st := PlaceAfter(|units|, i, j);
      }
    } else if units[(i + step) % |units|].alive != Some(true) {
      NextFromAlive(units, i, step + 1);
    }
  }

  /** After a failed probe the next one is a unit that answered when last read, if any did. */
  lemma NextProbeAlive(units: seq<ReadUnit>, i: nat)
    requires i < |units| && Singles(units) && Known(units)
    ensures units[NextProbe(units, i)].alive == Some(true)
  {
    NextFromAlive(units, i, 1);
  }

  // ----------------------------------------------------------------- inside a pass

  ghost predicate SameHeads(a: seq<ReadUnit>, b: seq<ReadUnit>) {
    |a| == |b| && Singles(b) && forall j :: 0 <= j < |a| ==> Head(b[j]) == Head(a[j])
  }

  /** Unit `j` answered last and has not failed in this pass. */
  ghost predicate Witness(s: Poll, j: nat) {
    j < |s.units| && j !in s.failed && s.units[j].alive == Some(true) && s.probe == Some(Head(s.units[j]))
  }

  /** The state of a pass that began in `s0` and has polled the first `k` units of `order`. */
  ghost predicate Midway(s0: Poll, s: Poll, order: seq<nat>, k: nat) {
    && k <= |order|
    && SameHeads(s0.units, s.units) && s.toSplit == []
    && (forall x :: x in s.failed ==> x in order[..k])
    && (!s.answered ==> s.units == s0.units && s.probe == s0.probe && s.probing == s0.probing)
    && (s.answered ==> !s.probing && exists j :: j in order[..k] && Witness(s, j))
  }

  /** The probe is a unit that answered when last read, provided any unit did. */
  ghost predicate ProbeOf(units: seq<ReadUnit>, probe: Option<nat>) {
    Known(units) ==> exists j :: 0 <= j < |units| && units[j].alive == Some(true) && probe == Some(Head(units[j]))
  }

  /** What a pass leaves: an unanswered pass touches no unit's memory. */
  ghost predicate Ended(s0: Poll, t: Poll) {
    && SameHeads(s0.units, t.units) && t.toSplit == []
    && (!t.answered ==> t.units == s0.units && (t.probe == s0.probe || ProbeOf(t.units, t.probe)))
    && (t.answered ==> exists j :: Witness(t, j))
  }

  lemma MidwayHit(e: Env, s0: Poll, s: Poll, order: seq<nat>, k: nat)
    requires Midway(s0, s, order, k) && k < |order| && order[k] < |s.units| && Distinct(order)
    requires Answers(e, s, order[k])
    ensures Midway(s0, PollUnit(e, s, order[k]).0, order, k + 1)
  {
    var i := order[k];
    var t := PollUnit(e, s, i).0;
    PollOne(e, s, i);
    assert order[..k + 1] == order[..k] + [i];
    assert i !in order[..k];
    assert Witness(t, i);
  }

  lemma MidwayMiss(e: Env, s0: Poll, s: Poll, order: seq<nat>, k: nat)
    requires Midway(s0, s, order, k) && k < |order| && order[k] < |s.units| && Distinct(order)
    requires !Answers(e, s, order[k])
    ensures var t := PollUnit(e, s, order[k]).0;
            Midway(s0, t.(failed := t.failed + [order[k]]), order, k + 1)
  {
    var i := order[k];
    var t := PollUnit(e, s, i).0;
    var f := t.(failed := t.failed + [i]);
    PollOne(e, s, i);
    assert order[..k + 1] == order[..k] + [i];
    if s.answered {
      var j :| j in order[..k] && Witness(s, j);
      assert j != i;
      assert Witness(f, j);
    }
  }

  lemma StoppedEnds(s0: Poll, f: Poll, order: seq<nat>, k: nat, i: nat, rest: seq<nat>)
    requires Midway(s0, f, order, k) && i < |f.units|
    ensures Ended(s0, StopPass(f, i, rest))
  {
    var t := StopPass(f, i, rest);
    if f.answered {
      var j :| j in order[..k] && Witness(f, j);
      assert Witness(t, j);
    } else if f.probing && Known(f.units) {
      NextProbeAlive(f.units, i);
      assert t.units[NextProbe(f.units, i)].alive == Some(true);
    }
  }

  lemma {:induction false} LoopEnds(e: Env, s0: Poll, s: Poll, order: seq<nat>, k: nat)
    requires forall m :: 0 <= m < |order| ==> order[m] < |s.units|
    requires Distinct(order) && Midway(s0, s, order, k)
    ensures Ended(s0, PassLoop(e, s, order, k))
    decreases |order| - k
  {
    if k < |order| {
      PollOne(e, s, order[k]);
      var (t, ok) := PollUnit(e, s, order[k]);
      if ok {
        MidwayHit(e, s0, s, order, k);
        LoopEnds(e, s0, t, order, k + 1);
      } else {
        var f := t.(failed := t.failed + [order[k]]);
        MidwayMiss(e, s0, s, order, k);
        if MayStop(e, f) {
          StoppedEnds(s0, f, order, k + 1, order[k], order[k + 1..]);
        } else {
          LoopEnds(e, s0, f, order, k + 1);
        }
      }
    } else if s.answered {
      var j :| j in order[..k] && Witness(s, j);
    }
  }

  // ----------------------------------------------------------- every state of every run

  ghost predicate SingleInv(e: Env, s: Poll) {
    && Inv(e, s) && Singles(s.units)
    && ProbeOf(s.units, s.probe)
    && ((exists j :: 0 <= j < |s.units| && s.units[j].alive == Some(false)) ==> Known(s.units))
  }

  lemma EndPassSingle(e: Env, s0: Poll, t: Poll)
    requires Ended(s0, t)
    ensures var units := if t.answered then MarkFailed(t.units, t.failed) else t.units;
            EndPass(e, t).units == units && SameHeads(s0.units, units)
  {
    var units := if t.answered then MarkFailed(t.units, t.failed) else t.units;
    SplitNothing(e, units, 0);
    assert units[0..] == units;
  }

  lemma WitnessSurvives(t: Poll, j: nat)
    requires Witness(t, j)
    ensures MarkFailed(t.units, t.failed)[j].alive == Some(true)
    ensures Head(MarkFailed(t.units, t.failed)[j]) == Head(t.units[j])
    ensures Known(MarkFailed(t.units, t.failed))
  {
    assert MarkFailed(t.units, t.failed)[j] == t.units[j];
  }

  /** What one pass does to the memory of who answered. */
  lemma PassMemory(e: Env, s: Poll)
    requires SingleInv(e, s)
    ensures SingleInv(e, Pass(e, s))
    ensures SameHeads(s.units, Pass(e, s).units)
    ensures !Pass(e, s).answered ==> Pass(e, s).units == s.units
    ensures Known(s.units) || Pass(e, s).answered ==> Known(Pass(e, s).units)
  {
    var s0, order := StartPass(s), PassOrder(s);
    var t := PassLoop(e, s0, order, 0);
    PassOrderShape(s);
    LoopEnds(e, s0, s0, order, 0);
    EndPassSingle(e, s0, t);
    PassInv(e, s);
    if t.answered {
      var j :| Witness(t, j);
      WitnessSurvives(t, j);
    }
  }

  lemma InitSingle(e: Env, units: seq<ReadUnit>)
    requires Fresh(e, units) && Singles(units)
    ensures SingleInv(e, Init(units))
  {
    InitInv(e, units);
  }

  lemma SingleRunInv(e: Env, units: seq<ReadUnit>, n: nat)
    requires Fresh(e, units) && Singles(units)
    ensures SingleInv(e, Run(e, Init(units), n))
  {
    var P := (s: Poll) => SingleInv(e, s);
    InitSingle(e, units);
    forall s | P(s) ensures P(Pass(e, s)) {
      PassMemory(e, s);
    }
    RunKeeps(e, Init(units), n, P);
  }

  lemma HeadsDistinct(units: seq<ReadUnit>, a: nat, b: nat)
    requires Singles(units) && a < b < |units|
    requires Occurs(units, Head(units[b])) <= 1
    ensures Head(units[a]) != Head(units[b])
  {
    var c := Head(units[b]);
    OccursAround(units, b, c);
    OccursAround(units[0..b], a, c);
    assert units[b].channels == [c] && units[0..b][a].channels == [Head(units[a])];
  }

  lemma {:induction false} FindUnitFinds(units: seq<ReadUnit>, j: nat, k: nat)
    requires k <= j < |units|
    requires forall a :: k <= a < j ==> Head(units[a]) != Head(units[j])
    ensures FindUnit(units, Head(units[j]), k) == j
    decreases j - k
  {
    if k < j {
      FindUnitFinds(units, j, k + 1);
    }
  }

  lemma ProbeIndexAlive(e: Env, s: Poll)
    requires SingleInv(e, s) && Known(s.units)
    ensures s.units[ProbeIndex(s)].alive == Some(true)
  {
    var j :| 0 <= j < |s.units| && s.units[j].alive == Some(true) && s.probe == Some(Head(s.units[j]));
    forall a | 0 <= a < j ensures Head(s.units[a]) != Head(s.units[j]) {
      HeadsDistinct(s.units, a, j);
    }
    FindUnitFinds(s.units, j, 0);
  }

  /** Knowing a unit that answers is kept by every later pass. */
  lemma KnownKept(e: Env, s: Poll, m: nat)
    requires SingleInv(e, s) && Known(s.units)
    ensures Known(Run(e, s, m).units)
  {
    var P := (x: Poll) => SingleInv(e, x) && Known(x.units);
    forall x | P(x) ensures P(Pass(e, x)) {
      PassMemory(e, x);
    }
    RunKeeps(e, s, m, P);
  }

  lemma AnsweredIsKnown(e: Env, units: seq<ReadUnit>, k: nat)
    requires Fresh(e, units) && Singles(units)
    requires k > 0 && Run(e, Init(units), k).answered
    ensures Known(Run(e, Init(units), k).units)
  {
    hide Pass, SingleInv, Known;
    SingleRunInv(e, units, k - 1);
    PassMemory(e, Run(e, Init(units), k - 1));
  }

  /** Once any pass was answered, in every later state some unit is marked as answering and,
      if the device is silent, the unit it is probed with is one of them. */
  lemma ProbeIsNeverBroken(e: Env, units: seq<ReadUnit>, k: nat, n: nat)
    requires Fresh(e, units) && Singles(units)
    requires 0 < k <= n && Run(e, Init(units), k).answered
    ensures var s := Run(e, Init(units), n);
            Known(s.units) && s.units != [] && s.units[ProbeIndex(s)].alive == Some(true)
  {
    hide Pass, SingleInv;
    AnsweredIsKnown(e, units, k);
    SingleRunInv(e, units, k);
    KnownKept(e, Run(e, Init(units), k), n - k);
    RunContinues(e, Init(units), k, n - k);
    SingleRunInv(e, units, n);
    ProbeIndexAlive(e, Run(e, Init(units), n));
  }
}
