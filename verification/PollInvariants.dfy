/**
 What every pass of every run keeps, on any plan and against any device: the units
 stay a partition of the template, a silent device has used up the threshold and
 costs one request per pass, and every published value is what a single read of its
 channel would have returned.
 */
module PollInvariants {
  import opened Base
  import opened ReadPlan
  import opened PollEngine

  /** The device's answers do not change over time. */
  ghost predicate Steady(e: Env) {
    forall k: nat, r :: e.dev.answers(k, r) == e.dev.answers(0, r)
  }

  // ------------------------------------------------------------- what reads cannot change

  /** A unit without its run-time memory. */
  function Plain(u: ReadUnit): ReadUnit {
    u.(splitStreak := 0, sweepAt := None, sweepOk := false, alive := None)
  }

  predicate SameShape(a: seq<ReadUnit>, b: seq<ReadUnit>) {
    |a| == |b| && forall j :: 0 <= j < |a| ==> Plain(a[j]) == Plain(b[j])
  }

  /** Polling unit `i` touches only that unit's run-time memory. */
  predicate OnlyUnit(a: seq<ReadUnit>, b: seq<ReadUnit>, i: nat) {
    |a| == |b| && (i < |a| ==> Plain(a[i]) == Plain(b[i])) && forall j :: 0 <= j < |a| && j != i ==> b[j] == a[j]
  }

  /** How reads move the rest of the state. */
  predicate Advances(s: Poll, t: Poll) {
    && t.passes == s.passes && t.failed == s.failed
    && s.asked <= t.asked && t.clock - s.clock == |t.asked| - |s.asked|
    && (t.probing ==> s.probing && t.freshFails >= s.freshFails)
    && (s.answered ==> t.answered)
    && (s.probing && !t.probing ==> t.answered)
  }

  predicate Moves(s: Poll, t: Poll, i: nat) {
    OnlyUnit(s.units, t.units, i) && Advances(s, t)
  }

  lemma MovesTrans(s: Poll, t: Poll, v: Poll, i: nat)
    requires Moves(s, t, i) && Moves(t, v, i)
    ensures Moves(s, v, i)
  {
  }

  lemma SetUnitMoves(s: Poll, i: nat, u: ReadUnit)
    requires i < |s.units| && Plain(u) == Plain(s.units[i])
    ensures Moves(s, SetUnit(s, i, u), i)
  {
  }

  lemma NoteReadMoves(s: Poll, i: nat, req: Request, ok: bool)
    requires i < |s.units|
    ensures Moves(s, NoteRead(s, i, req, ok), i)
  {
  }

  lemma PollSingleMoves(e: Env, s: Poll, i: nat, c: nat)
    requires i < |s.units|
    ensures Moves(s, PollSingle(e, s, i, c), i)
  {
    NoteReadMoves(s, i, e.Single(c), SingleAnswers(e, s, c));
  }

  lemma CloseSweepMoves(s: Poll, i: nat)
    requires i < |s.units|
    ensures Moves(s, CloseSweep(s, i), i)
  {
    var u := s.units[i].(sweepAt := None);
    SetUnitMoves(s, i, if u.sweepOk then u.(splitStreak := u.splitStreak + 1) else u.(splitStreak := 0));
  }

  lemma SweepHitMoves(e: Env, s: Poll, i: nat, c: nat)
    requires i < |s.units|
    ensures Moves(s, SweepHit(e, s, i, c), i)
  {
    var t := PollSingle(e, s, i, c);
    PollSingleMoves(e, s, i, c);
    SetUnitMoves(t, i, t.units[i].(sweepOk := true));
    MovesTrans(s, t, SweepHit(e, s, i, c), i);
  }

  lemma SweepStallMoves(s: Poll, i: nat, j: nat, readNow: bool)
    requires i < |s.units| && j < |s.units[i].channels|
    ensures Moves(s, SweepStall(s, i, j, readNow).0, i)
  {
    var f := s.(flags := s.flags + s.units[i].channels[j + 1..]);
    SetUnitMoves(f, i, f.units[i].(sweepAt := Some(j + 1)));
    CloseSweepMoves(f, i);
  }

  lemma {:induction false} SweepMoves(e: Env, s: Poll, i: nat, j: nat, readNow: bool)
    requires i < |s.units|
    ensures Moves(s, Sweep(e, s, i, j, readNow).0, i)
    decreases |s.units[i].channels| - j, 1
  {
    var chans := s.units[i].channels;
    if j >= |chans| {
      CloseSweepMoves(s, i);
    } else if SingleAnswers(e, s, chans[j]) {
      var t := SweepHit(e, s, i, chans[j]);
      SweepHitMoves(e, s, i, chans[j]);
      SweepMoves(e, t, i, j + 1, true);
      MovesTrans(s, t, Sweep(e, t, i, j + 1, true).0, i);
    } else {
      var t := PollSingle(e, s, i, chans[j]);
      PollSingleMoves(e, s, i, chans[j]);
      SweepAfterMiss(e, s, t, i, j, readNow);
    }
  }

  lemma {:induction false} SweepAfterMiss(e: Env, s: Poll, t: Poll, i: nat, j: nat, readNow: bool)
    requires i < |s.units| && Moves(s, t, i) && j < |s.units[i].channels|
    ensures MayStop(e, t) ==> Moves(s, SweepStall(t, i, j, readNow).0, i)
    ensures !MayStop(e, t) ==> Moves(s, Sweep(e, t, i, j + 1, readNow).0, i)
    decreases |s.units[i].channels| - j, 0
  {
    if MayStop(e, t) {
      SweepStallMoves(t, i, j, readNow);
      MovesTrans(s, t, SweepStall(t, i, j, readNow).0, i);
    } else {
      SweepMoves(e, t, i, j + 1, readNow);
      MovesTrans(s, t, Sweep(e, t, i, j + 1, readNow).0, i);
    }
  }

  lemma BlockFailedMoves(e: Env, s: Poll, i: nat)
    requires i < |s.units|
    ensures Moves(s, BlockFailed(s, i), i)
  {
  }

  lemma BlockOkMoves(e: Env, s: Poll, i: nat)
    requires i < |s.units|
    ensures Moves(s, BlockOk(e, s, i), i)
  {
  }

  lemma PollUnitMoves(e: Env, s: Poll, i: nat)
    requires i < |s.units|
    ensures Moves(s, PollUnit(e, s, i).0, i)
  {
    var u := s.units[i];
    if |u.channels| == 1 {
      PollSingleMoves(e, s, i, u.channels[0]);
    } else if u.sweepAt == None {
      if BlockAnswers(e, s, i) {
        BlockOkMoves(e, s, i);
      } else {
        var t := BlockFailed(s, i);
        BlockFailedMoves(e, s, i);
        if !MayStop(e, t) {
          SweepMoves(e, t, i, 0, false);
          MovesTrans(s, t, Sweep(e, t, i, 0, false).0, i);
        }
      }
    } else {
      SweepMoves(e, s, i, u.sweepAt.value, false);
    }
  }

  // ----------------------------------------------------------------- the run invariant

  /** A sweep is only ever pending inside a block. */
  predicate SweepInside(u: ReadUnit) {
    u.sweepAt.Some? ==> u.sweepAt.value < |u.channels| && |u.channels| > 1
  }

  ghost predicate SoundUnits(e: Env, units: seq<ReadUnit>) {
    forall j :: 0 <= j < |units| ==> WellFormed(e.tpl, units[j]) && SweepInside(units[j])
  }

  /** While the device is being probed it has used up the threshold. */
  predicate ProbingIsSilent(e: Env, s: Poll) {
    s.probing ==> s.freshFails >= e.threshold && s.passes > 0
  }

  ghost predicate Inv(e: Env, s: Poll) {
    Partition(e.tpl, s.units) && SoundUnits(e, s.units) && ProbingIsSilent(e, s)
  }

  /** A plan as the planner makes it. */
  ghost predicate Fresh(e: Env, units: seq<ReadUnit>) {
    Partition(e.tpl, units) && forall j :: 0 <= j < |units| ==> WellFormed(e.tpl, units[j]) && Untouched(units[j])
  }

  lemma ShapeKeepsWellFormed(e: Env, a: ReadUnit, b: ReadUnit)
    requires Plain(a) == Plain(b) && WellFormed(e.tpl, a)
    ensures WellFormed(e.tpl, b)
  {
  }

  lemma SweepEndsInside(s: Poll, i: nat, j: nat, readNow: bool)
    requires i < |s.units| && |s.units[i].channels| > 1
    ensures SweepInside(CloseSweep(s, i).units[i])
    ensures j < |s.units[i].channels| ==> SweepInside(SweepStall(s, i, j, readNow).0.units[i])
  {
  }

  lemma {:induction false} SweepStaysInside(e: Env, s: Poll, i: nat, j: nat, readNow: bool)
    requires i < |s.units| && |s.units[i].channels| > 1
    ensures SweepInside(Sweep(e, s, i, j, readNow).0.units[i])
    decreases |s.units[i].channels| - j
  {
    var chans := s.units[i].channels;
    if j >= |chans| {
      SweepEndsInside(s, i, j, readNow);
    } else if SingleAnswers(e, s, chans[j]) {
      SweepHitMoves(e, s, i, chans[j]);
      SweepStaysInside(e, SweepHit(e, s, i, chans[j]), i, j + 1, true);
    } else {
      var t := PollSingle(e, s, i, chans[j]);
      PollSingleMoves(e, s, i, chans[j]);
      if MayStop(e, t) {
        SweepEndsInside(t, i, j, readNow);
      } else {
        SweepStaysInside(e, t, i, j + 1, readNow);
      }
    }
  }

  lemma PollUnitSweep(e: Env, s: Poll, i: nat)
    requires i < |s.units| && s.units[i].channels != [] && SweepInside(s.units[i])
    ensures SweepInside(PollUnit(e, s, i).0.units[i])
  {
    var u := s.units[i];
    if |u.channels| > 1 {
      if u.sweepAt == None {
        if !BlockAnswers(e, s, i) {
          var t := BlockFailed(s, i);
          if !MayStop(e, t) {
            SweepStaysInside(e, t, i, 0, false);
          }
        }
      } else {
        SweepStaysInside(e, s, i, u.sweepAt.value, false);
      }
    }
  }

  lemma PollUnitSound(e: Env, s: Poll, i: nat)
    requires i < |s.units| && SoundUnits(e, s.units)
    ensures SoundUnits(e, PollUnit(e, s, i).0.units)
  {
    var u, t := s.units[i], PollUnit(e, s, i).0;
    PollUnitMoves(e, s, i);
    PollUnitSweep(e, s, i);
    forall j | 0 <= j < |t.units| ensures WellFormed(e.tpl, t.units[j]) && SweepInside(t.units[j]) {
      ShapeKeepsWellFormed(e, s.units[j], t.units[j]);
    }
  }

  lemma {:induction false} PassLoopInv(e: Env, s: Poll, order: seq<nat>, k: nat)
    requires forall m :: 0 <= m < |order| ==> order[m] < |s.units|
    requires SoundUnits(e, s.units) && ProbingIsSilent(e, s)
    ensures var t := PassLoop(e, s, order, k);
            && SameShape(s.units, t.units) && SoundUnits(e, t.units) && ProbingIsSilent(e, t)
            && t.passes == s.passes
    decreases |order| - k
  {
    hide PollUnit, SoundUnits, NextProbe, ChannelsOf;
    if k < |order| {
      var (t, ok) := PollUnit(e, s, order[k]);
      PollUnitMoves(e, s, order[k]);
      PollUnitSound(e, s, order[k]);
      if ok {
        PassLoopInv(e, t, order, k + 1);
      } else {
        var f := t.(failed := t.failed + [order[k]]);
        if !MayStop(e, f) {
          PassLoopInv(e, f, order, k + 1);
        }
      }
    }
  }

  // ------------------------------------------------------------------- permanent splits

  lemma {:induction false} InsertIdCount(ids: seq<nat>, c: nat, i: nat)
    ensures |InsertId(ids, c)| == |ids| + 1
    ensures multiset(InsertId(ids, c))[i] == multiset(ids)[i] + if i == c then 1 else 0
  {
    if ids != [] && c >= ids[0] {
      InsertIdCount(ids[1..], c, i);
      assert ids == [ids[0]] + ids[1..];
    }
  }

  lemma {:induction false} SortIdsCount(ids: seq<nat>, i: nat)
    ensures |SortIds(ids)| == |ids| && multiset(SortIds(ids))[i] == multiset(ids)[i]
  {
    if ids != [] {
      SortIdsCount(ids[1..], i);
      InsertIdCount(SortIds(ids[1..]), ids[0], i);
      assert ids == [ids[0]] + ids[1..];
    }
  }

  lemma SortIdsMembers(ids: seq<nat>, k: nat)
    requires k < |SortIds(ids)|
    ensures SortIds(ids)[k] in ids
  {
    var c := SortIds(ids)[k];
    SortIdsCount(ids, c);
    assert c in multiset(SortIds(ids));
    assert c in multiset(ids);
  }

  lemma {:induction false} SingleUnitsCount(e: Env, ids: seq<nat>, i: nat)
    ensures Occurs(SingleUnits(e, ids), i) == multiset(ids)[i]
  {
    if ids != [] {
      SingleUnitsCount(e, ids[1..], i);
      assert SingleUnits(e, ids)[1..] == SingleUnits(e, ids[1..]);
      assert ids == [ids[0]] + ids[1..];
    }
  }

  lemma SingleUnitWellFormed(e: Env, c: nat)
    requires c < |e.tpl|
    ensures WellFormed(e.tpl, SingleUnit(e, c)) && SweepInside(SingleUnit(e, c))
  {
  }

  lemma {:induction false} SplitNothing(e: Env, units: seq<ReadUnit>, j: nat)
    requires j <= |units|
    ensures SplitUnits(e, units, [], j) == units[j..]
    decreases |units| - j
  {
    if j < |units| {
      SplitNothing(e, units, j + 1);
      assert units[j..] == [units[j]] + units[j + 1..];
    }
  }

  lemma {:induction false} SplitMember(e: Env, units: seq<ReadUnit>, toSplit: seq<nat>, j: nat, x: nat)
    requires x < |SplitUnits(e, units, toSplit, j)|
    ensures var u := SplitUnits(e, units, toSplit, j)[x];
            (|u.channels| == 1 && u.sweepAt == None) || exists m :: j <= m < |units| && m !in toSplit && u == units[m]
    decreases |units| - j
  {
    if j < |units| {
      var front := if j in toSplit then SingleUnits(e, SortIds(units[j].channels)) else [units[j]];
      if x >= |front| {
        SplitMember(e, units, toSplit, j + 1, x - |front|);
      } else if j !in toSplit {
        assert SplitUnits(e, units, toSplit, j)[x] == units[j];
      }
    }
  }

  lemma {:induction false} SplitUnitsCount(e: Env, units: seq<ReadUnit>, toSplit: seq<nat>, j: nat, i: nat)
    requires j <= |units|
    ensures Occurs(SplitUnits(e, units, toSplit, j), i) == Occurs(units[j..], i)
    decreases |units| - j
  {
    if j < |units| {
      SplitUnitsCount(e, units, toSplit, j + 1, i);
      var front := if j in toSplit then SingleUnits(e, SortIds(units[j].channels)) else [units[j]];
      OccursConcat(front, SplitUnits(e, units, toSplit, j + 1), i);
      if j in toSplit {
        SingleUnitsCount(e, SortIds(units[j].channels), i);
        SortIdsCount(units[j].channels, i);
      } else {
        OccursOne(units[j], i);
      }
      assert units[j..][1..] == units[j + 1..];
    }
  }

  lemma SingleUnitsSound(e: Env, ids: seq<nat>)
    requires forall k :: 0 <= k < |ids| ==> ids[k] < |e.tpl|
    ensures SoundUnits(e, SingleUnits(e, SortIds(ids)))
  {
    var sorted := SortIds(ids);
    forall k | 0 <= k < |sorted| ensures WellFormed(e.tpl, SingleUnit(e, sorted[k])) &&
      SweepInside(SingleUnit(e, sorted[k])) {
      SortIdsMembers(ids, k);
      SingleUnitWellFormed(e, sorted[k]);
    }
  }

  lemma SoundConcat(e: Env, a: seq<ReadUnit>, b: seq<ReadUnit>)
    requires SoundUnits(e, a) && SoundUnits(e, b)
    ensures SoundUnits(e, a + b)
  {
  }

  lemma NothingSound(e: Env)
    ensures SoundUnits(e, [])
  {
  }

  lemma FrontSound(e: Env, units: seq<ReadUnit>, toSplit: seq<nat>, j: nat)
    requires j < |units| && SoundUnits(e, units)
    ensures SoundUnits(e, if j in toSplit then SingleUnits(e, SortIds(units[j].channels)) else [units[j]])
  {
    assert WellFormed(e.tpl, units[j]);
    SingleUnitsSound(e, units[j].channels);
  }

  lemma {:induction false} SplitUnitsSound(e: Env, units: seq<ReadUnit>, toSplit: seq<nat>, j: nat)
    requires j <= |units| && SoundUnits(e, units)
    ensures SoundUnits(e, SplitUnits(e, units, toSplit, j))
    decreases |units| - j
  {
    hide SoundUnits, SingleUnits, SortIds;
    if j < |units| {
      SplitUnitsSound(e, units, toSplit, j + 1);
      FrontSound(e, units, toSplit, j);
      SoundConcat(e, if j in toSplit then SingleUnits(e, SortIds(units[j].channels)) else [units[j]],
                  SplitUnits(e, units, toSplit, j + 1));
    } else {
      NothingSound(e);
    }
  }

  lemma MarkFailedSound(e: Env, units: seq<ReadUnit>, failed: seq<nat>)
    requires SoundUnits(e, units)
    ensures SoundUnits(e, MarkFailed(units, failed)) && SameShape(units, MarkFailed(units, failed))
  {
    var r := MarkFailed(units, failed);
    forall j | 0 <= j < |r| ensures WellFormed(e.tpl, r[j]) && SweepInside(r[j]) {
      ShapeKeepsWellFormed(e, units[j], r[j]);
    }
  }

  lemma {:induction false} SameShapeCount(a: seq<ReadUnit>, b: seq<ReadUnit>, i: nat)
    requires SameShape(a, b)
    ensures Occurs(a, i) == Occurs(b, i)
  {
    if a != [] {
      assert Plain(a[0]) == Plain(b[0]);
      assert SameShape(a[1..], b[1..]);
      SameShapeCount(a[1..], b[1..], i);
    }
  }

  lemma EndPassInv(e: Env, s: Poll)
    requires Partition(e.tpl, s.units) && SoundUnits(e, s.units) && ProbingIsSilent(e, s)
    ensures Inv(e, EndPass(e, s))
  {
    var units := if s.answered then MarkFailed(s.units, s.failed) else s.units;
    MarkFailedSound(e, s.units, s.failed);
    SplitUnitsSound(e, units, s.toSplit, 0);
    forall i: nat ensures Occurs(SplitUnits(e, units, s.toSplit, 0), i) == if i < |e.tpl| then 1 else 0 {
      SplitUnitsCount(e, units, s.toSplit, 0, i);
      assert units[0..] == units;
      SameShapeCount(s.units, units, i);
    }
  }

  lemma PassInv(e: Env, s: Poll)
    requires Inv(e, s)
    ensures Inv(e, Pass(e, s))
  {
    var t := PassLoop(e, StartPass(s), PassOrder(s), 0);
    PassLoopInv(e, StartPass(s), PassOrder(s), 0);
    forall i: nat ensures Occurs(t.units, i) == if i < |e.tpl| then 1 else 0 {
      SameShapeCount(s.units, t.units, i);
    }
    EndPassInv(e, t);
  }

  /** A property that every pass keeps holds after any number of passes. */
  lemma {:induction false} RunKeeps(e: Env, s: Poll, n: nat, P: Poll -> bool)
    requires P(s)
    requires forall x {:trigger Pass(e, x)} :: P(x) ==> P(Pass(e, x))
    ensures P(Run(e, s, n))
  {
    hide Pass;
    if n > 0 {
      RunKeeps(e, s, n - 1, P);
    }
  }

  lemma {:induction false} RunContinues(e: Env, s: Poll, k: nat, m: nat)
    ensures Run(e, Run(e, s, k), m) == Run(e, s, k + m)
  {
    hide Pass;
    if m > 0 {
      RunContinues(e, s, k, m - 1);
    }
  }

  lemma InitInv(e: Env, units: seq<ReadUnit>)
    requires Fresh(e, units)
    ensures Inv(e, Init(units))
  {
  }

  /** Every state of every run: the units partition the template, however many blocks were
      split, and a probed device has used up the threshold. */
  lemma RunInv(e: Env, units: seq<ReadUnit>, n: nat)
    requires Fresh(e, units)
    ensures Inv(e, Run(e, Init(units), n))
  {
    var P := (s: Poll) => Inv(e, s);
    InitInv(e, units);
    forall s | P(s) ensures P(Pass(e, s)) {
      PassInv(e, s);
    }
    RunKeeps(e, Init(units), n, P);
  }

  lemma UnitsStay(e: Env, s: Poll, t: Poll)
    requires Inv(e, s) && Inv(e, t) && s.units != []
    ensures t.units != []
  {
    var c := s.units[0].channels[0];
    assert c < |e.tpl| && Occurs([], c) == 0;
    assert Occurs(t.units, c) == 1;
  }

  /** A plan never runs out of units. */
  lemma UnitsRemain(e: Env, units: seq<ReadUnit>, n: nat)
    requires Fresh(e, units) && units != []
    ensures Run(e, Init(units), n).units != []
  {
    RunInv(e, units, n);
    InitInv(e, units);
    UnitsStay(e, Init(units), Run(e, Init(units), n));
  }

  lemma PassCountsOne(e: Env, s: Poll)
    requires Inv(e, s)
    ensures Pass(e, s).passes == s.passes + 1
  {
    PassLoopInv(e, StartPass(s), PassOrder(s), 0);
  }

  // ------------------------------------------------- a silent device costs one request

  /** What the next pass asks first while the device is probed: the probe's block, its only
      channel, or the channel its pending sweep stopped at. */
  function ProbeRequest(e: Env, s: Poll): Request
    requires s.units != []
  {
    var u := s.units[ProbeIndex(s)];
    if |u.channels| == 1 then e.Single(u.channels[0])
    else if u.sweepAt == None then Block(u)
    else if u.sweepAt.value < |u.channels| then e.Single(u.channels[u.sweepAt.value]) else Block(u)
  }

  predicate SameTalk(s: Poll, t: Poll) {
    t.answered == s.answered && t.probing == s.probing && t.pubs == s.pubs
  }

  /** One channel that does not answer, read while the pass may stop. */
  lemma FailedSingleStops(e: Env, s: Poll, i: nat, c: nat)
    requires i < |s.units| && MayStop(e, s) && !SingleAnswers(e, s, c)
    ensures var t := PollSingle(e, s, i, c);
            && MayStop(e, t) && t.units == s.units && t.asked == s.asked + [Read(i, e.Single(c), false)]
            && SameTalk(s, t)
  {
  }

  lemma StallTalk(e: Env, s: Poll, i: nat, j: nat)
    requires i < |s.units| && j < |s.units[i].channels| && MayStop(e, s)
    ensures var (t, ok) := SweepStall(s, i, j, false); !ok && MayStop(e, t) && t.asked == s.asked && SameTalk(s, t)
  {
  }

  lemma FailedProbeStops(e: Env, s: Poll, i: nat)
    requires i < |s.units| && i == ProbeIndex(s)
    requires s.units[i].channels != [] && SweepInside(s.units[i])
    requires MayStop(e, s)
    requires !e.dev.answers(s.clock, ProbeRequest(e, s))
    ensures var (t, ok) := PollUnit(e, s, i);
            !ok && MayStop(e, t) && t.asked == s.asked + [Read(i, ProbeRequest(e, s), false)] && SameTalk(s, t)
  {
    var u := s.units[i];
    if |u.channels| == 1 {
      FailedSingleStops(e, s, i, u.channels[0]);
    } else if u.sweepAt.Some? {
      var j := u.sweepAt.value;
      var t := PollSingle(e, s, i, u.channels[j]);
      FailedSingleStops(e, s, i, u.channels[j]);
      StallTalk(e, t, i, j);
      assert PollUnit(e, s, i) == SweepStall(t, i, j, false);
    }
  }

  /** A pass over a probed device that stays silent issues exactly one request, flags or
      keeps everything else, and leaves the device probed. */
  lemma SilentPassAsksOnce(e: Env, s: Poll)
    requires Inv(e, s) && s.units != [] && s.probing
    requires !e.dev.answers(s.clock, ProbeRequest(e, s))
    ensures Pass(e, s).asked == [Read(ProbeIndex(s), ProbeRequest(e, s), false)]
    ensures Pass(e, s).probing && !Pass(e, s).answered && Pass(e, s).pubs == []
  {
    var s0, i := StartPass(s), ProbeIndex(s);
    assert s0.units == s.units && PassOrder(s)[0] == i && ProbeIndex(s0) == i;
    FailedProbeStops(e, s0, i);
  }
}
