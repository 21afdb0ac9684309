/**
 The poller as the program runs it: an object whose methods change its fields step by
 step, with the loops of bridge_template.py. Every method is proved to do what the
 functions of `PollEngine` say, so the theorems about passes and runs are about it.
 */
module TemplatePoller {
  import opened Base
  import opened ReadPlan
  import opened PollEngine
  import opened PollInvariants

  lemma SplitUnfolds(e: Env, units: seq<ReadUnit>, toSplit: seq<nat>, j: nat, kept: seq<ReadUnit>)
    requires j <= |units|
    ensures kept + PollEngine.SplitUnits(e, units, toSplit, j) ==
      if j == |units| then kept
      else (kept + if j in toSplit then SingleUnits(e, SortIds(units[j].channels)) else [units[j]])
           + PollEngine.SplitUnits(e, units, toSplit, j + 1)
  {
  }

  lemma OrderIgnoresLists(s: Poll, t: Poll)
    requires t == s.(failed := t.failed, toSplit := t.toSplit)
    ensures PassOrder(s) == PassOrder(t)
  {
  }

  lemma PassLoopUnfolds(e: Env, s: Poll, order: seq<nat>, k: nat)
    requires forall m :: 0 <= m < |order| ==> order[m] < |s.units|
    requires k < |order|
    ensures var (t, ok) := PollEngine.PollUnit(e, s, order[k]);
            var f := t.(failed := t.failed + [order[k]]);
            PassLoop(e, s, order, k) ==
              if ok then PassLoop(e, t, order, k + 1)
              else if PollEngine.MayStop(e, f) then StopPass(f, order[k], order[k + 1..])
              else PassLoop(e, f, order, k + 1)
  {
  }

  lemma PassLoopDone(e: Env, s: Poll, order: seq<nat>, k: nat)
    requires forall m :: 0 <= m < |order| ==> order[m] < |s.units|
    requires k >= |order|
    ensures PassLoop(e, s, order, k) == s
  {
  }

  lemma SweepDone(e: Env, s: Poll, i: nat, j: nat, readNow: bool)
    requires i < |s.units| && j >= |s.units[i].channels|
    ensures Sweep(e, s, i, j, readNow) == (PollEngine.CloseSweep(s, i), readNow)
  {
  }

  /** One turn of the sweep. */
  lemma SweepUnfolds(e: Env, s: Poll, i: nat, j: nat, readNow: bool)
    requires i < |s.units| && j < |s.units[i].channels|
    ensures PollEngine.PollSingle(e, s, i, s.units[i].channels[j]).units[i].channels == s.units[i].channels
    ensures var c := s.units[i].channels[j];
            var t := PollEngine.PollSingle(e, s, i, c);
            Sweep(e, s, i, j, readNow) ==
              if SingleAnswers(e, s, c) then Sweep(e, SetUnit(t, i, t.units[i].(sweepOk := true)), i, j + 1, true)
              else if PollEngine.MayStop(e, t) then SweepStall(t, i, j, readNow)
              else Sweep(e, t, i, j + 1, readNow)
  {
  }

  class Poller {
    const env: Env
    const pollS: real
    var tPoll: real
    var units: seq<ReadUnit>
    var probeCh: Option<nat>
    var probing: bool
    var freshFails: nat
    var passes: nat
    var answeredNow: bool
    // the wire and the broker, as far as the poller drives them
    var clock: nat
    var asked: seq<Read>
    var pubs: seq<Publication>
    var flags: seq<nat>

    /** The abstract state; the two work lists of a pass are locals of `PollIo`. */
    ghost function State(failed: seq<nat>, toSplit: seq<nat>): Poll
      reads this
    {
      Poll(units, probeCh, probing, freshFails, passes, clock, answeredNow, failed, toSplit, asked, pubs, flags)
    }

    constructor (env: Env, pollS: real, units: seq<ReadUnit>)
      ensures State([], []) == Init(units)
      ensures this.env == env && this.pollS == pollS && tPoll == 0.0
    {
      this.env, this.pollS, this.tPoll, this.units := env, pollS, 0.0, units;
      probeCh, probing, freshFails, passes, answeredNow := None, false, 0, 0, false;
      clock, asked, pubs, flags := 0, [], [], [];
    }

    method NoteRead(i: nat, req: Request, ok: bool, ghost failed: seq<nat>, ghost toSplit: seq<nat>)
      requires i < |units|
      modifies this
      ensures State(failed, toSplit) == PollEngine.NoteRead(old(State(failed, toSplit)), i, req, ok)
      ensures tPoll == old(tPoll)
    {
      clock := clock + 1;
      asked := asked + [Read(i, req, ok)];
      if ok {
        freshFails := 0;
        probing := false;
        answeredNow := true;
        probeCh := Some(Head(units[i]));
        units := units[i := units[i].(alive := Some(true))];
      } else if units[i].alive != Some(false) {
        freshFails := freshFails + 1;
      }
    }

    method MayStop() returns (stop: bool)
      ensures stop == PollEngine.MayStop(env, State([], []))
    {
      stop := passes > 0 && freshFails >= env.threshold;
    }

    method PollSingle(i: nat, c: nat, ghost failed: seq<nat>, ghost toSplit: seq<nat>) returns (ok: bool)
      requires i < |units|
      modifies this
      ensures ok == old(SingleAnswers(env, State(failed, toSplit), c))
      ensures State(failed, toSplit) == PollEngine.PollSingle(env, old(State(failed, toSplit)), i, c)
      ensures tPoll == old(tPoll)
    {
      var at := clock;
      var req := env.Single(c);
      ok := env.dev.answers(at, req);
      NoteRead(i, req, ok, failed, toSplit);
      if ok {
        pubs := pubs + [Publication(c, env.dev.Contents(at, req), at)];
      } else {
        flags := flags + [c];
      }
    }

    /** A sweep that reached the end closes the block attempt. */
    method CloseSweep(i: nat, toSplit: seq<nat>, ghost failed: seq<nat>) returns (toSplit': seq<nat>)
      requires i < |units|
      modifies this
      ensures State(failed, toSplit') == PollEngine.CloseSweep(old(State(failed, toSplit)), i)
      ensures tPoll == old(tPoll)
    {
      toSplit' := toSplit;
      units := units[i := units[i].(sweepAt := None)];
      if units[i].sweepOk {
        units := units[i := units[i].(splitStreak := units[i].splitStreak + 1)];
        if units[i].splitStreak >= 2 {
          toSplit' := toSplit + [i];
        }
      } else {
        units := units[i := units[i].(splitStreak := 0)];
      }
    }

    /** Read a refused block's channels one by one from `from`. */
    method SweepSingles(i: nat, from: nat, toSplit: seq<nat>, ghost failed: seq<nat>)
      returns (ok: bool, toSplit': seq<nat>)
      requires i < |units|
      modifies this
      ensures (State(failed, toSplit'), ok) == Sweep(env, old(State(failed, toSplit)), i, from, false)
      ensures tPoll == old(tPoll)
    {
      hide Sweep, PollEngine.PollSingle, PollEngine.CloseSweep;
      var chans := units[i].channels;
      ok := false;
      toSplit' := toSplit;
      var j := from;
      while j < |chans|
        invariant i < |units| && units[i].channels == chans
        invariant Sweep(env, State(failed, toSplit), i, j, ok) ==
          Sweep(env, old(State(failed, toSplit)), i, from, false)
        invariant tPoll == old(tPoll)
      {
        label before:
        var hit := PollSingle(i, chans[j], failed, toSplit);
        SweepUnfolds(env, old@before(State(failed, toSplit)), i, j, ok);
        if hit {
          ok := true;
          units := units[i := units[i].(sweepOk := true)];
        } else {
          var stop := MayStop();
          if stop {
            flags := flags + chans[j + 1..];
            if j + 1 < |chans| {
              ok := false;
              units := units[i := units[i].(sweepAt := Some(j + 1))];
            } else {
              toSplit' := CloseSweep(i, toSplit, failed);
            }
            return;
          }
        }
        j := j + 1;
      }
      SweepDone(env, State(failed, toSplit), i, j, ok);
      toSplit' := CloseSweep(i, toSplit, failed);
    }

    /** A block read: every channel gets its slice. */
    method PublishBlock(u: ReadUnit, at: nat)
      modifies this`pubs
      ensures pubs == old(pubs) + SlicePubs(env, u, env.dev.Contents(at, Block(u)), at)
    {
      var data := env.dev.Contents(at, Block(u));
      ghost var all := SlicePubs(env, u, data, at);
      ghost var had := pubs;
      for k := 0 to |u.channels|
        invariant pubs == had + all[..k]
      {
        var ch := env.At(u.channels[k]);
        pubs := pubs + [Publication(u.channels[k], Slice(data, ch.address - u.start, ch.Words()), at)];
        assert all[..k + 1] == all[..k] + [all[k]];
      }
      assert all[..|u.channels|] == all;
    }

    /** Read one unit and publish it. */
    method PollUnit(i: nat, toSplit: seq<nat>, ghost failed: seq<nat>) returns (ok: bool, toSplit': seq<nat>)
      requires i < |units|
      modifies this
      ensures (State(failed, toSplit'), ok) == PollEngine.PollUnit(env, old(State(failed, toSplit)), i)
      ensures tPoll == old(tPoll)
    {
      hide Sweep, SlicePubs;
      var u := units[i];
      toSplit' := toSplit;
      if |u.channels| == 1 {
        ok := PollSingle(i, u.channels[0], failed, toSplit);
        return;
      }
      if u.sweepAt.Some? {
        ok, toSplit' := SweepSingles(i, u.sweepAt.value, toSplit, failed);
        return;
      }
      var at := clock;
      if env.dev.answers(at, Block(u)) {
        NoteRead(i, Block(u), true, failed, toSplit);
        PublishBlock(u, at);
        units := units[i := units[i].(splitStreak := 0)];
        ok := true;
        return;
      }
      units := units[i := u.(sweepAt := Some(0), sweepOk := false)];
      NoteRead(i, Block(u), false, failed, toSplit);
      var stop := MayStop();
      if stop {
        flags := flags + u.channels;
        ok := false;
      } else {
        ok, toSplit' := SweepSingles(i, 0, toSplit, failed);
      }
    }

    /** Replace each refused block by its channels' single reads, in place. */
    method SplitUnits(toSplit: seq<nat>)
      modifies this`units
      ensures units == PollEngine.SplitUnits(env, old(units), toSplit, 0)
    {
      hide PollEngine.SplitUnits, SingleUnits, SortIds;
      var kept: seq<ReadUnit> := [];
      for j := 0 to |units|
        invariant units == old(units)
        invariant PollEngine.SplitUnits(env, units, toSplit, 0) == kept + PollEngine.SplitUnits(env, units, toSplit, j)
      {
        SplitUnfolds(env, units, toSplit, j, kept);
        kept := kept + if j in toSplit then SingleUnits(env, SortIds(units[j].channels)) else [units[j]];
      }
      SplitUnfolds(env, units, toSplit, |units|, kept);
      units := kept;
    }

    /** The units of the rest of the order keep their last value: say it is stale. */
    method FlagRest(rest: seq<nat>)
      modifies this`flags
      ensures flags == old(flags) + ChannelsOf(units, rest)
    {
      ghost var had := flags;
      for k := 0 to |rest|
        invariant flags + ChannelsOf(units, rest[k..]) == had + ChannelsOf(units, rest)
      {
        if rest[k] < |units| {
          flags := flags + units[rest[k]].channels;
        }
        assert rest[k..][1..] == rest[k + 1..];
      }
      assert rest[|rest|..] == [];
    }

    /** The loop of a pass over `order`. */
    method PollOrder(order: seq<nat>) returns (failed: seq<nat>, toSplit: seq<nat>)
      requires forall m :: 0 <= m < |order| ==> order[m] < |units|
      modifies this
      ensures State(failed, toSplit) == PassLoop(env, old(State([], [])), order, 0)
      ensures tPoll == old(tPoll)
    {
      hide PollEngine.PollUnit, PassLoop, NextProbe;
      failed, toSplit := [], [];
      for k := 0 to |order|
        invariant |units| == old(|units|)
        invariant PassLoop(env, State(failed, toSplit), order, k) == PassLoop(env, old(State([], [])), order, 0)
        invariant tPoll == old(tPoll)
      {
        PassLoopUnfolds(env, State(failed, toSplit), order, k);
        var ok;
        ok, toSplit := PollUnit(order[k], toSplit, failed);
        if !ok {
          failed := failed + [order[k]];
          var stop := MayStop();
          if stop {
            if probing {
              probeCh := Some(Head(units[NextProbe(units, order[k])]));
            }
            probing := true;
            FlagRest(order[k + 1..]);
            return;
          }
        }
      }
      PassLoopDone(env, State(failed, toSplit), order, |order|);
    }

    /** After the loop: mark what failed while the device answered, split, count the pass. */
    method ClosePass(failed: seq<nat>, toSplit: seq<nat>)
      modifies this
      ensures State(failed, toSplit) == EndPass(env, old(State(failed, toSplit)))
      ensures tPoll == old(tPoll)
    {
      hide PollEngine.SplitUnits, MarkFailed;
      if answeredNow {
        units := MarkFailed(units, failed);
      }
      SplitUnits(toSplit);
      passes := passes + 1;
    }

    /** Not due yet, or nothing to poll: nothing happens. Due: exactly one pass. The ghost
        lists are the work lists of the pass before and of this one. */
    method PollIo(now: real, ghost failed: seq<nat>, ghost toSplit: seq<nat>)
      returns (ghost failed': seq<nat>, ghost toSplit': seq<nat>)
      modifies this
      ensures old(units) == [] || now - old(tPoll) < pollS ==>
        State(failed', toSplit') == old(State(failed, toSplit)) && tPoll == old(tPoll)
      ensures old(units) != [] && now - old(tPoll) >= pollS ==>
        State(failed', toSplit') == Pass(env, old(State(failed, toSplit))) && tPoll == now
    {
      hide PassLoop, EndPass, PassOrder;
      failed', toSplit' := failed, toSplit;
      if units == [] || now - tPoll < pollS {
        return;
      }
      tPoll := now;
      var order := PassOrder(Poll(units, probeCh, probing, freshFails, passes, clock, answeredNow, [], [], asked,
        pubs, flags));
      OrderIgnoresLists(old(State(failed, toSplit)), State([], []));
      answeredNow := false;
      asked, pubs, flags := [], [], [];
      var failedUnits, refused := PollOrder(order);
      ClosePass(failedUnits, refused);
      failed', toSplit' := failedUnits, refused;
    }
  }

  // --------------------------------------------------------------------------- whole runs

  /** How many of these calls are due, and when the latest of those was. */
  function Due(times: seq<real>, pollS: real): (nat, real) {
    if times == [] then (0, 0.0) else
      var (n, last) := Due(times[..|times| - 1], pollS);
      var now := times[|times| - 1];
      if now - last < pollS then (n, last) else (n + 1, now)
  }

  /** Call after call, due or not: the object is in the state that the run theorems speak of. An
      empty plan is never polled. */
  method RunPolls(env: Env, pollS: real, units: seq<ReadUnit>, times: seq<real>)
    returns (poller: Poller, ghost failed: seq<nat>, ghost toSplit: seq<nat>)
    requires Fresh(env, units)
    ensures poller.State(failed, toSplit) == Run(env, Init(units), if units == [] then 0 else Due(times, pollS).0)
  {
    hide Pass, Fresh;
    poller := new Poller(env, pollS, units);
    failed, toSplit := [], [];
    var k := 0;
    while k < |times|
      invariant k <= |times| && fresh(poller) && poller.env == env && poller.pollS == pollS
      invariant poller.State(failed, toSplit) ==
        Run(env, Init(units), if units == [] then 0 else Due(times[..k], pollS).0)
      invariant units != [] ==> poller.tPoll == Due(times[..k], pollS).1
    {
      assert times[..k + 1][..k] == times[..k];
      if units != [] {
        UnitsRemain(env, units, Due(times[..k], pollS).0);
      }
      failed, toSplit := poller.PollIo(times[k], failed, toSplit);
      k := k + 1;
    }
    assert times[..k] == times;
  }

  lemma PlannedIsFresh(tpl: seq<Channel>, units: seq<ReadUnit>, maxRead: nat)
    requires Partition(tpl, units) && forall u :: u in units ==> Plannable(tpl, u, maxRead)
    ensures forall e: Env :: e.tpl == tpl ==> Fresh(e, units)
    ensures units == [] <==> tpl == []
  {
    forall j | 0 <= j < |units| ensures WellFormed(tpl, units[j]) && Untouched(units[j]) {
      assert units[j] in units;
    }
    if units != [] {
      assert units[0].channels[0] < |tpl|;
    } else {
      assert tpl != [] ==> Occurs(units, 0) == 1;
    }
  }

  /** What the planner builds is a plan as the run theorems ask for, on any device. */
  method PlanTemplate(tpl: seq<Channel>, maxRead: nat, regHole: nat, bitHole: nat) returns (units: seq<ReadUnit>)
    ensures forall e: Env :: e.tpl == tpl ==> Fresh(e, units)
    ensures units == [] <==> tpl == []
    ensures maxRead == 1 ==> |units| == |tpl| && forall i :: 0 <= i < |tpl| ==> units[i].channels == [i]
  {
    hide *;
    units := BuildReadUnits(tpl, maxRead, regHole, bitHole);
    PlannedIsFresh(tpl, units, maxRead);
  }

  /** A device from its template to any number of polls: the plan is built, and all the theorems about
      runs of a fresh plan are about the poller that follows. */
  method RunDevice(env: Env, pollS: real, maxRead: nat, regHole: nat, bitHole: nat, times: seq<real>)
    returns (units: seq<ReadUnit>, poller: Poller, ghost failed: seq<nat>, ghost toSplit: seq<nat>)
    ensures Fresh(env, units) && (units == [] <==> env.tpl == [])
    ensures poller.State(failed, toSplit) == Run(env, Init(units), if units == [] then 0 else Due(times, pollS).0)
  {
    units := PlanTemplate(env.tpl, maxRead, regHole, bitHole);
    poller, failed, toSplit := RunPolls(env, pollS, units, times);
  }
}
