/**
 Which unit a silent device is probed with, window after window: the probe moves on to the
 next unit, going round, that answered when the device last answered, and to simply the next
 one while none ever has.
 */
module ProbeRotation {
  import opened Base
  import opened ReadPlan
  import opened PollEngine
  import opened PollInvariants
  import opened SinglePlan
  import opened ReturningDevice
  import opened Silence

  /** A unit worth probing: it answered when it was last read, or no unit ever has. */
  predicate Eligible(units: seq<ReadUnit>, q: nat) {
    q < |units| && (units[q].alive == Some(true) || !Known(units))
  }

  /** How many places after unit `p` unit `q` comes, going round. */
  function Ahead(n: nat, p: nat, q: nat): (d: nat)
    requires p < n && q < n
    ensures d < n && (d == 0 <==> p == q)
  {
    if q >= p then q - p else q - p + n
  }

  lemma AheadOf(n: nat, p: nat, step: nat)
    requires p < n && step < n
    ensures Ahead(n, p, (p + step) % n) == step
  {
    Wraps(p + step, n);
  }

  /** The search finds a unit worth probing no farther than any other one. */
  lemma {:induction false} NextFromNearest(units: seq<ReadUnit>, i: nat, step: nat, q: nat)
    requires i < |units| && 1 <= step && Eligible(units, q) && step <= Ahead(|units|, i, q)
    ensures var r := NextFrom(units, i, step);
            Eligible(units, r) && step <= Ahead(|units|, i, r) <= Ahead(|units|, i, q)
    decreases |units| - step
  {
    var n := |units|;
    AheadOf(n, i, step);
    var j := (i + step) % n;
    if !Eligible(units, j) {
      NextFromNearest(units, i, step + 1, q);
    }
  }

  lemma ProbeOfSilentPass(e: Env, s: Poll)
    requires SingleInv(e, s) && s.units != [] && s.probing
    requires !e.dev.answers(s.clock, ProbeRequest(e, s))
    ensures var t := Pass(e, s);
            SingleInv(e, t) && t.units == s.units && t.probe == Some(Head(s.units[NextProbe(s.units, ProbeIndex(s))]))
  {
    PassMemory(e, s);
    SilentPassAsksOnce(e, s);
    var s0, i := StartPass(s), ProbeIndex(s);
    assert s0.units == s.units && PassOrder(s)[0] == i && ProbeIndex(s0) == i;
    FailedProbeStops(e, s0, i);
    PollOne(e, s0, i);
    hide PollUnit, SplitUnits, NextProbe, SingleInv, ChannelsOf;
  }

  /** A unit is found again by its channel. */
  lemma HeadIsFound(e: Env, s: Poll, j: nat)
    requires SingleInv(e, s) && j < |s.units| && s.probe == Some(Head(s.units[j]))
    ensures ProbeIndex(s) == j
  {
    forall a | 0 <= a < j ensures Head(s.units[a]) != Head(s.units[j]) {
      HeadsDistinct(s.units, a, j);
    }
    FindUnitFinds(s.units, j, 0);
  }

  /** A silent pass moves the probe of a single-channel plan to the nearest unit worth probing after
      it, and changes nothing else about the units. */
  lemma ProbeMovesOn(e: Env, s: Poll)
    requires SingleInv(e, s) && s.units != [] && s.probing
    requires !e.dev.answers(s.clock, ProbeRequest(e, s))
    ensures Inv(e, s) && SingleInv(e, Pass(e, s))
    ensures Pass(e, s).units == s.units && ProbeIndex(Pass(e, s)) == NextProbe(s.units, ProbeIndex(s))
    ensures forall q :: Eligible(s.units, q) && q != ProbeIndex(s) ==>
      var p, r := ProbeIndex(s), NextProbe(s.units, ProbeIndex(s));
      Eligible(s.units, r) && 1 <= Ahead(|s.units|, p, r) <= Ahead(|s.units|, p, q)
  {
    var p := ProbeIndex(s);
    ProbeOfSilentPass(e, s);
    hide Pass;
    HeadIsFound(e, Pass(e, s), NextProbe(s.units, p));
    forall q | Eligible(s.units, q) && q != p
      ensures var r := NextProbe(s.units, p);
        Eligible(s.units, r) && 1 <= Ahead(|s.units|, p, r) <= Ahead(|s.units|, p, q)
    {
      NextFromNearest(s.units, p, 1, q);
    }
  }

  lemma SilentNow(e: Env, s: Poll)
    requires Silent(e, s.clock) && s.units != []
    ensures !e.dev.answers(s.clock, ProbeRequest(e, s))
  {
  }

  /** While the silence lasts the probe comes to every unit worth probing, one place further in
      every pass or more. */
  lemma {:induction false} ProbeReaches(e: Env, s: Poll, q: nat) returns (m: nat)
    requires SingleInv(e, s) && s.units != [] && s.probing && Silent(e, s.clock) && Eligible(s.units, q)
    ensures m <= Ahead(|s.units|, ProbeIndex(s), q)
    ensures var t := Run(e, s, m);
            SingleInv(e, t) && t.units == s.units && t.probing && Silent(e, t.clock) && ProbeIndex(t) == q
    decreases Ahead(|s.units|, ProbeIndex(s), q)
  {
    hide Pass, SingleInv, Inv, Silent, NextProbe, ProbeIndex, ProbeRequest;
    m := 0;
    if ProbeIndex(s) != q {
      SilentNow(e, s);
      ProbeMovesOn(e, s);
      ProbedPassStaysProbed(e, s);
      m := ProbeReaches(e, Pass(e, s), q);
      assert Run(e, s, 0) == s && Run(e, s, 1) == Pass(e, s);
      RunContinues(e, s, 1, m);
      m := m + 1;
    }
  }

  lemma SilentProbe(e: Env, s: Poll)
    requires SingleInv(e, s) && s.units != [] && s.probing
    requires !e.dev.answers(s.clock, ProbeRequest(e, s))
    ensures Pass(e, s).asked == [Read(ProbeIndex(s), ProbeRequest(e, s), false)]
  {
    SilentPassAsksOnce(e, s);
  }

  /** From any state of any run in which a silent device is probed: within as many passes as the plan
      has units, each unit that answered when the device last answered (each unit at all, if none
      ever has) is the one that a whole pass is spent on. */
  lemma EveryLiveUnitIsProbed(e: Env, units: seq<ReadUnit>, n: nat, q: nat) returns (m: nat)
    requires Fresh(e, units) && Singles(units) && units != []
    requires var s := Run(e, Init(units), n); s.probing && Silent(e, s.clock) && Eligible(s.units, q)
    ensures m < |units|
    ensures var t := Run(e, Init(units), n + m);
            && t.units != [] && ProbeIndex(t) == q
            && Run(e, Init(units), n + m + 1).asked == [Read(q, ProbeRequest(e, t), false)]
  {
    hide Pass, SingleInv, ProbeIndex;
    var s := Run(e, Init(units), n);
    SingleRunInv(e, units, n);
    NonEmptyRun(e, units, n);
    m := ProbeReaches(e, s, q);
    RunContinues(e, Init(units), n, m);
    var t := Run(e, s, m);
    SilentNow(e, t);
    SilentProbe(e, t);
  }
}
