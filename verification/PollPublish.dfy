/**
 What a pass publishes. Block reads refine single reads: a value sliced out of a block
 is the value the channel's own read would have returned. And nothing freezes silently:
 a pass publishes or flags every channel exactly once, the only exception being the
 channels a resumed sweep has already dealt with.
 */
module PollPublish {
  import opened Base
  import opened ReadPlan
  import opened PollEngine
  import opened PollInvariants

  // ------------------------------------------------------------ published values are honest

  /** The words a single read of the channel returns when request `p.via` is served. */
  ghost predicate HonestOne(e: Env, p: Publication) {
    p.words == e.dev.Contents(p.via, e.Single(p.ch))
  }

  ghost predicate Honest(e: Env, pubs: seq<Publication>) {
    forall k :: 0 <= k < |pubs| ==> HonestOne(e, pubs[k])
  }

  /** A span inside another, sliced out of what the wider one returned. */
  lemma SpanSlice(d: Device, via: nat, wide: Request, narrow: Request)
    requires narrow.regType == wide.regType && narrow.count >= 0
    requires wide.start <= narrow.start && narrow.start + narrow.count <= wide.start + wide.count
    ensures Slice(d.Contents(via, wide), narrow.start - wide.start, narrow.count) == d.Contents(via, narrow)
  {
    var off, n := narrow.start - wide.start, narrow.count;
    var data, own := d.Contents(via, wide), d.Contents(via, narrow);
    forall m | 0 <= m < n ensures data[off..off + n][m] == own[m] {
      assert data[off + m] == d.memory(via, wide.regType, wide.start + (off + m));
      assert wide.start + (off + m) == narrow.start + m;
    }
  }

  lemma SliceIsSingleRead(e: Env, u: ReadUnit, via: nat, k: nat)
    requires WellFormed(e.tpl, u) && k < |u.channels|
    ensures var c := u.channels[k];
            Slice(e.dev.Contents(via, Block(u)), e.At(c).address - u.start, e.At(c).Words())
            == e.dev.Contents(via, e.Single(c))
  {
    var c := u.channels[k];
    SpanSlice(e.dev, via, Block(u), e.Single(c));
  }

  lemma SlicePubAt(e: Env, u: ReadUnit, data: seq<int>, via: nat, k: nat)
    requires k < |u.channels|
    ensures var c := u.channels[k];
            var words := Slice(data, e.At(c).address - u.start, e.At(c).Words());
            SlicePubs(e, u, data, via)[k] == Publication(c, words, via)
  {
  }

  lemma SlicesHonest(e: Env, u: ReadUnit, via: nat)
    requires WellFormed(e.tpl, u)
    ensures Honest(e, SlicePubs(e, u, e.dev.Contents(via, Block(u)), via))
  {
    hide Slice, WellFormed, Env.At, Env.Single, Device.Contents;
    var data := e.dev.Contents(via, Block(u));
    forall k | 0 <= k < |u.channels| ensures HonestOne(e, SlicePubs(e, u, data, via)[k]) {
      SliceIsSingleRead(e, u, via, k);
      SlicePubAt(e, u, data, via, k);
    }
    hide SlicePubs;
  }

  lemma {:induction false} SweepHonest(e: Env, s: Poll, i: nat, j: nat, readNow: bool)
    requires i < |s.units| && Honest(e, s.pubs)
    ensures Honest(e, Sweep(e, s, i, j, readNow).0.pubs)
    decreases |s.units[i].channels| - j
  {
    var chans := s.units[i].channels;
    if j < |chans| {
      if SingleAnswers(e, s, chans[j]) {
        SweepHitMoves(e, s, i, chans[j]);
        SweepHonest(e, SweepHit(e, s, i, chans[j]), i, j + 1, true);
      } else {
        var t := PollSingle(e, s, i, chans[j]);
        PollSingleMoves(e, s, i, chans[j]);
        if !MayStop(e, t) {
          SweepHonest(e, t, i, j + 1, readNow);
        }
      }
    }
  }

  lemma PollUnitHonest(e: Env, s: Poll, i: nat)
    requires i < |s.units| && WellFormed(e.tpl, s.units[i]) && Honest(e, s.pubs)
    ensures Honest(e, PollUnit(e, s, i).0.pubs)
  {
    var u := s.units[i];
    hide Sweep, WellFormed, Device.Contents, SlicePubs;
    if |u.channels| > 1 {
      if u.sweepAt == None {
        if BlockAnswers(e, s, i) {
          SlicesHonest(e, u, s.clock);
        } else if !MayStop(e, BlockFailed(s, i)) {
          SweepHonest(e, BlockFailed(s, i), i, 0, false);
        }
      } else {
        SweepHonest(e, s, i, u.sweepAt.value, false);
      }
    }
  }

  lemma {:induction false} PassLoopHonest(e: Env, s: Poll, order: seq<nat>, k: nat)
    requires forall m :: 0 <= m < |order| ==> order[m] < |s.units|
    requires SoundUnits(e, s.units) && Honest(e, s.pubs)
    ensures Honest(e, PassLoop(e, s, order, k).pubs)
    decreases |order| - k
  {
    if k < |order| {
      assert WellFormed(e.tpl, s.units[order[k]]);
      hide PollUnit, SoundUnits, Honest, WellFormed, NextProbe, ChannelsOf;
      var (t, ok) := PollUnit(e, s, order[k]);
      PollUnitHonest(e, s, order[k]);
      PollUnitSound(e, s, order[k]);
      if ok {
        PassLoopHonest(e, t, order, k + 1);
      } else {
        var f := t.(failed := t.failed + [order[k]]);
        if !MayStop(e, f) {
          PassLoopHonest(e, f, order, k + 1);
        }
      }
    }
  }

  lemma PassHonest(e: Env, s: Poll)
    requires Inv(e, s)
    ensures Honest(e, Pass(e, s).pubs)
  {
    hide PassLoop;
    PassLoopHonest(e, StartPass(s), PassOrder(s), 0);
  }

  /** In every pass of every run, whatever blocks the plan groups, each published value is
      exactly what reading that channel alone would have returned at that moment. */
  lemma RunPublishesHonestly(e: Env, units: seq<ReadUnit>, n: nat)
    requires Fresh(e, units) && n > 0
    ensures Honest(e, Run(e, Init(units), n).pubs)
  {
    RunInv(e, units, n - 1);
    PassHonest(e, Run(e, Init(units), n - 1));
    hide Pass, Inv, Honest;
    assert Run(e, Init(units), n) == Pass(e, Run(e, Init(units), n - 1));
  }

  // ------------------------------------------------------------ every channel once per pass

  function PubChannels(pubs: seq<Publication>): (r: seq<nat>)
    ensures |r| == |pubs|
  {
    seq(|pubs|, k requires 0 <= k < |pubs| => pubs[k].ch)
  }

  /** How often this pass published or flagged channel `c`. */
  ghost function Touch(s: Poll, c: nat): nat {
    multiset(s.flags)[c] + multiset(PubChannels(s.pubs))[c]
  }

  lemma PubAppend(a: seq<Publication>, b: seq<Publication>, c: nat)
    ensures multiset(PubChannels(a + b))[c] == multiset(PubChannels(a))[c] + multiset(PubChannels(b))[c]
  {
    assert PubChannels(a + b) == PubChannels(a) + PubChannels(b);
  }

  lemma PollSingleTouch(e: Env, s: Poll, i: nat, ch: nat, c: nat)
    requires i < |s.units|
    ensures Touch(PollSingle(e, s, i, ch), c) == Touch(s, c) + if c == ch then 1 else 0
  {
    if SingleAnswers(e, s, ch) {
      var p := Publication(ch, e.dev.Contents(s.clock, e.Single(ch)), s.clock);
      PubAppend(s.pubs, [p], c);
      assert PubChannels([p]) == [ch];
    }
  }

  /** Occurrences of `c` among the channels from position `j` on. */
  ghost function From(chans: seq<nat>, j: nat, c: nat): nat {
    if j <= |chans| then multiset(chans[j..])[c] else 0
  }

  lemma FromStep(chans: seq<nat>, j: nat, c: nat)
    requires j < |chans|
    ensures From(chans, j, c) == From(chans, j + 1, c) + if c == chans[j] then 1 else 0
  {
    assert chans[j..] == [chans[j]] + chans[j + 1..];
  }

  lemma StallTouch(s: Poll, i: nat, j: nat, readNow: bool, c: nat)
    requires i < |s.units| && j < |s.units[i].channels|
    ensures Touch(SweepStall(s, i, j, readNow).0, c) == Touch(s, c) + From(s.units[i].channels, j + 1, c)
  {
  }

  lemma HitTouch(e: Env, s: Poll, i: nat, ch: nat, c: nat)
    requires i < |s.units|
    ensures Touch(SweepHit(e, s, i, ch), c) == Touch(s, c) + if c == ch then 1 else 0
  {
    PollSingleTouch(e, s, i, ch, c);
  }

  lemma {:induction false} SweepTouch(e: Env, s: Poll, i: nat, j: nat, readNow: bool, c: nat)
    requires i < |s.units| && j <= |s.units[i].channels|
    ensures Touch(Sweep(e, s, i, j, readNow).0, c) == Touch(s, c) + From(s.units[i].channels, j, c)
    decreases |s.units[i].channels| - j
  {
    var chans := s.units[i].channels;
    if j < |chans| {
      FromStep(chans, j, c);
      if SingleAnswers(e, s, chans[j]) {
        var h := SweepHit(e, s, i, chans[j]);
        SweepHitMoves(e, s, i, chans[j]);
        HitTouch(e, s, i, chans[j], c);
        SweepTouch(e, h, i, j + 1, true, c);
      } else {
        var t := PollSingle(e, s, i, chans[j]);
        PollSingleMoves(e, s, i, chans[j]);
        PollSingleTouch(e, s, i, chans[j], c);
        SweepMissTouch(e, t, i, j, readNow, c);
      }
    }
  }

  lemma {:induction false} SweepMissTouch(e: Env, t: Poll, i: nat, j: nat, readNow: bool, c: nat)
    requires i < |t.units| && j < |t.units[i].channels|
    ensures var due := Touch(t, c) + From(t.units[i].channels, j + 1, c);
            && (MayStop(e, t) ==> Touch(SweepStall(t, i, j, readNow).0, c) == due)
            && (!MayStop(e, t) ==> Touch(Sweep(e, t, i, j + 1, readNow).0, c) == due)
    decreases |t.units[i].channels| - j, 0
  {
    if MayStop(e, t) {
      StallTouch(t, i, j, readNow, c);
    } else {
      SweepTouch(e, t, i, j + 1, readNow, c);
    }
  }

  /** The position a unit's reading starts from. */
  function Resume(u: ReadUnit): nat {
    if u.sweepAt.Some? then u.sweepAt.value else 0
  }

  ghost function Due(u: ReadUnit, c: nat): nat {
    From(u.channels, Resume(u), c)
  }

  ghost function All(u: ReadUnit, c: nat): nat {
    From(u.channels, 0, c)
  }

  lemma RefusedTouch(e: Env, s: Poll, i: nat, c: nat)
    requires i < |s.units|
    ensures var t := BlockFailed(s, i);
            var r := if MayStop(e, t) then t.(flags := t.flags + s.units[i].channels) else Sweep(e, t, i, 0, false).0;
            Touch(r, c) == Touch(s, c) + All(s.units[i], c)
  {
    var t := BlockFailed(s, i);
    BlockFailedMoves(e, s, i);
    if MayStop(e, t) {
      assert s.units[i].channels[0..] == s.units[i].channels;
    } else {
      SweepTouch(e, t, i, 0, false, c);
    }
  }

  lemma BlockTouch(e: Env, s: Poll, i: nat, c: nat)
    requires i < |s.units|
    ensures Touch(BlockOk(e, s, i), c) == Touch(s, c) + All(s.units[i], c)
  {
    var u := s.units[i];
    var pubs := SlicePubs(e, u, e.dev.Contents(s.clock, Block(u)), s.clock);
    PubAppend(s.pubs, pubs, c);
    assert PubChannels(pubs) == u.channels;
    assert u.channels[0..] == u.channels;
  }

  lemma PollUnitTouch(e: Env, s: Poll, i: nat, c: nat)
    requires i < |s.units| && s.units[i].channels != [] && SweepInside(s.units[i])
    ensures Touch(PollUnit(e, s, i).0, c) == Touch(s, c) + Due(s.units[i], c)
  {
    var u := s.units[i];
    hide Sweep, PollSingle, BlockOk, SlicePubs, BlockFailed, Touch;
    if |u.channels| == 1 {
      PollSingleTouch(e, s, i, u.channels[0], c);
      FromStep(u.channels, 0, c);
    } else if u.sweepAt.Some? {
      SweepTouch(e, s, i, u.sweepAt.value, false, c);
    } else if BlockAnswers(e, s, i) {
      BlockTouch(e, s, i, c);
    } else {
      RefusedTouch(e, s, i, c);
    }
  }

  // ----------------------------------------------------------------------- sums over a pass

  ghost function SumDue(units: seq<ReadUnit>, order: seq<nat>, c: nat): nat {
    if order == [] then 0 else
      (if order[0] < |units| then Due(units[order[0]], c) else 0) + SumDue(units, order[1..], c)
  }

  ghost function SumAll(units: seq<ReadUnit>, order: seq<nat>, c: nat): nat {
    if order == [] then 0 else
      (if order[0] < |units| then All(units[order[0]], c) else 0) + SumAll(units, order[1..], c)
  }

  lemma {:induction false} SumsUnchanged(a: seq<ReadUnit>, b: seq<ReadUnit>, i: nat, order: seq<nat>, c: nat)
    requires OnlyUnit(a, b, i) && i !in order
    ensures SumDue(a, order, c) == SumDue(b, order, c) && SumAll(a, order, c) == SumAll(b, order, c)
  {
    if order != [] {
      SumsUnchanged(a, b, i, order[1..], c);
    }
  }

  lemma DueWithinAll(u: ReadUnit, c: nat)
    requires SweepInside(u)
    ensures Due(u, c) <= All(u, c)
  {
    var j := Resume(u);
    if j > 0 {
      assert u.channels[0..] == u.channels[..j] + u.channels[j..];
    }
  }

  lemma {:induction false} FlaggedRest(units: seq<ReadUnit>, order: seq<nat>, c: nat)
    ensures multiset(ChannelsOf(units, order))[c] == SumAll(units, order, c)
  {
    if order != [] {
      FlaggedRest(units, order[1..], c);
      if order[0] < |units| {
        assert units[order[0]].channels[0..] == units[order[0]].channels;
      }
    }
  }

  lemma {:induction false} SumDueWithinAll(units: seq<ReadUnit>, order: seq<nat>, c: nat)
    requires forall j :: 0 <= j < |units| ==> SweepInside(units[j])
    ensures SumDue(units, order, c) <= SumAll(units, order, c)
  {
    if order != [] {
      SumDueWithinAll(units, order[1..], c);
      if order[0] < |units| {
        DueWithinAll(units[order[0]], c);
      }
    }
  }

  predicate Distinct(order: seq<nat>) {
    forall a, b :: 0 <= a < b < |order| ==> order[a] != order[b]
  }

  lemma SoundAt(e: Env, units: seq<ReadUnit>, i: nat)
    requires SoundUnits(e, units) && i < |units|
    ensures units[i].channels != [] && SweepInside(units[i])
  {
    assert WellFormed(e.tpl, units[i]);
  }

  lemma {:induction false} PassLoopTouch(e: Env, s: Poll, order: seq<nat>, k: nat, c: nat)
    requires forall m :: 0 <= m < |order| ==> order[m] < |s.units|
    requires SoundUnits(e, s.units) && Distinct(order) && k <= |order|
    ensures var t := PassLoop(e, s, order, k);
            Touch(s, c) + SumDue(s.units, order[k..], c) <= Touch(t, c) <= Touch(s, c) + SumAll(s.units, order[k..], c)
    decreases |order| - k
  {
    if k < |order| {
      hide PollUnit, Touch, Due, All, WellFormed;
      var i, rest := order[k], order[k + 1..];
      var (t, ok) := PollUnit(e, s, i);
      assert order[k..][1..] == rest && order[k..][0] == i && i !in rest;
      SoundAt(e, s.units, i);
      PollUnitMoves(e, s, i);
      PollUnitSound(e, s, i);
      PollUnitTouch(e, s, i, c);
      DueWithinAll(s.units[i], c);
      SumsUnchanged(s.units, t.units, i, rest, c);
      hide OnlyUnit, Advances, SoundUnits, ChannelsOf;
      if ok {
        PassLoopTouch(e, t, order, k + 1, c);
      } else {
        LoopTouchAfterFailure(e, t, order, k, c);
      }
    }
  }

  lemma {:induction false} LoopTouchAfterFailure(e: Env, t: Poll, order: seq<nat>, k: nat, c: nat)
    requires forall m :: 0 <= m < |order| ==> order[m] < |t.units|
    requires SoundUnits(e, t.units) && Distinct(order) && k < |order|
    ensures var f := t.(failed := t.failed + [order[k]]);
            var r := if MayStop(e, f) then StopPass(f, order[k], order[k + 1..]) else PassLoop(e, f, order, k + 1);
            Touch(t, c) + SumDue(t.units, order[k + 1..], c) <= Touch(r, c) <= Touch(t, c) + SumAll(t.units,
              order[k + 1..], c)
    decreases |order| - k, 0
  {
    var f := t.(failed := t.failed + [order[k]]);
    if MayStop(e, f) {
      FlaggedRest(t.units, order[k + 1..], c);
      SumDueWithinAll(t.units, order[k + 1..], c);
    } else {
      PassLoopTouch(e, f, order, k + 1, c);
    }
  }

  // ------------------------------------------------------------ the pass order is complete

  function Range(a: nat, b: nat): (r: seq<nat>)
    requires a <= b
    ensures |r| == b - a
  {
    seq(b - a, k requires 0 <= k => a + k)
  }

  lemma AllIsWhole(u: ReadUnit, c: nat)
    ensures All(u, c) == multiset(u.channels)[c]
  {
    assert u.channels[0..] == u.channels;
  }

  lemma {:induction false} SumRange(units: seq<ReadUnit>, a: nat, b: nat, c: nat)
    requires a <= b <= |units|
    ensures SumAll(units, Range(a, b), c) == Occurs(units[a..b], c)
    decreases b - a
  {
    hide All;
    if a < b {
      SumRange(units, a + 1, b, c);
      assert Range(a, b)[0] == a && Range(a, b)[1..] == Range(a + 1, b);
      assert units[a..b][0] == units[a] && units[a..b][1..] == units[a + 1..b];
      AllIsWhole(units[a], c);
    }
  }

  lemma {:induction false} SumConcat(units: seq<ReadUnit>, a: seq<nat>, b: seq<nat>, c: nat)
    ensures SumAll(units, a + b, c) == SumAll(units, a, c) + SumAll(units, b, c)
  {
    if a == [] {
      assert a + b == b;
    } else {
      assert (a + b)[1..] == a[1..] + b;
      SumConcat(units, a[1..], b, c);
    }
  }

  lemma ProbeFirst(p: nat, n: nat, order: seq<nat>)
    requires p < n
    requires order == [p] + seq(n - 1, k requires 0 <= k => if k < p then k else k + 1)
    ensures Distinct(order)
    ensures order == [p] + (Range(0, p) + Range(p + 1, n))
  {
    assert |order| == n && order[0] == p;
    assert forall k :: 1 <= k < n ==> order[k] == if k - 1 < p then k - 1 else k;
    var r := Range(0, p) + Range(p + 1, n);
    assert forall k :: 0 <= k < n - 1 ==> r[k] == if k < p then k else k + 1;
  }

  lemma PassOrderShape(s: Poll)
    ensures Distinct(PassOrder(s))
    ensures !s.probing || s.units == [] ==> PassOrder(s) == Range(0, |s.units|)
    ensures s.probing && s.units != [] ==>
      PassOrder(s) == [ProbeIndex(s)] + (Range(0, ProbeIndex(s)) + Range(ProbeIndex(s) + 1, |s.units|))
  {
    if s.probing && s.units != [] {
      ProbeFirst(ProbeIndex(s), |s.units|, PassOrder(s));
    }
  }

  lemma OrderHas(s: Poll, j: nat)
    requires j < |s.units|
    ensures exists m :: 0 <= m < |s.units| && PassOrder(s)[m] == j
  {
    var order := PassOrder(s);
    if !s.probing {
      assert order[j] == j;
    } else {
      var p := ProbeIndex(s);
      var m := if j == p then 0 else if j < p then j + 1 else j;
      assert order[m] == j;
    }
  }

  lemma OccursAround(units: seq<ReadUnit>, p: nat, c: nat)
    requires p < |units|
    ensures Occurs(units, c) == Occurs(units[0..p],
      c) + multiset(units[p].channels)[c] + Occurs(units[p + 1..|units|], c)
  {
    assert units == units[0..p] + ([units[p]] + units[p + 1..|units|]);
    OccursConcat(units[0..p], [units[p]] + units[p + 1..|units|], c);
    OccursConcat([units[p]], units[p + 1..|units|], c);
    OccursOne(units[p], c);
  }

  lemma PassOrderCovers(s: Poll, c: nat)
    ensures SumAll(s.units, PassOrder(s), c) == Occurs(s.units, c)
  {
    var n := |s.units|;
    PassOrderShape(s);
    if s.probing && n > 0 {
      var p := ProbeIndex(s);
      SumConcat(s.units, [p], Range(0, p) + Range(p + 1, n), c);
      SumConcat(s.units, Range(0, p), Range(p + 1, n), c);
      SumRange(s.units, 0, p, c);
      SumRange(s.units, p + 1, n, c);
      assert [p][1..] == [];
      AllIsWhole(s.units[p], c);
      OccursAround(s.units, p, c);
    } else {
      SumRange(s.units, 0, n, c);
      assert s.units[0..n] == s.units;
    }
  }

  /** Channel `c` was already dealt with by a sweep that is still pending. */
  ghost predicate BehindSweep(s: Poll, c: nat) {
    exists j :: 0 <= j < |s.units| && c in s.units[j].channels[..Min(Resume(s.units[j]), |s.units[j].channels|)]
  }

  /** Channel `c` was published once in the latest pass, and nothing was flagged stale. */
  ghost predicate Published(s: Poll, c: nat) {
    multiset(PubChannels(s.pubs))[c] == 1 && s.flags == []
  }

  lemma {:induction false} NothingBehind(s: Poll, order: seq<nat>, c: nat)
    requires forall j :: 0 <= j < |s.units| ==> SweepInside(s.units[j])
    requires !BehindSweep(s, c)
    ensures SumDue(s.units, order, c) == SumAll(s.units, order, c)
  {
    if order != [] {
      NothingBehind(s, order[1..], c);
      if order[0] < |s.units| {
        var u := s.units[order[0]];
        var j := Resume(u);
        assert c !in u.channels[..Min(j, |u.channels|)];
        assert u.channels[0..] == u.channels[..j] + u.channels[j..];
        assert multiset(u.channels[..j])[c] == 0;
      }
    }
  }

  lemma PassTouch(e: Env, s: Poll, c: nat)
    requires Inv(e, s) && c < |e.tpl|
    ensures Touch(Pass(e, s), c) <= 1
    ensures !BehindSweep(s, c) ==> Touch(Pass(e, s), c) == 1
  {
    PassOrderShape(s);
    PassOrderCovers(s, c);
    PassLoopTouch(e, StartPass(s), PassOrder(s), 0, c);
    assert PassOrder(s)[0..] == PassOrder(s);
    if !BehindSweep(s, c) {
      NothingBehind(s, PassOrder(s), c);
    }
  }

  /** Every pass of every run publishes or flags each channel exactly once, and never both;
      only a channel a pending sweep has behind it may be left as it is. */
  lemma RunTouchesEveryChannel(e: Env, units: seq<ReadUnit>, n: nat, c: nat)
    requires Fresh(e, units) && c < |e.tpl|
    ensures var s := Run(e, Init(units), n);
            && Touch(Pass(e, s), c) <= 1
            && (!BehindSweep(s, c) ==> Touch(Pass(e, s), c) == 1)
  {
    RunInv(e, units, n);
    PassTouch(e, Run(e, Init(units), n), c);
  }
}
