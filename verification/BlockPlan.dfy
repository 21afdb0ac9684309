/**
 Cutting one register type's address-sorted channels into block reads.
 A channel is the span of addresses it occupies; a plan is the sequence of cut
 positions. The theory here is independent of how a plan is computed: it says
 what a valid plan is, what it means that every cut was forced, and that a plan
 whose cuts are all forced is as short as any valid plan.
 */
module BlockPlan {
  import opened Base

  /** First and last address a channel occupies. */
  datatype Span = Span(lo: int, hi: int)

  /** Sorted by first address; a channel is one or two addresses wide. */
  ghost predicate Ordered(s: seq<Span>) {
    && (forall i, j :: 0 <= i < j < |s| ==> s[i].lo <= s[j].lo)
    && (forall i :: 0 <= i < |s| ==> s[i].lo <= s[i].hi <= s[i].lo + 1)
  }

  /** The last address covered by the run `[i, j)`. */
  ghost function MaxHi(s: seq<Span>, i: nat, j: nat): int
    requires i < j <= |s|
  {
    if j == i + 1 then s[i].hi else Max(MaxHi(s, i, j - 1), s[j - 1].hi)
  }

  /** The run `[i, j)` may be one request: it spans at most `cap` addresses and no
      channel starts more than `hole` addresses past what precedes it in the run. */
  ghost predicate Admissible(s: seq<Span>, i: nat, j: nat, cap: int, hole: int)
    requires i < j <= |s|
  {
    && MaxHi(s, i, j) - s[i].lo + 1 <= cap
    && forall k :: i < k < j ==> s[k].lo <= MaxHi(s, i, k) + 1 + hole
  }

  /** Strictly increasing cut positions from 0 to `n`. */
  ghost predicate Cutting(cuts: seq<nat>, n: nat) {
    && |cuts| > 0 && cuts[0] == 0 && cuts[|cuts| - 1] == n
    && forall a, b :: 0 <= a < b < |cuts| ==> cuts[a] < cuts[b]
  }

  /** The r-th run of a plan is one request. */
  ghost predicate RunOk(s: seq<Span>, cuts: seq<nat>, r: nat, cap: int, hole: int) {
    r + 1 < |cuts| && cuts[r] < cuts[r + 1] <= |s| && Admissible(s, cuts[r], cuts[r + 1], cap, hole)
  }

  ghost predicate ValidPlan(s: seq<Span>, cuts: seq<nat>, cap: int, hole: int) {
    Cutting(cuts, |s|) && forall r :: 0 <= r < |cuts| - 1 ==> RunOk(s, cuts, r, cap, hole)
  }

  /** The run before the r-th cut could not have taken one more channel. */
  ghost predicate CutForced(s: seq<Span>, cuts: seq<nat>, r: nat, cap: int, hole: int) {
    0 < r < |cuts| && cuts[r - 1] < cuts[r] < |s| && !Admissible(s, cuts[r - 1], cuts[r] + 1, cap, hole)
  }

  /** A block is closed only before a channel that cannot join it. */
  ghost predicate Forced(s: seq<Span>, cuts: seq<nat>, cap: int, hole: int) {
    forall r :: 0 < r < |cuts| - 1 ==> CutForced(s, cuts, r, cap, hole)
  }

  // ------------------------------------------------------------ facts about MaxHi

  lemma {:induction false} MaxHiBounds(s: seq<Span>, i: nat, j: nat, k: nat)
    requires i <= k < j <= |s|
    ensures s[k].hi <= MaxHi(s, i, j)
    decreases j
  {
    if k < j - 1 {
      MaxHiBounds(s, i, j - 1, k);
    }
  }

  lemma {:induction false} MaxHiAttained(s: seq<Span>, i: nat, j: nat) returns (k: nat)
    requires i < j <= |s|
    ensures i <= k < j && s[k].hi == MaxHi(s, i, j)
    decreases j
  {
    if j == i + 1 || s[j - 1].hi >= MaxHi(s, i, j - 1) {
      k := j - 1;
    } else {
      k := MaxHiAttained(s, i, j - 1);
    }
  }

  lemma MaxHiStep(s: seq<Span>, i: nat, j: nat)
    requires i < j < |s|
    ensures MaxHi(s, i, j + 1) == Max(MaxHi(s, i, j), s[j].hi)
  {
  }

  lemma MaxHiWider(s: seq<Span>, i: nat, i': nat, j: nat)
    requires i <= i' < j <= |s|
    ensures MaxHi(s, i', j) <= MaxHi(s, i, j)
  {
    var k := MaxHiAttained(s, i', j);
    MaxHiBounds(s, i, j, k);
  }

  lemma MaxHiLonger(s: seq<Span>, i: nat, j: nat, j': nat)
    requires i < j <= j' <= |s|
    ensures MaxHi(s, i, j) <= MaxHi(s, i, j')
  {
    var k := MaxHiAttained(s, i, j);
    MaxHiBounds(s, i, j', k);
  }

  /** A prefix of an admissible run is admissible. */
  lemma AdmissiblePrefix(s: seq<Span>, i: nat, j: nat, j': nat, cap: int, hole: int)
    requires i < j <= j' <= |s|
    requires Admissible(s, i, j', cap, hole)
    ensures Admissible(s, i, j, cap, hole)
  {
    MaxHiLonger(s, i, j, j');
  }

  /** The planner's two comparisons decide exactly whether the next channel may join. */
  lemma JoinTest(s: seq<Span>, i: nat, j: nat, cap: int, hole: int)
    requires i < j < |s|
    requires Admissible(s, i, j, cap, hole)
    ensures MaxHi(s, i, j + 1) == Max(MaxHi(s, i, j), s[j].hi)
    ensures Admissible(s, i, j + 1, cap, hole) <==>
      s[j].lo <= MaxHi(s, i, j) + 1 + hole && Max(MaxHi(s, i, j), s[j].hi) - s[i].lo + 1 <= cap
  {
  }

  // --------------------------------------------------------------- forced cuts

  /** A channel the run overhangs fits in: it starts where the overhanging one does. */
  lemma OverhungChannelFits(s: seq<Span>, p: nat, g: nat, c: nat, cap: int, hole: int)
    requires Ordered(s) && hole >= 0
    requires p <= c < g < |s|
    requires Admissible(s, p, g, cap, hole)
    requires s[c].hi > s[g].hi
    ensures Admissible(s, p, g + 1, cap, hole)
  {
    MaxHiBounds(s, p, g, c);
    MaxHiStep(s, p, g);
    assert s[c].lo <= s[g].lo && s[c].hi <= s[c].lo + 1 && s[g].lo <= s[g].hi;
    hide MaxHi, Ordered;
  }

  lemma SameStart(s: seq<Span>, c: nat, p: nat, g: nat)
    requires Ordered(s) && c < p < g < |s|
    requires s[g].hi < s[c].hi <= s[p].hi
    ensures s[p].hi > s[g].hi
  {
  }

  /** No channel before a forced cut reaches past the channel at the cut. */
  lemma {:induction false} NothingOverhangsCut(s: seq<Span>, cuts: seq<nat>, r: nat, c: nat, cap: int, hole: int)
    requires Ordered(s) && hole >= 0
    requires ValidPlan(s, cuts, cap, hole) && Forced(s, cuts, cap, hole)
    requires 0 < r < |cuts| - 1 && c < cuts[r] < |s|
    ensures s[c].hi <= s[cuts[r]].hi
    decreases r
  {
    var p, g := cuts[r - 1], cuts[r];
    assert CutForced(s, cuts, r, cap, hole) && RunOk(s, cuts, r - 1, cap, hole);
    if s[c].hi > s[g].hi {
      if c < p {
        assert r - 1 > 0;
        NothingOverhangsCut(s, cuts, r - 1, c, cap, hole);
        SameStart(s, c, p, g);
        OverhungChannelFits(s, p, g, p, cap, hole);
      } else {
        OverhungChannelFits(s, p, g, c, cap, hole);
      }
    }
  }

  lemma MaxHiFromCut(s: seq<Span>, p: nat, g: nat, j: nat)
    requires p <= g < j <= |s|
    requires forall c :: 0 <= c < g ==> s[c].hi <= s[g].hi
    ensures MaxHi(s, p, j) == MaxHi(s, g, j)
  {
    MaxHiWider(s, p, g, j);
    var k := MaxHiAttained(s, p, j);
    if k < g {
      MaxHiBounds(s, g, j, g);
    } else {
      MaxHiBounds(s, g, j, k);
    }
  }

  /** What an admissible run covers from a forced cut onward is admissible by itself. */
  lemma AdmissibleFromCut(s: seq<Span>, p: nat, g: nat, j: nat, cap: int, hole: int)
    requires Ordered(s)
    requires p <= g < j <= |s|
    requires forall c :: 0 <= c < g ==> s[c].hi <= s[g].hi
    requires Admissible(s, p, j, cap, hole)
    ensures Admissible(s, g, j, cap, hole)
  {
    MaxHiFromCut(s, p, g, j);
    forall k | g < k < j
      ensures s[k].lo <= MaxHi(s, g, k) + 1 + hole
    {
      MaxHiFromCut(s, p, g, k);
    }
  }

  lemma CutsInPlan(s: seq<Span>, cuts: seq<nat>, r: nat, cap: int, hole: int)
    requires ValidPlan(s, cuts, cap, hole) && Forced(s, cuts, cap, hole) && r + 1 < |cuts|
    ensures cuts[r] < cuts[r + 1] <= |s| && (cuts[r + 1] < |s| ==> r + 2 < |cuts|)
    ensures cuts[r] > 0 ==> r > 0
    ensures cuts[r + 1] < |s| ==> !Admissible(s, cuts[r], cuts[r + 1] + 1, cap, hole)
  {
    assert RunOk(s, cuts, r, cap, hole);
    if cuts[r + 1] < |s| {
      assert CutForced(s, cuts, r + 1, cap, hole);
    }
  }

  /** From a forced cut at or beyond `p`, the forced plan's run reaches at least as far
      as an admissible run that starts at `p`. */
  lemma RunReaches(s: seq<Span>, cuts: seq<nat>, r: nat, p: nat, j: nat, cap: int, hole: int)
    requires Ordered(s) && hole >= 0
    requires ValidPlan(s, cuts, cap, hole) && Forced(s, cuts, cap, hole)
    requires r + 1 < |cuts|
    requires p <= cuts[r] && p < j <= |s| && Admissible(s, p, j, cap, hole)
    ensures cuts[r + 1] >= j
  {
    hide *;
    var g := cuts[r];
    CutsInPlan(s, cuts, r, cap, hole);
    if cuts[r + 1] < j {
      forall c | 0 <= c < g ensures s[c].hi <= s[g].hi {
        NothingOverhangsCut(s, cuts, r, c, cap, hole);
      }
      AdmissibleFromCut(s, p, g, j, cap, hole);
      AdmissiblePrefix(s, g, cuts[r + 1] + 1, j, cap, hole);
    }
  }

  /** The forced plan's r-th cut lies at or beyond the r-th cut of any valid plan. */
  lemma {:induction false} StaysAhead(s: seq<Span>, mine: seq<nat>, other: seq<nat>, r: nat, cap: int, hole: int)
    requires Ordered(s) && hole >= 0
    requires ValidPlan(s, mine, cap, hole) && Forced(s, mine, cap, hole)
    requires ValidPlan(s, other, cap, hole)
    requires r < |mine| && r < |other|
    ensures mine[r] >= other[r]
    decreases r
  {
    if r > 0 {
      StaysAhead(s, mine, other, r - 1, cap, hole);
      assert RunOk(s, other, r - 1, cap, hole);
      RunReaches(s, mine, r - 1, other[r - 1], other[r], cap, hole);
    }
  }

  /** No valid plan uses fewer requests than one whose cuts are all forced. */
  lemma ForcedPlanIsShortest(s: seq<Span>, mine: seq<nat>, other: seq<nat>, cap: int, hole: int)
    requires Ordered(s) && hole >= 0
    requires ValidPlan(s, mine, cap, hole) && Forced(s, mine, cap, hole)
    requires ValidPlan(s, other, cap, hole)
    ensures |mine| <= |other|
  {
    var last := |other| - 1;
    assert forall a :: 0 <= a < |mine| - 1 ==> mine[a] < mine[|mine| - 1];
    if last < |mine| {
      StaysAhead(s, mine, other, last, cap, hole);
    }
  }
}
