/**
 The read plan of a template device (`_ReadUnit`, `_build_read_units` of
 bridge_template.py): channels, read units, and the planner that merges channels
 of one register type into block reads. A channel is identified by its position in
 the template's channel list.
 */
module ReadPlan {
  import opened Base
  import opened BlockPlan

  datatype RegType = Coil | Discrete | Input | Holding {
    predicate IsBit() {
      Coil? || Discrete?
    }
  }

  datatype Format = U16 | S16 | U32 | S32 | Float

  /** A supported channel of a template. Bit channels carry no numeric format. */
  datatype Channel = Channel(regType: RegType, address: int, fmt: Format) {
    function Words(): (w: nat)
      ensures w == 1 || w == 2
    {
      if regType.IsBit() || fmt.U16? || fmt.S16? then 1 else 2
    }

    function Last(): int {
      address + Words() - 1
    }
  }

  /** One read request with the memory the poll engine keeps on it. */
  datatype ReadUnit = ReadUnit(
    channels: seq<nat>, regType: RegType, start: int, count: int, firstIdx: nat,
    splitStreak: nat, sweepAt: Option<nat>, sweepOk: bool, alive: Option<bool>)

  const PROTO_MAX_REGS := 125
  const PROTO_MAX_BITS := 2000

  function ProtoMax(t: RegType): int {
    if t.IsBit() then PROTO_MAX_BITS else PROTO_MAX_REGS
  }

  /** The cap of one block, from the template's max_read_registers (0 = protocol maximum). */
  function Cap(maxRead: nat, t: RegType): int {
    if maxRead == 0 || maxRead > ProtoMax(t) then ProtoMax(t) else maxRead
  }

  // ----------------------------------------------------------------- unit geometry

  predicate InTemplate(tpl: seq<Channel>, ids: seq<nat>) {
    forall k :: 0 <= k < |ids| ==> ids[k] < |tpl|
  }

  function MinAddress(tpl: seq<Channel>, ids: seq<nat>): (m: int)
    requires ids != [] && InTemplate(tpl, ids)
    ensures forall k :: 0 <= k < |ids| ==> m <= tpl[ids[k]].address
    ensures exists k :: 0 <= k < |ids| && m == tpl[ids[k]].address
  {
    if |ids| == 1 then tpl[ids[0]].address
    else
      var m := MinAddress(tpl, ids[1..]);
      assert forall k :: 1 <= k < |ids| ==> ids[k] == ids[1..][k - 1];
      Min(tpl[ids[0]].address, m)
  }

  function MaxEnd(tpl: seq<Channel>, ids: seq<nat>): (m: int)
    requires ids != [] && InTemplate(tpl, ids)
    ensures forall k :: 0 <= k < |ids| ==> tpl[ids[k]].address + tpl[ids[k]].Words() <= m
    ensures exists k :: 0 <= k < |ids| && m == tpl[ids[k]].address + tpl[ids[k]].Words()
  {
    var c := tpl[ids[0]];
    if |ids| == 1 then c.address + c.Words()
    else
      var m := MaxEnd(tpl, ids[1..]);
      assert forall k :: 1 <= k < |ids| ==> ids[k] == ids[1..][k - 1];
      Max(c.address + c.Words(), m)
  }

  function MinIndex(ids: seq<nat>): (m: nat)
    requires ids != []
    ensures m in ids && forall k :: 0 <= k < |ids| ==> m <= ids[k]
  {
    if |ids| == 1 then ids[0]
    else
      var m := MinIndex(ids[1..]);
      assert forall k :: 1 <= k < |ids| ==> ids[k] == ids[1..][k - 1];
      Min(ids[0], m)
  }

  /** A fresh unit over the given channels. */
  function MakeUnit(tpl: seq<Channel>, ids: seq<nat>, t: RegType): ReadUnit
    requires ids != [] && InTemplate(tpl, ids)
  {
    var start := MinAddress(tpl, ids);
    ReadUnit(ids, t, start, MaxEnd(tpl, ids) - start, MinIndex(ids), 0, None, false, None)
  }

  /** The unit asks for exactly the addresses from its first channel to its last, and all
      its channels have its register type. */
  predicate WellFormed(tpl: seq<Channel>, u: ReadUnit) {
    && u.channels != [] && InTemplate(tpl, u.channels)
    && (forall k :: 0 <= k < |u.channels| ==> tpl[u.channels[k]].regType == u.regType)
    && u.start == MinAddress(tpl, u.channels)
    && u.count == MaxEnd(tpl, u.channels) - u.start
    && u.firstIdx == MinIndex(u.channels)
  }

  predicate Untouched(u: ReadUnit) {
    u.splitStreak == 0 && u.sweepAt == None && u.sweepOk == false && u.alive == None
  }

  // --------------------------------------------------------------------- partitions

  /** How often channel `i` occurs in the plan. */
  ghost function Occurs(units: seq<ReadUnit>, i: nat): nat {
    if units == [] then 0 else multiset(units[0].channels)[i] + Occurs(units[1..], i)
  }

  /** Every channel of the template is read by exactly one unit, once. */
  ghost predicate Partition(tpl: seq<Channel>, units: seq<ReadUnit>) {
    forall i: nat :: Occurs(units, i) == if i < |tpl| then 1 else 0
  }

  lemma {:induction false} OccursConcat(a: seq<ReadUnit>, b: seq<ReadUnit>, i: nat)
    ensures Occurs(a + b, i) == Occurs(a, i) + Occurs(b, i)
  {
    if a == [] {
      assert a + b == b;
    } else {
      assert (a + b)[1..] == a[1..] + b;
      OccursConcat(a[1..], b, i);
    }
  }

  lemma OccursOne(u: ReadUnit, i: nat)
    ensures Occurs([u], i) == multiset(u.channels)[i]
  {
    assert [u][1..] == [];
  }

  // ------------------------------------------------- one register type, address-sorted

  /** Order of the planner's sort key (address, template index). */
  predicate Before(tpl: seq<Channel>, i: nat, j: nat)
    requires i < |tpl| && j < |tpl|
  {
    tpl[i].address < tpl[j].address || (tpl[i].address == tpl[j].address && i < j)
  }

  ghost predicate SortedBy(tpl: seq<Channel>, items: seq<nat>)
    requires InTemplate(tpl, items)
  {
    forall a, b :: 0 <= a < b < |items| ==> Before(tpl, items[a], items[b])
  }

  ghost predicate OfType(tpl: seq<Channel>, items: seq<nat>, t: RegType) {
    InTemplate(tpl, items) && forall k :: 0 <= k < |items| ==> tpl[items[k]].regType == t
  }

  /** Where channel `i` belongs in an address-sorted list, searching down from `p`. */
  function Place(tpl: seq<Channel>, items: seq<nat>, i: nat, p: nat): (q: nat)
    requires InTemplate(tpl, items) && i < |tpl| && p <= |items|
    ensures q <= p
  {
    if p > 0 && tpl[items[p - 1]].address > tpl[i].address then Place(tpl, items, i, p - 1) else p
  }

  lemma {:induction false} PlaceSplits(tpl: seq<Channel>, items: seq<nat>, i: nat, p: nat)
    requires InTemplate(tpl, items) && i < |tpl| && p <= |items|
    ensures var q := Place(tpl, items, i, p);
            && (forall k :: q <= k < p ==> tpl[items[k]].address > tpl[i].address)
            && (q > 0 ==> tpl[items[q - 1]].address <= tpl[i].address)
  {
    if p > 0 && tpl[items[p - 1]].address > tpl[i].address {
      PlaceSplits(tpl, items, i, p - 1);
    }
  }

  function InsertAt(items: seq<nat>, p: nat, i: nat): (r: seq<nat>)
    requires p <= |items|
    ensures |r| == |items| + 1
    ensures forall k :: 0 <= k < |r| ==> r[k] == if k < p then items[k] else if k == p then i else items[k - 1]
  {
    items[..p] + [i] + items[p..]
  }

  lemma InsertAtAddsOne(items: seq<nat>, p: nat, i: nat, x: nat)
    requires p <= |items|
    ensures multiset(InsertAt(items, p, i))[x] == multiset(items)[x] + if x == i then 1 else 0
  {
    assert items == items[..p] + items[p..];
  }

  /** The channels of one type among the first `n`, sorted by (address, index). */
  function Items(tpl: seq<Channel>, t: RegType, n: nat): (items: seq<nat>)
    requires n <= |tpl|
    ensures InTemplate(tpl, items)
  {
    if n == 0 then []
    else
      var before := Items(tpl, t, n - 1);
      if tpl[n - 1].regType != t then before
      else InsertAt(before, Place(tpl, before, n - 1, |before|), n - 1)
  }

  /** Sorted, of one type, and numbered below `n`. */
  ghost predicate SortedItems(tpl: seq<Channel>, items: seq<nat>, t: RegType, n: nat) {
    && OfType(tpl, items, t) && SortedBy(tpl, items)
    && forall k :: 0 <= k < |items| ==> items[k] < n
  }

  lemma InsertedPair(tpl: seq<Channel>, items: seq<nat>, i: nat, p: nat, a: nat, b: nat)
    requires i < |tpl| && p <= |items| && InTemplate(tpl, items) && SortedBy(tpl, items)
    requires forall k :: 0 <= k < |items| ==> items[k] < i
    requires forall k :: p <= k < |items| ==> tpl[items[k]].address > tpl[i].address
    requires p > 0 ==> tpl[items[p - 1]].address <= tpl[i].address
    requires a < b < |items| + 1
    ensures var r := InsertAt(items, p, i); r[a] < |tpl| && r[b] < |tpl| && Before(tpl, r[a], r[b])
  {
    if b == p {
      assert a == p - 1 || Before(tpl, items[a], items[p - 1]);
    } else if a != p {
      var a', b' := if a < p then a else a - 1, if b < p then b else b - 1;
      assert Before(tpl, items[a'], items[b']);
    }
  }

  lemma InsertAtSorted(tpl: seq<Channel>, items: seq<nat>, t: RegType, i: nat, p: nat)
    requires i < |tpl| && tpl[i].regType == t && p <= |items|
    requires SortedItems(tpl, items, t, i)
    requires forall k :: p <= k < |items| ==> tpl[items[k]].address > tpl[i].address
    requires p > 0 ==> tpl[items[p - 1]].address <= tpl[i].address
    ensures SortedItems(tpl, InsertAt(items, p, i), t, i + 1)
  {
    var r := InsertAt(items, p, i);
    forall a, b | 0 <= a < b < |r| ensures Before(tpl, r[a], r[b]) {
      InsertedPair(tpl, items, i, p, a, b);
    }
  }

  lemma InsertKeepsSorted(tpl: seq<Channel>, items: seq<nat>, t: RegType, i: nat)
    requires i < |tpl| && tpl[i].regType == t
    requires SortedItems(tpl, items, t, i)
    ensures SortedItems(tpl, InsertAt(items, Place(tpl, items, i, |items|), i), t, i + 1)
  {
    PlaceSplits(tpl, items, i, |items|);
    InsertAtSorted(tpl, items, t, i, Place(tpl, items, i, |items|));
  }

  lemma {:induction false} ItemsSorted(tpl: seq<Channel>, t: RegType, n: nat)
    requires n <= |tpl|
    ensures SortedItems(tpl, Items(tpl, t, n), t, n)
  {
    if n > 0 {
      var before := Items(tpl, t, n - 1);
      ItemsSorted(tpl, t, n - 1);
      if tpl[n - 1].regType == t {
        InsertKeepsSorted(tpl, before, t, n - 1);
      }
    }
  }

  lemma {:induction false} ItemsCount(tpl: seq<Channel>, t: RegType, n: nat, i: nat)
    requires n <= |tpl|
    ensures multiset(Items(tpl, t, n))[i] == if i < n && tpl[i].regType == t then 1 else 0
  {
    if n > 0 {
      var before := Items(tpl, t, n - 1);
      ItemsCount(tpl, t, n - 1, i);
      if tpl[n - 1].regType == t {
        InsertAtAddsOne(before, Place(tpl, before, n - 1, |before|), n - 1, i);
      }
    }
  }

  ghost function Spans(tpl: seq<Channel>, items: seq<nat>): (s: seq<Span>)
    requires InTemplate(tpl, items)
    ensures |s| == |items|
  {
    seq(|items|, k requires 0 <= k < |items| => Span(tpl[items[k]].address, tpl[items[k]].Last()))
  }

  lemma SpansOrdered(tpl: seq<Channel>, items: seq<nat>)
    requires InTemplate(tpl, items) && SortedBy(tpl, items)
    ensures Ordered(Spans(tpl, items))
  {
    var s := Spans(tpl, items);
    forall i, j | 0 <= i < j < |s| ensures s[i].lo <= s[j].lo {
      assert Before(tpl, items[i], items[j]);
    }
  }

  lemma RunStart(tpl: seq<Channel>, items: seq<nat>, i: nat, j: nat)
    requires InTemplate(tpl, items) && SortedBy(tpl, items)
    requires i < j <= |items|
    ensures InTemplate(tpl, items[i..j])
    ensures MinAddress(tpl, items[i..j]) == tpl[items[i]].address
  {
    var run := items[i..j];
    assert run[0] == items[i];
    forall k | 0 < k < |run| ensures tpl[items[i]].address <= tpl[run[k]].address {
      assert Before(tpl, items[i], items[i + k]);
    }
  }

  lemma SpanAt(tpl: seq<Channel>, items: seq<nat>, k: nat)
    requires InTemplate(tpl, items) && k < |items|
    ensures Spans(tpl, items)[k] == Span(tpl[items[k]].address, tpl[items[k]].Last())
  {
  }

  lemma {:induction false} RunEnd(tpl: seq<Channel>, items: seq<nat>, i: nat, j: nat)
    requires InTemplate(tpl, items)
    requires i < j <= |items|
    ensures InTemplate(tpl, items[i..j])
    ensures MaxEnd(tpl, items[i..j]) == MaxHi(Spans(tpl, items), i, j) + 1
  {
    var run, s := items[i..j], Spans(tpl, items);
    assert InTemplate(tpl, run) && forall k :: i <= k < j ==> run[k - i] == items[k];
    hide MaxEnd, MaxHi, Spans, InTemplate;
    var k1 :| 0 <= k1 < |run| && MaxEnd(tpl, run) == tpl[run[k1]].address + tpl[run[k1]].Words();
    assert run[k1] == items[i + k1];
    SpanAt(tpl, items, i + k1);
    MaxHiBounds(s, i, j, i + k1);
    var k2 := MaxHiAttained(s, i, j);
    SpanAt(tpl, items, k2);
    assert run[k2 - i] == items[k2];
  }

  // ------------------------------------------------------------------- the planner

  ghost predicate UnitOfRun(tpl: seq<Channel>, items: seq<nat>, cuts: seq<nat>, t: RegType, units: seq<ReadUnit>,
    r: nat)
    requires InTemplate(tpl, items)
  {
    && r < |units| && r + 1 < |cuts|
    && cuts[r] < cuts[r + 1] <= |items| && InTemplate(tpl, items[cuts[r]..cuts[r + 1]])
    && units[r] == MakeUnit(tpl, items[cuts[r]..cuts[r + 1]], t)
  }

  /** The units of a plan: one fresh unit per run. */
  ghost predicate UnitsOf(tpl: seq<Channel>, items: seq<nat>, cuts: seq<nat>, t: RegType, units: seq<ReadUnit>)
    requires InTemplate(tpl, items)
  {
    && |cuts| == |units| + 1
    && (forall a :: 0 <= a < |cuts| ==> cuts[a] <= |items|)
    && forall r :: 0 <= r < |units| ==> UnitOfRun(tpl, items, cuts, t, units, r)
  }

  /** The blocks closed so far, up to channel `c`. */
  ghost predicate Closed(tpl: seq<Channel>, items: seq<nat>, t: RegType, cap: int, hole: nat, c: nat,
                         units: seq<ReadUnit>, cuts: seq<nat>)
    requires InTemplate(tpl, items)
  {
    var s := Spans(tpl, items);
    && UnitsOf(tpl, items, cuts, t, units)
    && Cutting(cuts, c)
    && (forall r :: 0 <= r < |cuts| - 1 ==> RunOk(s, cuts, r, cap, hole))
    && (forall r :: 0 < r < |cuts| ==> CutForced(s, cuts, r, cap, hole))
  }

  /** What the planner's loop keeps: the closed blocks, and the one being grown. */
  ghost predicate Growing(tpl: seq<Channel>, items: seq<nat>, t: RegType, cap: int, hole: nat, k: nat,
                          units: seq<ReadUnit>, cuts: seq<nat>, cur: seq<nat>, start: int, end: int)
    requires InTemplate(tpl, items)
  {
    var s := Spans(tpl, items);
    && |cuts| > 0 && k <= |items|
    && var c := cuts[|cuts| - 1];
    && Closed(tpl, items, t, cap, hole, c, units, cuts)
    && c <= k
    && cur == items[c..k]
    && (k == 0 || c < k)
    && (c < k ==> start == s[c].lo && end == MaxHi(s, c, k) && Admissible(s, c, k, cap, hole))
  }

  lemma OneLonger(items: seq<nat>, c: nat, k: nat)
    requires c <= k < |items|
    ensures items[c..k + 1] == items[c..k] + [items[k]]
  {
  }

  lemma JoinBlock(tpl: seq<Channel>, items: seq<nat>, t: RegType, cap: int, hole: nat, k: nat,
                  units: seq<ReadUnit>, cuts: seq<nat>, cur: seq<nat>, start: int, end: int)
    requires SortedItems(tpl, items, t, |tpl|)
    requires Growing(tpl, items, t, cap, hole, k, units, cuts, cur, start, end)
    requires cur != [] && k < |items|
    requires tpl[items[k]].address <= end + 1 + hole && Max(end, tpl[items[k]].Last()) - start + 1 <= cap
    ensures var last := tpl[items[k]].Last();
            Growing(tpl, items, t, cap, hole, k + 1, units, cuts, cur + [items[k]], start, Max(end, last))
  {
    hide Closed, Admissible, MaxHi, Spans, Channel.Last, SortedBy;
    var s, c := Spans(tpl, items), cuts[|cuts| - 1];
    SpanAt(tpl, items, k);
    JoinTest(s, c, k, cap, hole);
    OneLonger(items, c, k);
  }

  lemma StartBlock(tpl: seq<Channel>, items: seq<nat>, t: RegType, cap: int, hole: nat, k: nat,
                   units: seq<ReadUnit>, cuts: seq<nat>)
    requires SortedItems(tpl, items, t, |tpl|) && cap >= 2
    requires k < |items|
    requires Closed(tpl, items, t, cap, hole, k, units, cuts)
    ensures Growing(tpl, items, t, cap, hole, k + 1, units, cuts, [items[k]], tpl[items[k]].address,
      tpl[items[k]].Last())
  {
    assert items[k..k + 1] == [items[k]];
  }

  lemma ExtendRuns(s: seq<Span>, cap: int, hole: nat, cuts: seq<nat>, k: nat)
    requires |cuts| > 0 && Cutting(cuts, cuts[|cuts| - 1]) && cuts[|cuts| - 1] < k <= |s|
    requires forall r :: 0 <= r < |cuts| - 1 ==> RunOk(s, cuts, r, cap, hole)
    requires Admissible(s, cuts[|cuts| - 1], k, cap, hole)
    ensures Cutting(cuts + [k], k)
    ensures forall r :: 0 <= r < |cuts| ==> RunOk(s, cuts + [k], r, cap, hole)
  {
    hide Admissible;
    forall r | 0 <= r < |cuts| ensures RunOk(s, cuts + [k], r, cap, hole) {
      if r < |cuts| - 1 {
        assert RunOk(s, cuts, r, cap, hole);
      }
    }
  }

  lemma ExtendUnits(tpl: seq<Channel>, items: seq<nat>, t: RegType, units: seq<ReadUnit>, cuts: seq<nat>, k: nat)
    requires InTemplate(tpl, items) && UnitsOf(tpl, items, cuts, t, units)
    requires |cuts| > 0 && cuts[|cuts| - 1] < k <= |items|
    ensures InTemplate(tpl, items[cuts[|cuts| - 1]..k])
    ensures UnitsOf(tpl, items, cuts + [k], t, units + [MakeUnit(tpl, items[cuts[|cuts| - 1]..k], t)])
  {
    var c := cuts[|cuts| - 1];
    assert InTemplate(tpl, items[c..k]);
    hide MakeUnit, InTemplate;
    var cuts', units' := cuts + [k], units + [MakeUnit(tpl, items[c..k], t)];
    forall r | 0 <= r < |units'| ensures UnitOfRun(tpl, items, cuts', t, units', r) {
      if r < |units| {
        assert UnitOfRun(tpl, items, cuts, t, units, r);
      }
    }
  }

  /** Appending a run keeps the plan well-formed. */
  lemma Extend(tpl: seq<Channel>, items: seq<nat>, t: RegType, cap: int, hole: nat,
               units: seq<ReadUnit>, cuts: seq<nat>, k: nat)
    requires InTemplate(tpl, items) && UnitsOf(tpl, items, cuts, t, units)
    requires Cutting(cuts, cuts[|cuts| - 1])
    requires forall r :: 0 <= r < |cuts| - 1 ==> RunOk(Spans(tpl, items), cuts, r, cap, hole)
    requires cuts[|cuts| - 1] < k <= |items|
    requires Admissible(Spans(tpl, items), cuts[|cuts| - 1], k, cap, hole)
    ensures InTemplate(tpl, items[cuts[|cuts| - 1]..k])
    ensures var cuts' := cuts + [k];
            && UnitsOf(tpl, items, cuts', t, units + [MakeUnit(tpl, items[cuts[|cuts| - 1]..k], t)])
            && Cutting(cuts', k)
            && (forall r :: 0 <= r < |cuts'| - 1 ==> RunOk(Spans(tpl, items), cuts', r, cap, hole))
  {
    ExtendUnits(tpl, items, t, units, cuts, k);
    hide UnitsOf, InTemplate, MakeUnit;
    ExtendRuns(Spans(tpl, items), cap, hole, cuts, k);
  }

  /** Closing a block the next channel cannot join. */
  lemma CloseBlock(tpl: seq<Channel>, items: seq<nat>, t: RegType, cap: int, hole: nat, k: nat,
                   units: seq<ReadUnit>, cuts: seq<nat>, cur: seq<nat>, start: int, end: int)
    requires SortedItems(tpl, items, t, |tpl|)
    requires Growing(tpl, items, t, cap, hole, k, units, cuts, cur, start, end)
    requires cur != [] && k < |items|
    requires !(tpl[items[k]].address <= end + 1 + hole && Max(end, tpl[items[k]].Last()) - start + 1 <= cap)
    ensures Closed(tpl, items, t, cap, hole, k, units + [MakeUnit(tpl, cur, t)], cuts + [k])
  {
    hide Admissible, MaxHi, Spans, Channel.Last, SortedBy, UnitsOf, MakeUnit, Cutting, CutForced, RunOk;
    var s, c := Spans(tpl, items), cuts[|cuts| - 1];
    SpanAt(tpl, items, k);
    JoinTest(s, c, k, cap, hole);
    Extend(tpl, items, t, cap, hole, units, cuts, k);
    ForcedMore(s, cuts, k, cap, hole);
  }

  lemma ForcedMore(s: seq<Span>, cuts: seq<nat>, k: nat, cap: int, hole: int)
    requires |cuts| > 0 && cuts[|cuts| - 1] < k < |s| && !Admissible(s, cuts[|cuts| - 1], k + 1, cap, hole)
    requires forall r :: 0 < r < |cuts| ==> CutForced(s, cuts, r, cap, hole)
    ensures forall r :: 0 < r < |cuts + [k]| ==> CutForced(s, cuts + [k], r, cap, hole)
  {
    hide Admissible;
    forall r | 0 < r < |cuts + [k]| ensures CutForced(s, cuts + [k], r, cap, hole) {
      if r < |cuts| {
        assert CutForced(s, cuts, r, cap, hole);
      }
    }
  }

  /** One turn of that loop. */
  method TakeChannel(tpl: seq<Channel>, items: seq<nat>, t: RegType, cap: int, hole: nat, k: nat,
                     units: seq<ReadUnit>, ghost cuts: seq<nat>, cur: seq<nat>, start: int, end: int)
    returns (units': seq<ReadUnit>, cur': seq<nat>, start': int, end': int, ghost cuts': seq<nat>)
    requires SortedItems(tpl, items, t, |tpl|) && cap >= 2 && k < |items|
    requires Growing(tpl, items, t, cap, hole, k, units, cuts, cur, start, end)
    ensures Growing(tpl, items, t, cap, hole, k + 1, units', cuts', cur', start', end')
  {
    var ch := tpl[items[k]];
    var last := ch.Last();
    units', cuts' := units, cuts;
    if cur != [] && ch.address <= end + 1 + hole && Max(end, last) - start + 1 <= cap {
      JoinBlock(tpl, items, t, cap, hole, k, units, cuts, cur, start, end);
      cur', start', end' := cur + [items[k]], start, Max(end, last);
      return;
    }
    if cur != [] {
      CloseBlock(tpl, items, t, cap, hole, k, units, cuts, cur, start, end);
      units', cuts' := units + [MakeUnit(tpl, cur, t)], cuts + [k];
    }
    StartBlock(tpl, items, t, cap, hole, k, units', cuts');
    cur', start', end' := [items[k]], ch.address, last;
  }

  /** Closing the last block. */
  lemma CloseLast(tpl: seq<Channel>, items: seq<nat>, t: RegType, cap: int, hole: nat,
                  units: seq<ReadUnit>, cuts: seq<nat>, cur: seq<nat>, start: int, end: int)
    requires SortedItems(tpl, items, t, |tpl|)
    requires Growing(tpl, items, t, cap, hole, |items|, units, cuts, cur, start, end)
    requires cur != []
    ensures var cuts' := cuts + [|items|];
            && UnitsOf(tpl, items, cuts', t, units + [MakeUnit(tpl, cur, t)])
            && ValidPlan(Spans(tpl, items), cuts', cap, hole)
            && Forced(Spans(tpl, items), cuts', cap, hole)
  {
    var s, cuts' := Spans(tpl, items), cuts + [|items|];
    Extend(tpl, items, t, cap, hole, units, cuts, |items|);
    forall r | 0 < r < |cuts'| - 1 ensures CutForced(s, cuts', r, cap, hole) {
      assert CutForced(s, cuts, r, cap, hole);
    }
  }

  /** One register type: the loop that grows the current block and closes it when the
      next channel is too far away or would push it over the cap. */
  method PlanType(tpl: seq<Channel>, items: seq<nat>, t: RegType, cap: int, hole: nat)
    returns (units: seq<ReadUnit>, ghost cuts: seq<nat>)
    requires SortedItems(tpl, items, t, |tpl|) && cap >= 2
    ensures UnitsOf(tpl, items, cuts, t, units)
    ensures ValidPlan(Spans(tpl, items), cuts, cap, hole)
    ensures Forced(Spans(tpl, items), cuts, cap, hole)
  {
    units := [];
    cuts := [0];
    var cur: seq<nat> := [];
    var start, end := 0, 0;
    for k := 0 to |items|
      invariant Growing(tpl, items, t, cap, hole, k, units, cuts, cur, start, end)
    {
      units, cur, start, end, cuts := TakeChannel(tpl, items, t, cap, hole, k, units, cuts, cur, start, end);
    }
    if cur != [] {
      CloseLast(tpl, items, t, cap, hole, units, cuts, cur, start, end);
      units := units + [MakeUnit(tpl, cur, t)];
      cuts := cuts + [|items|];
    }
  }

  // ------------------------------------------------------------------- whole plans

  lemma MadeUnit(tpl: seq<Channel>, ids: seq<nat>, t: RegType)
    requires ids != [] && InTemplate(tpl, ids) && forall k :: 0 <= k < |ids| ==> tpl[ids[k]].regType == t
    ensures var u := MakeUnit(tpl, ids, t);
            && WellFormed(tpl, u) && Untouched(u) && u.regType == t && u.count ==
                 MaxEnd(tpl, ids) - MinAddress(tpl, ids)
  {
  }

  lemma PlannedRun(tpl: seq<Channel>, items: seq<nat>, t: RegType, cap: int, hole: nat, i: nat, j: nat)
    requires SortedItems(tpl, items, t, |tpl|) && i < j <= |items| && Admissible(Spans(tpl, items), i, j, cap, hole)
    ensures InTemplate(tpl, items[i..j])
    ensures var u := MakeUnit(tpl, items[i..j], t);
            WellFormed(tpl, u) && Untouched(u) && u.regType == t && u.count <= cap
  {
    RunStart(tpl, items, i, j);
    RunEnd(tpl, items, i, j);
    assert forall k :: 0 <= k < j - i ==> items[i..j][k] == items[i + k];
    hide MinAddress, MaxEnd, MinIndex, MaxHi, SortedBy, MakeUnit, WellFormed;
    MadeUnit(tpl, items[i..j], t);
  }

  lemma PlannedUnit(tpl: seq<Channel>, items: seq<nat>, t: RegType, cap: int, hole: nat,
                    units: seq<ReadUnit>, cuts: seq<nat>, r: nat)
    requires SortedItems(tpl, items, t, |tpl|) && r < |units|
    requires UnitsOf(tpl, items, cuts, t, units)
    requires ValidPlan(Spans(tpl, items), cuts, cap, hole)
    ensures WellFormed(tpl, units[r]) && Untouched(units[r]) && units[r].regType == t && units[r].count <= cap
  {
    assert UnitOfRun(tpl, items, cuts, t, units, r);
    assert RunOk(Spans(tpl, items), cuts, r, cap, hole);
    hide Admissible, MakeUnit, WellFormed, Untouched, UnitsOf, SortedItems;
    PlannedRun(tpl, items, t, cap, hole, cuts[r], cuts[r + 1]);
  }

  lemma AppendCount(units: seq<ReadUnit>, u: ReadUnit, items: seq<nat>, c: nat, k: nat, i: nat)
    requires c <= k <= |items| && u.channels == items[c..k]
    requires Occurs(units, i) == multiset(items[..c])[i]
    ensures Occurs(units + [u], i) == multiset(items[..k])[i]
  {
    OccursConcat(units, [u], i);
    OccursOne(u, i);
    assert items[..k] == items[..c] + items[c..k];
  }

  lemma {:induction false} RunsCount(tpl: seq<Channel>, items: seq<nat>, t: RegType,
                                     units: seq<ReadUnit>, cuts: seq<nat>, r: nat, i: nat)
    requires InTemplate(tpl, items) && UnitsOf(tpl, items, cuts, t, units)
    requires r <= |units| && cuts[0] == 0
    ensures Occurs(units[..r], i) == multiset(items[..cuts[r]])[i]
    decreases r
  {
    if r > 0 {
      RunsCount(tpl, items, t, units, cuts, r - 1, i);
      assert UnitOfRun(tpl, items, cuts, t, units, r - 1);
      hide UnitsOf, InTemplate, Occurs, MinAddress, MaxEnd, MinIndex;
      assert units[..r] == units[..r - 1] + [units[r - 1]];
      AppendCount(units[..r - 1], units[r - 1], items, cuts[r - 1], cuts[r], i);
    }
  }

  /** What one type's units are worth: they read each of its channels once, every unit is
      well-formed and within the cap, and no other valid cutting is shorter. */
  lemma PlannedUnits(tpl: seq<Channel>, items: seq<nat>, t: RegType, cap: int, hole: nat,
                     units: seq<ReadUnit>, cuts: seq<nat>)
    requires SortedItems(tpl, items, t, |tpl|)
    requires UnitsOf(tpl, items, cuts, t, units)
    requires ValidPlan(Spans(tpl, items), cuts, cap, hole)
    ensures forall r :: 0 <= r < |units| ==>
      WellFormed(tpl, units[r]) && Untouched(units[r]) && units[r].regType == t && units[r].count <= cap
    ensures forall i: nat :: Occurs(units, i) == multiset(items)[i]
  {
    forall r | 0 <= r < |units|
      ensures WellFormed(tpl, units[r]) && Untouched(units[r]) && units[r].regType == t && units[r].count <= cap
    {
      PlannedUnit(tpl, items, t, cap, hole, units, cuts, r);
    }
    forall i: nat ensures Occurs(units, i) == multiset(items)[i] {
      RunsCount(tpl, items, t, units, cuts, |units|, i);
      assert units[..|units|] == units;
      assert items[..|items|] == items;
    }
  }

  // ------------------------------------------------- the final sort by first channel

  function InsertUnit(units: seq<ReadUnit>, u: ReadUnit): seq<ReadUnit> {
    if units == [] then [u]
    else if u.firstIdx < units[0].firstIdx then [u] + units
    else [units[0]] + InsertUnit(units[1..], u)
  }

  function SortUnits(units: seq<ReadUnit>): seq<ReadUnit> {
    if units == [] then [] else InsertUnit(SortUnits(units[1..]), units[0])
  }

  ghost predicate Ascending(units: seq<ReadUnit>) {
    forall a, b :: 0 <= a < b < |units| ==> units[a].firstIdx <= units[b].firstIdx
  }

  lemma {:induction false} InsertUnitCount(units: seq<ReadUnit>, u: ReadUnit, i: nat)
    ensures Occurs(InsertUnit(units, u), i) == Occurs(units, i) + multiset(u.channels)[i]
  {
    if units == [] {
      OccursOne(u, i);
    } else if u.firstIdx < units[0].firstIdx {
      assert ([u] + units)[1..] == units;
    } else {
      InsertUnitCount(units[1..], u, i);
      assert ([units[0]] + InsertUnit(units[1..], u))[1..] == InsertUnit(units[1..], u);
    }
  }

  lemma {:induction false} InsertUnitMembers(units: seq<ReadUnit>, u: ReadUnit)
    ensures |InsertUnit(units, u)| == |units| + 1
    ensures forall k :: 0 <= k < |InsertUnit(units, u)| ==>
      InsertUnit(units, u)[k] == u || InsertUnit(units, u)[k] in units
  {
    if units != [] && u.firstIdx >= units[0].firstIdx {
      InsertUnitMembers(units[1..], u);
    }
  }

  lemma {:induction false} InsertUnitAscending(units: seq<ReadUnit>, u: ReadUnit)
    requires Ascending(units)
    ensures Ascending(InsertUnit(units, u))
  {
    if units != [] && u.firstIdx >= units[0].firstIdx {
      InsertUnitAscending(units[1..], u);
      InsertUnitMembers(units[1..], u);
    }
  }

  lemma {:induction false} SortUnitsCount(units: seq<ReadUnit>, i: nat)
    ensures Occurs(SortUnits(units), i) == Occurs(units, i)
  {
    if units != [] {
      SortUnitsCount(units[1..], i);
      InsertUnitCount(SortUnits(units[1..]), units[0], i);
    }
  }

  lemma {:induction false} SortUnitsFacts(units: seq<ReadUnit>)
    ensures Ascending(SortUnits(units))
    ensures |SortUnits(units)| == |units|
    ensures forall k :: 0 <= k < |units| ==> SortUnits(units)[k] in units
  {
    if units != [] {
      SortUnitsFacts(units[1..]);
      InsertUnitAscending(SortUnits(units[1..]), units[0]);
      InsertUnitMembers(SortUnits(units[1..]), units[0]);
    }
  }

  // ------------------------------------------------------------------ the whole plan

  /** A way to cut one type's address-sorted channels into requests under the same limits. */
  ghost predicate Cuts(tpl: seq<Channel>, t: RegType, cuts: seq<nat>, maxRead: nat, hole: nat) {
    ValidPlan(Spans(tpl, Items(tpl, t, |tpl|)), cuts, Cap(maxRead, t), hole)
  }

  /** No other cutting of this type's channels needs fewer than `n` requests. */
  ghost predicate Fewest(tpl: seq<Channel>, t: RegType, n: nat, maxRead: nat, hole: nat) {
    forall other :: Cuts(tpl, t, other, maxRead, hole) ==> n + 1 <= |other|
  }

  /** A fresh, well-formed unit small enough for one request. */
  ghost predicate Plannable(tpl: seq<Channel>, u: ReadUnit, maxRead: nat) {
    && WellFormed(tpl, u) && Untouched(u)
    && u.count <= ProtoMax(u.regType)
    && (|u.channels| > 1 ==> u.count <= Cap(maxRead, u.regType))
  }

  method PlanOneType(tpl: seq<Channel>, t: RegType, maxRead: nat, hole: nat) returns (units: seq<ReadUnit>)
    requires maxRead != 1
    ensures forall u :: u in units ==> Plannable(tpl, u, maxRead)
    ensures forall i: nat :: Occurs(units, i) == if i < |tpl| && tpl[i].regType == t then 1 else 0
    ensures Fewest(tpl, t, |units|, maxRead, hole)
  {
    var items := Items(tpl, t, |tpl|);
    ItemsSorted(tpl, t, |tpl|);
    ghost var cuts;
    units, cuts := PlanType(tpl, items, t, Cap(maxRead, t), hole);
    PlannedUnits(tpl, items, t, Cap(maxRead, t), hole, units, cuts);
    forall i: nat ensures Occurs(units, i) == if i < |tpl| && tpl[i].regType == t then 1 else 0 {
      ItemsCount(tpl, t, |tpl|, i);
    }
    SpansOrdered(tpl, items);
    forall other | Cuts(tpl, t, other, maxRead, hole) ensures |units| + 1 <= |other| {
      ForcedPlanIsShortest(Spans(tpl, items), cuts, other, Cap(maxRead, t), hole);
    }
  }

  /** One unit for each of the first `k` channels. */
  ghost predicate SinglesUpTo(tpl: seq<Channel>, units: seq<ReadUnit>, k: nat) {
    && |units| == k <= |tpl|
    && (forall i :: 0 <= i < k ==> units[i] == MakeUnit(tpl, [i], tpl[i].regType))
    && forall i: nat :: Occurs(units, i) == if i < k then 1 else 0
  }

  lemma AppendSingle(tpl: seq<Channel>, units: seq<ReadUnit>, k: nat)
    requires SinglesUpTo(tpl, units, k) && k < |tpl|
    ensures SinglesUpTo(tpl, units + [MakeUnit(tpl, [k], tpl[k].regType)], k + 1)
  {
    var u := MakeUnit(tpl, [k], tpl[k].regType);
    assert u.channels == [k];
    hide MakeUnit, Occurs;
    forall i: nat ensures Occurs(units + [u], i) == if i < k + 1 then 1 else 0 {
      OccursConcat(units, [u], i);
      OccursOne(u, i);
      assert multiset([k])[i] == if i == k then 1 else 0;
    }
  }

  /** max_read_registers == 1: one request per channel, in template order. */
  method PlanSingles(tpl: seq<Channel>) returns (units: seq<ReadUnit>)
    ensures |units| == |tpl|
    ensures forall i :: 0 <= i < |tpl| ==> units[i] == MakeUnit(tpl, [i], tpl[i].regType)
    ensures Partition(tpl, units)
  {
    units := [];
    for k := 0 to |tpl|
      invariant SinglesUpTo(tpl, units, k)
    {
      AppendSingle(tpl, units, k);
      units := units + [MakeUnit(tpl, [k], tpl[k].regType)];
    }
  }

  lemma SinglePlannable(tpl: seq<Channel>, i: nat)
    requires i < |tpl|
    ensures Plannable(tpl, MakeUnit(tpl, [i], tpl[i].regType), 1)
    ensures MakeUnit(tpl, [i], tpl[i].regType).firstIdx == i
  {
  }

  lemma CountFour(a: seq<ReadUnit>, b: seq<ReadUnit>, c: seq<ReadUnit>, d: seq<ReadUnit>, i: nat)
    ensures Occurs(a + b + c + d, i) == Occurs(a, i) + Occurs(b, i) + Occurs(c, i) + Occurs(d, i)
  {
    OccursConcat(a + b + c, d, i);
    OccursConcat(a + b, c, i);
    OccursConcat(a, b, i);
  }

  /** Grouping on: the four types planned one by one, then sorted by first channel. */
  method PlanBlocks(tpl: seq<Channel>, maxRead: nat, regHole: nat, bitHole: nat)
    returns (units: seq<ReadUnit>, ghost sizes: (nat, nat, nat, nat))
    requires maxRead != 1
    ensures Partition(tpl, units) && Ascending(units)
    ensures forall u :: u in units ==> Plannable(tpl, u, maxRead)
    ensures |units| == sizes.0 + sizes.1 + sizes.2 + sizes.3
    ensures Fewest(tpl, Coil, sizes.0, maxRead, bitHole) && Fewest(tpl, Discrete, sizes.1, maxRead, bitHole)
    ensures Fewest(tpl, Input, sizes.2, maxRead, regHole) && Fewest(tpl, Holding, sizes.3, maxRead, regHole)
  {
    var a := PlanOneType(tpl, Coil, maxRead, bitHole);
    var b := PlanOneType(tpl, Discrete, maxRead, bitHole);
    var c := PlanOneType(tpl, Input, maxRead, regHole);
    var d := PlanOneType(tpl, Holding, maxRead, regHole);
    var all := a + b + c + d;
    units := SortUnits(all);
    sizes := (|a|, |b|, |c|, |d|);
    SortUnitsFacts(all);
    forall u | u in units ensures Plannable(tpl, u, maxRead) {
      var k :| 0 <= k < |units| && units[k] == u;
      assert u in all;
    }
    forall i: nat ensures Occurs(units, i) == if i < |tpl| then 1 else 0 {
      SortUnitsCount(all, i);
      CountFour(a, b, c, d, i);
    }
  }

  /** The poll plan. Besides the partition and the request limits it promises the fewest
      requests: with grouping on, no choice of cuts of the four address-sorted lists under
      the same cap and hole yields fewer units. */
  method BuildReadUnits(tpl: seq<Channel>, maxRead: nat, regHole: nat, bitHole: nat) returns (units: seq<ReadUnit>)
    ensures Partition(tpl, units) && Ascending(units)
    ensures forall u :: u in units ==> Plannable(tpl, u, maxRead)
    ensures maxRead == 1 ==> |units| == |tpl| && forall i :: 0 <= i < |tpl| ==> units[i].channels == [i]
    ensures maxRead != 1 ==> forall a, b, c, d ::
      && Cuts(tpl, Coil, a, maxRead, bitHole) && Cuts(tpl, Discrete, b, maxRead, bitHole)
      && Cuts(tpl, Input, c, maxRead, regHole) && Cuts(tpl, Holding, d, maxRead, regHole)
      ==> |units| <= (|a| - 1) + (|b| - 1) + (|c| - 1) + (|d| - 1)
  {
    if maxRead == 1 {
      units := PlanSingles(tpl);
      forall i | 0 <= i < |tpl| ensures Plannable(tpl, units[i], 1) && units[i].firstIdx == i {
        SinglePlannable(tpl, i);
      }
    } else {
      ghost var sizes;
      units, sizes := PlanBlocks(tpl, maxRead, regHole, bitHole);
    }
  }
}
