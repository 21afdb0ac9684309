/**
 The coalescing queue of register writes (`WritebackWorker` of bridge_serial.py): an ordered
 dictionary with one job per (device, control) key. Submitting and taking each happen under the
 worker's lock, so a run is any interleaving of the two. A job is known by the number of its
 submission.
 */
module WriteQueue {
  import opened Base

  /** (device, control) */
  type Key = (string, string)

  datatype Entry = Entry(key: Key, no: nat)

  /** Removes the entry of a key, keeping the order of the others. */
  function Without(jobs: seq<Entry>, key: Key): (r: seq<Entry>)
    ensures forall e :: e in r <==> e in jobs && e.key != key
    ensures |r| <= |jobs|
  {
    if jobs == [] then [] else
      var rest := Without(jobs[..|jobs| - 1], key);
      var last := jobs[|jobs| - 1];
      if last.key == key then rest else rest + [last]
  }

  class WritebackWorker {
    var jobs: seq<Entry>

    constructor ()
      ensures jobs == []
    {
      jobs := [];
    }

    method Submit(key: Key, no: nat)
      modifies this
      ensures jobs == Without(old(jobs), key) + [Entry(key, no)]
    {
      jobs := Without(jobs, key);
      jobs := jobs + [Entry(key, no)];
    }

    /** None: nothing is pending and the worker goes on waiting. */
    method Take() returns (job: Option<Entry>)
      modifies this
      ensures old(jobs) == [] ==> job == None && jobs == []
      ensures old(jobs) != [] ==> job.Some? && old(jobs) == [job.value] + jobs
    {
      if jobs == [] {
        return None;
      }
      job := Some(jobs[0]);
      jobs := jobs[1..];
    }
  }

  // ------------------------------------------------------------------------- whole runs

  datatype Op = Submit(key: Key) | Take

  /** The queue with its history: the keys submitted so far, the jobs run so far. */
  datatype Queue = Queue(submitted: seq<Key>, pending: seq<Entry>, ran: seq<Entry>)

  function Step(q: Queue, op: Op): Queue {
    match op
    case Submit(key) =>
      Queue(q.submitted + [key], Without(q.pending, key) + [Entry(key, |q.submitted|)], q.ran)
    case Take =>
      if q.pending == [] then q else Queue(q.submitted, q.pending[1..], q.ran + [q.pending[0]])
  }

  function Run(q: Queue, ops: seq<Op>): Queue {
    if ops == [] then q else Step(Run(q, ops[..|ops| - 1]), ops[|ops| - 1])
  }

  /** The worker's loop: what the class does over a run is what the history says. */
  method Work(ops: seq<Op>) returns (ran: seq<Entry>, pending: seq<Entry>)
    ensures ran == Run(Queue([], [], []), ops).ran && pending == Run(Queue([], [], []), ops).pending
  {
    ghost var q := Queue([], [], []);
    var worker := new WritebackWorker();
    ran := [];
    var i, submitted := 0, 0;
    while i < |ops|
      invariant i <= |ops|
      invariant q == Run(Queue([], [], []), ops[..i])
      invariant ran == q.ran && worker.jobs == q.pending && submitted == |q.submitted|
    {
      assert ops[..i + 1][..i] == ops[..i];
      q := Step(q, ops[i]);
      if ops[i].Submit? {
        worker.Submit(ops[i].key, submitted);
        submitted := submitted + 1;
      } else {
        var job := worker.Take();
        if job.Some? {
          ran := ran + [job.value];
        }
      }
      i := i + 1;
    }
    assert ops[..i] == ops;
    pending := worker.jobs;
  }

  /** No later submission has the same key. */
  predicate IsLast(submitted: seq<Key>, no: nat)
  {
    no < |submitted| && forall m :: no < m < |submitted| ==> submitted[m] != submitted[no]
  }

  /** Oldest submission first. */
  ghost predicate Ordered(jobs: seq<Entry>) {
    forall a, b :: 0 <= a < b < |jobs| ==> jobs[a].no < jobs[b].no
  }

  ghost predicate PendingInv(q: Queue) {
    && (forall e :: e in q.pending ==> IsLast(q.submitted, e.no) && q.submitted[e.no] == e.key)
    && Ordered(q.pending)
  }

  ghost predicate RanInv(q: Queue) {
    && (forall e :: e in q.ran ==> e.no < |q.submitted| && q.submitted[e.no] == e.key)
    && (forall e, p :: e in q.ran && p in q.pending && e.key == p.key ==> e.no < p.no)
    && forall a, b :: 0 <= a < b < |q.ran| && q.ran[a].key == q.ran[b].key ==> q.ran[a].no < q.ran[b].no
  }

  /** Nothing is lost: what has neither run nor is pending was overtaken by a later write. */
  ghost predicate NothingLost(q: Queue) {
    forall no :: 0 <= no < |q.submitted| && IsLast(q.submitted, no) ==>
      Entry(q.submitted[no], no) in q.pending || Entry(q.submitted[no], no) in q.ran
  }

  ghost predicate Inv(q: Queue) {
    PendingInv(q) && RanInv(q) && NothingLost(q)
  }

  lemma {:induction false} WithoutOrder(jobs: seq<Entry>, key: Key)
    requires Ordered(jobs)
    ensures Ordered(Without(jobs, key))
  {
    if jobs != [] {
      var front, last := jobs[..|jobs| - 1], jobs[|jobs| - 1];
      WithoutOrder(front, key);
      var rest := Without(front, key);
      forall k | 0 <= k < |rest| ensures rest[k].no < last.no {
        var i :| 0 <= i < |front| && front[i] == rest[k];
        assert jobs[i].no < jobs[|jobs| - 1].no;
      }
    }
  }

  lemma SubmitKeepsLast(submitted: seq<Key>, key: Key, no: nat)
    requires no < |submitted|
    ensures IsLast(submitted + [key], no) <==> IsLast(submitted, no) && submitted[no] != key
  {
    var t := submitted + [key];
    assert t[|submitted|] == key && t[no] == submitted[no];
    assert forall m :: 0 <= m < |submitted| ==> t[m] == submitted[m];
    assert IsLast(t, no) ==> IsLast(submitted, no);
  }

  lemma SubmitKeepsPending(q: Queue, key: Key)
    requires PendingInv(q)
    ensures PendingInv(Step(q, Submit(key)))
  {
    var t := Step(q, Submit(key));
    WithoutOrder(q.pending, key);
    var kept := Without(q.pending, key);
    forall e | e in kept ensures IsLast(t.submitted, e.no) && t.submitted[e.no] == e.key {
      SubmitKeepsLast(q.submitted, key, e.no);
    }
    assert forall k :: 0 <= k < |kept| ==> kept[k] in q.pending;
  }

  lemma SubmitKeepsRan(q: Queue, key: Key)
    requires PendingInv(q) && RanInv(q)
    ensures RanInv(Step(q, Submit(key)))
  {
  }

  lemma SubmitLosesNothing(q: Queue, key: Key)
    requires NothingLost(q)
    ensures NothingLost(Step(q, Submit(key)))
  {
    var t := Step(q, Submit(key));
    forall no | 0 <= no < |t.submitted| && IsLast(t.submitted, no)
      ensures Entry(t.submitted[no], no) in t.pending || Entry(t.submitted[no], no) in t.ran
    {
      if no < |q.submitted| {
        SubmitKeepsLast(q.submitted, key, no);
      } else {
        assert t.pending[|t.pending| - 1] == Entry(key, no);
      }
    }
  }

  lemma TakeKeepsOrder(q: Queue)
    requires RanInv(q) && q.pending != []
    ensures var ran := Step(q, Take).ran;
      forall a, b :: 0 <= a < b < |ran| && ran[a].key == ran[b].key ==> ran[a].no < ran[b].no
  {
    var ran := Step(q, Take).ran;
    assert q.pending[0] in q.pending;
    forall a, b | 0 <= a < b < |ran| && ran[a].key == ran[b].key ensures ran[a].no < ran[b].no {
      if b == |q.ran| {
        assert q.ran[a] in q.ran;
      }
    }
  }

  lemma TakeKeepsRan(q: Queue)
    requires PendingInv(q) && RanInv(q) && q.pending != []
    ensures RanInv(Step(q, Take))
  {
    var t := Step(q, Take);
    var first := q.pending[0];
    assert first in q.pending && IsLast(q.submitted, first.no);
    hide IsLast;
    assert forall e :: e in t.ran ==> e == first || e in q.ran;
    forall e, p | e in t.ran && p in t.pending && e.key == p.key ensures e.no < p.no {
      var k :| 0 <= k < |t.pending| && t.pending[k] == p;
      assert q.pending[0].no < q.pending[k + 1].no;
    }
    TakeKeepsOrder(q);
    hide Step;
  }

  lemma TakeKeeps(q: Queue)
    requires Inv(q)
    ensures Inv(Step(q, Take))
  {
    hide IsLast;
    if q.pending != [] {
      var t := Step(q, Take);
      var first := q.pending[0];
      assert forall e :: e in q.pending <==> e == first || e in t.pending;
      assert forall e :: e in t.ran <==> e == first || e in q.ran;
      TakeKeepsRan(q);
    }
  }

  lemma {:induction false} RunKeeps(q: Queue, ops: seq<Op>)
    requires Inv(q)
    ensures Inv(Run(q, ops))
  {
    if ops != [] {
      RunKeeps(q, ops[..|ops| - 1]);
      var u := Run(q, ops[..|ops| - 1]);
      match ops[|ops| - 1]
      case Submit(key) =>
        SubmitKeepsPending(u, key);
        SubmitKeepsRan(u, key);
        SubmitLosesNothing(u, key);
      case Take => TakeKeeps(u);
    }
  }

  predicate Executed(q: Queue, no: nat) {
    no < |q.submitted| && Entry(q.submitted[no], no) in q.ran
  }

  predicate Waiting(q: Queue, no: nat) {
    no < |q.submitted| && Entry(q.submitted[no], no) in q.pending
  }

  predicate Superseded(q: Queue, no: nat) {
    no < |q.submitted| && !IsLast(q.submitted, no)
  }

  /** After any interleaving: at most one pending job per key, and that is the key's newest;
      every job has run, is pending or was superseded; a key's jobs ran in submission order,
      each at most once. */
  lemma EveryRun(ops: seq<Op>)
    ensures var q := Run(Queue([], [], []), ops);
      && (forall a, b :: 0 <= a < b < |q.pending| ==> q.pending[a].key != q.pending[b].key)
      && (forall no :: Waiting(q, no) ==> !Superseded(q, no) && !Executed(q, no))
      && (forall no :: 0 <= no < |q.submitted| ==> Executed(q, no) || Waiting(q, no) || Superseded(q, no))
      && (forall e :: e in q.ran ==> Executed(q, e.no) && q.submitted[e.no] == e.key)
      && (forall a, b :: 0 <= a < b < |q.ran| && q.ran[a].key == q.ran[b].key ==> q.ran[a].no < q.ran[b].no)
  {
    RunKeeps(Queue([], [], []), ops);
    var q := Run(Queue([], [], []), ops);
    forall a, b | 0 <= a < b < |q.pending| ensures q.pending[a].key != q.pending[b].key {
      assert q.pending[a] in q.pending && q.pending[b] in q.pending;
    }
  }

  /** A drained queue has run the last submission of every key, after all the others of it. */
  lemma DrainedRanTheLast(ops: seq<Op>, no: nat)
    requires var q := Run(Queue([], [], []), ops); q.pending == [] && IsLast(q.submitted, no)
    ensures var q := Run(Queue([], [], []), ops);
      && Executed(q, no)
      && exists k :: 0 <= k < |q.ran| && q.ran[k] == Entry(q.submitted[no], no)
           && forall m :: k < m < |q.ran| ==> q.ran[m].key != q.submitted[no]
  {
    RunKeeps(Queue([], [], []), ops);
    var q := Run(Queue([], [], []), ops);
    assert Executed(q, no);
    var k :| 0 <= k < |q.ran| && q.ran[k] == Entry(q.submitted[no], no);
    forall m | k < m < |q.ran| ensures q.ran[m].key != q.submitted[no] {
      assert q.ran[m] in q.ran;
    }
  }

  // ------------------------------------------------------------------------- waiting times

  function Takes(ops: seq<Op>): nat {
    if ops == [] then 0 else Takes(ops[..|ops| - 1]) + if ops[|ops| - 1].Take? then 1 else 0
  }

  predicate Within(jobs: seq<Entry>, e: Entry, far: int) {
    exists k :: 0 <= k < |jobs| && k <= far && jobs[k] == e
  }

  lemma {:induction false} WithoutMovesUp(jobs: seq<Entry>, key: Key, k: nat) returns (k': nat)
    requires k < |jobs| && jobs[k].key != key
    ensures k' <= k && k' < |Without(jobs, key)| && Without(jobs, key)[k'] == jobs[k]
  {
    if k < |jobs| - 1 {
      k' := WithoutMovesUp(jobs[..|jobs| - 1], key, k);
    } else {
      k' := |Without(jobs[..|jobs| - 1], key)|;
    }
  }

  lemma StepNearer(q: Queue, op: Op, e: Entry, far: int)
    requires op != Submit(e.key) && (e in q.ran || Within(q.pending, e, far))
    ensures var t := Step(q, op); e in t.ran || Within(t.pending, e, if op.Take? then far - 1 else far)
  {
    if e !in q.ran {
      var t := Step(q, op);
      var k :| 0 <= k < |q.pending| && k <= far && q.pending[k] == e;
      if op.Submit? {
        var k' := WithoutMovesUp(q.pending, op.key, k);
        assert t.pending[k'] == e;
      } else if k == 0 {
        assert t.ran[|q.ran|] == e;
      } else {
        assert t.pending[k - 1] == e;
      }
    }
  }

  /** Each take brings a pending job one nearer, unless its own key is submitted again: once as
      many jobs have been taken as stand before it, and one more, it has run. */
  lemma {:induction false} RunsInItsTurn(q: Queue, ops: seq<Op>, p: nat)
    requires p < |q.pending| && Submit(q.pending[p].key) !in ops
    ensures var t := Run(q, ops); q.pending[p] in t.ran || Within(t.pending, q.pending[p], p - Takes(ops))
    ensures Takes(ops) > p ==> q.pending[p] in Run(q, ops).ran
  {
    if ops != [] {
      var before, op := ops[..|ops| - 1], ops[|ops| - 1];
      RunsInItsTurn(q, before, p);
      StepNearer(Run(q, before), op, q.pending[p], p - Takes(before));
    }
  }

  function Storm(n: nat, a: Key, b: Key): seq<Op> {
    if n == 0 then [Submit(a), Submit(b)] else Storm(n - 1, a, b) + [Submit(a), Take, Submit(b)]
  }

  lemma RunThree(q: Queue, ops: seq<Op>, x: Op, y: Op, z: Op)
    ensures Run(q, ops + [x] + [y]) == Step(Step(Run(q, ops), x), y)
    ensures Run(q, ops + [x] + [y] + [z]) == Step(Step(Step(Run(q, ops), x), y), z)
  {
    var one := ops + [x];
    var two := one + [y];
    assert (two + [z])[..|two|] == two && two[..|one|] == one && one[..|ops|] == ops;
  }

  lemma WithoutOther(e: Entry, key: Key)
    requires e.key != key
    ensures Without([e], key) == [e]
  {
    assert [e][..0] == [];
  }

  lemma StormBegins(a: Key, b: Key)
    requires a != b
    ensures var q := Run(Queue([], [], []), Storm(0, a, b)); q.ran == [] && q.pending == [Entry(a, 0), Entry(b, 1)]
  {
    var q0 := Queue([], [], []);
    var q1 := Step(q0, Submit(a));
    assert q1 == Queue([a], [Entry(a, 0)], []) by {
      assert Without([], a) == [];
    }
    WithoutOther(Entry(a, 0), b);
    assert Step(q1, Submit(b)).pending == [Entry(a, 0), Entry(b, 1)];
    hide Step, Without;
    assert Storm(0, a, b) == [] + [Submit(a)] + [Submit(b)];
    assert Run(q0, []) == q0;
    RunThree(q0, [], Submit(a), Submit(b), Take);
  }

  lemma WithoutPair(jobs: seq<Entry>, key: Key)
    requires |jobs| == 2 && jobs[0].key == key != jobs[1].key
    ensures Without(jobs, key) == [jobs[1]]
  {
    var one := jobs[..1];
    assert one[..0] == [] && one[0] == jobs[0];
    assert Without(one, key) == [];
  }

  lemma StormRound(q: Queue, a: Key, b: Key)
    requires |q.pending| == 2 && q.pending[0].key == a && q.pending[1].key == b && a != b
    ensures var t := Step(Step(Step(q, Submit(a)), Take), Submit(b));
      && t.ran == q.ran + [q.pending[1]]
      && |t.pending| == 2 && t.pending[0].key == a && t.pending[1].key == b
  {
    var x, y := q.pending[0], q.pending[1];
    var q1 := Step(q, Submit(a));
    WithoutPair(q.pending, a);
    var newer := Entry(a, |q.submitted|);
    assert q1.pending == [y, newer];
    assert Step(q1, Take).pending == [newer];
    WithoutOther(newer, b);
  }

  /** Resubmitting sends a key to the back: under a storm on two keys only one is ever served. */
  lemma {:induction false} ResubmittingCanStarve(n: nat, a: Key, b: Key)
    requires a != b
    ensures var q := Run(Queue([], [], []), Storm(n, a, b));
      && |q.ran| == n && (forall e :: e in q.ran ==> e.key == b)
      && |q.pending| == 2 && q.pending[0].key == a && q.pending[1].key == b
  {
    hide Step, Run, Without;
    var q0 := Queue([], [], []);
    if n == 0 {
      StormBegins(a, b);
    } else {
      ResubmittingCanStarve(n - 1, a, b);
      var t := Storm(n - 1, a, b);
      RunThree(q0, t, Submit(a), Take, Submit(b));
      assert Storm(n, a, b) == t + [Submit(a)] + [Take] + [Submit(b)];
      StormRound(Run(q0, t), a, b);
    }
  }
}
