/**
 Deciding to give up the cloud identity and erasing it (`RefusalTracker`,
 `refusal_verdict`, `wipe_binding`, `stand_down`, `finish_stand_down`, `retry_wipe` of
 binding_core.py; `classify_refusal` and the heartbeat channel of sa02m-cloud-agent.py).
 */
module StandDown {
  import opened Base
  import opened Refusals

  /** The `error` string of a refused heartbeat, as far as the table knows it. */
  datatype Reason = DeviceRevoked | UnknownDevice | InvalidCredential | IdentityRequired | OtherReason

  /** One heartbeat: the HTTP status (0 for no answer at all) and the stated reason. */
  datatype Beat = Beat(status: int, reason: Reason)

  /** Only a 403 with a known reason is a refusal. */
  function Classify(b: Beat): Option<Class> {
    if b.status != 403 then None
    else
      match b.reason
      case DeviceRevoked => Some(Revoked)
      case UnknownDevice => Some(Unlinked)
      case InvalidCredential => Some(Unknown)
      case IdentityRequired => Some(Unknown)
      case OtherReason => None
  }

  // --------------------------------------------------------------------------- the counter

  /** The counter after one heartbeat: a 200 resets, a refusal counts, the rest is nothing. */
  function Feed(t: Tracker, b: Beat): Tracker {
    if b.status == 200 then NOTHING
    else if Classify(b) == None then t
    else NoteRefusal(t, Classify(b).value)
  }

  function Track(h: seq<Beat>): Tracker {
    if h == [] then NOTHING else Feed(Track(h[..|h| - 1]), h[|h| - 1])
  }

  /** The class the latest heartbeat of `h` stands down on. */
  function Verdict(threshold: nat, h: seq<Beat>): Option<Class> {
    if h == [] || h[|h| - 1].status == 200 || Classify(h[|h| - 1]) == None then None
    else if Track(h).count >= threshold then Classify(h[|h| - 1]) else None
  }

  /** One heartbeat: the class to stand down on, if the threshold is reached by it. */
  method Heartbeat(tracker: RefusalTracker, b: Beat, ghost h: seq<Beat>) returns (verdict: Option<Class>)
    requires tracker.State() == Track(h)
    modifies tracker
    ensures tracker.State() == Track(h + [b])
    ensures verdict == Verdict(tracker.threshold, h + [b])
  {
    assert (h + [b])[..|h|] == h;
    verdict := None;
    if b.status == 200 {
      tracker.NoteSuccess();
      return;
    }
    var c := Classify(b);
    if c.Some? {
      var reached := tracker.Note(c.value);
      if reached {
        verdict := c;
      }
    }
  }

  // --------------------------------------------- what the counter means, without the counter

  /** A heartbeat that ends a series of refusals of class `c`. */
  predicate Resets(b: Beat, c: Class) {
    b.status == 200 || (Classify(b).Some? && Classify(b) != Some(c))
  }

  /** `idx` names refusals of class `c`, in order, the last one being the latest heartbeat,
      with no success and no refusal of another class since the first of them. */
  ghost predicate Series(h: seq<Beat>, idx: seq<nat>, c: Class) {
    && idx != [] && idx[|idx| - 1] == |h| - 1
    && (forall a, b :: 0 <= a < b < |idx| ==> idx[a] < idx[b])
    && (forall a :: 0 <= a < |idx| ==> idx[a] < |h| && Classify(h[idx[a]]) == Some(c))
    && forall m :: idx[0] <= m < |h| ==> !Resets(h[m], c)
  }

  /** Refusals of class `c` since the last reset. */
  function Since(h: seq<Beat>, c: Class): nat {
    if h == [] then 0
    else
      var b := h[|h| - 1];
      if Resets(b, c) then 0
      else (if Classify(b) == Some(c) then 1 else 0) + Since(h[..|h| - 1], c)
  }

  lemma {:induction false} TrackIsSince(h: seq<Beat>)
    ensures var t := Track(h);
            (t.cls == None ==> t.count == 0) && forall c :: Since(h, c) == if t.cls == Some(c) then t.count else 0
  {
    if h != [] {
      TrackIsSince(h[..|h| - 1]);
    }
  }

  lemma {:induction false} SinceGrows(h: seq<Beat>, g: seq<Beat>, c: Class)
    requires g <= h && forall m :: |g| <= m < |h| ==> !Resets(h[m], c)
    ensures Since(h, c) >= Since(g, c)
    decreases |h|
  {
    if |g| < |h| {
      SinceGrows(h[..|h| - 1], g, c);
    } else {
      assert g == h;
    }
  }

  lemma {:induction false} SeriesWithin(h: seq<Beat>, idx: seq<nat>, c: Class)
    requires Series(h, idx, c)
    ensures Since(h, c) >= |idx|
    decreases |h|
  {
    var n := |h| - 1;
    assert Classify(h[n]) == Some(c) && !Resets(h[n], c);
    if |idx| > 1 {
      var shorter, last := idx[..|idx| - 1], idx[|idx| - 2];
      var g := h[..last + 1];
      assert Series(g, shorter, c);
      SeriesWithin(g, shorter, c);
      SinceGrows(h[..n], g, c);
    }
  }

  /** The same for a history whose latest heartbeat need not be a refusal. */
  lemma {:induction false} Earlier(h: seq<Beat>, c: Class, k: nat) returns (idx: seq<nat>)
    requires 0 < k <= Since(h, c)
    ensures idx != [] && |idx| == k
    ensures (forall a, b :: 0 <= a < b < |idx| ==> idx[a] < idx[b])
    ensures (forall a :: 0 <= a < |idx| ==> idx[a] < |h| && Classify(h[idx[a]]) == Some(c))
    ensures forall m :: idx[0] <= m < |h| ==> !Resets(h[m], c)
    decreases |h|, 0
  {
    var b := h[|h| - 1];
    if Classify(b) == Some(c) {
      if k == 1 {
        idx := [|h| - 1];
      } else {
        var before := Earlier(h[..|h| - 1], c, k - 1);
        idx := before + [|h| - 1];
      }
    } else {
      idx := Earlier(h[..|h| - 1], c, k);
    }
  }

  lemma {:induction false} SeriesExists(h: seq<Beat>, c: Class, k: nat) returns (idx: seq<nat>)
    requires h != [] && Classify(h[|h| - 1]) == Some(c) && h[|h| - 1].status != 200
    requires 0 < k <= Since(h, c)
    ensures Series(h, idx, c) && |idx| == k
    decreases |h|, 1
  {
    if k == 1 {
      idx := [|h| - 1];
    } else {
      var before := Earlier(h[..|h| - 1], c, k - 1);
      idx := before + [|h| - 1];
    }
  }

  /** The board stands down at a heartbeat exactly when that heartbeat is a refusal closing a
      series of at least `threshold` refusals of one class, uninterrupted by a success or by
      a refusal of another class; answers that say nothing change nothing. */
  lemma StandsDownIff(threshold: nat, h: seq<Beat>, c: Class)
    requires threshold > 0
    ensures Verdict(threshold, h) == Some(c) <==> exists idx :: |idx| == threshold && Series(h, idx, c)
  {
    TrackIsSince(h);
    if Verdict(threshold, h) == Some(c) {
      assert Track(h).cls == Some(c);
      var idx := SeriesExists(h, c, threshold);
    }
    if exists idx :: |idx| == threshold && Series(h, idx, c) {
      var idx :| |idx| == threshold && Series(h, idx, c);
      SeriesWithin(h, idx, c);
      assert Classify(h[|h| - 1]) == Some(c) && !Resets(h[|h| - 1], c);
    }
  }

  /** A transport error, a 5xx or an unrecognised 403 leaves the count as it is. */
  lemma NoiseChangesNothing(h: seq<Beat>, b: Beat)
    requires b.status != 200 && Classify(b) == None
    ensures Track(h + [b]) == Track(h) && Verdict(3, h + [b]) == None
  {
    assert (h + [b])[..|h|] == h;
  }

  // ------------------------------------------------------------------------------ the wipe

  type Path = string

  datatype State = StateRevoked | StateUnlinked

  /** What the card shows about the binding. */
  datatype Status = Active | UnlinkFailed | Erased(state: State)

  function StateFor(c: Class): State {
    if c == Revoked then StateRevoked else StateUnlinked
  }

  /** The board's files, the failed wipe it remembers, its durable marker, the card; `raised`: writing
      the marker failed after a wipe, and the exception has ended the run. */
  datatype DoorState = DoorState(
    present: set<Path>, pending: Option<Class>, marker: Option<Class>, status: Status, raised: bool)

  /** The files left after wiping `paths` in order, and whether it got to the end. */
  function Wiped(present: set<Path>, paths: seq<Path>, denied: set<Path>): (set<Path>, bool) {
    if paths == [] then (present, true)
    else if paths[0] in present && paths[0] in denied then (present, false)
    else Wiped(present - {paths[0]}, paths[1..], denied)
  }

  /** The bookkeeping after a wipe that worked; `marks`: the marker can be written. */
  function Finish(d: DoorState, c: Class, marks: bool): DoorState {
    if marks then d.(marker := Some(c), status := Erased(StateFor(c))) else d.(raised := true)
  }

  function Wipe(d: DoorState, paths: seq<Path>, c: Class, denied: set<Path>, marks: bool): DoorState {
    var (left, ok) := Wiped(d.present, paths, denied);
    if ok then Finish(d.(present := left, pending := None), c, marks)
    else d.(present := left, pending := Some(c), status := UnlinkFailed)
  }

  /** A stand-down verdict, a retry of a failed wipe, an accepted heartbeat, or a new pairing, which
      brings files back and clears the marker. */
  datatype DoorStep =
    | Refuse(cls: Class, denied: set<Path>, marks: bool)
    | Retry(denied: set<Path>, marks: bool)
    | Accept
    | Pair(files: set<Path>)

  function DoorNext(d: DoorState, paths: seq<Path>, step: DoorStep): DoorState {
    match step
    case Refuse(c, denied, marks) => Wipe(d, paths, c, denied, marks)
    case Retry(denied, marks) => if d.pending.Some? then Wipe(d, paths, d.pending.value, denied, marks) else d
    case Accept => d
    case Pair(files) => d.(present := d.present + files, marker := None, status := Active)
  }

  /** The board's files and what the door has said and remembers. */
  class Door {
    var present: set<Path>
    var pending: Option<Class>
    var marker: Option<Class>
    var status: Status
    var raised: bool

    function State(): DoorState
      reads this
    {
      DoorState(present, pending, marker, status, raised)
    }

    constructor (present: set<Path>)
      ensures State() == DoorState(present, None, None, Active, false)
    {
      this.present, pending, marker, status, raised := present, None, None, Active, false;
    }

    /** Delete the named files one by one; a file that cannot be deleted ends it. `denied`
        are the files the filesystem will not let go. */
    method WipeBinding(paths: seq<Path>, denied: set<Path>)
      returns (removed: seq<Path>, absent: seq<Path>, ok: bool)
      modifies this`present
      ensures (present, ok) == Wiped(old(present), paths, denied)
      ensures ok ==> |removed| + |absent| == |paths|
      ensures forall p :: p in removed ==> p in old(present) && p in paths && p !in present
      ensures forall p :: p in absent ==> p in paths && p !in present
    {
      removed, absent, ok := [], [], true;
      for i := 0 to |paths|
        invariant ok && |removed| + |absent| == i && present <= old(present)
        invariant Wiped(old(present), paths, denied) == Wiped(present, paths[i..], denied)
        invariant forall p :: p in removed ==> p in old(present) && p in paths && p !in present
        invariant forall p :: p in absent ==> p in paths && p !in present
      {
        var p := paths[i];
        assert paths[i..][0] == p && paths[i..][1..] == paths[i + 1..];
        if p !in present {
          absent := absent + [p];
          assert present - {p} == present;
        } else if p in denied {
          ok := false;
          return;
        } else {
          present := present - {p};
          removed := removed + [p];
        }
      }
    }

    /** The source refused this board; heartbeats run only while nothing is pending. */
    method StandDown(paths: seq<Path>, denied: set<Path>, c: Class, marks: bool) returns (repair: bool)
      requires pending == None && status == Active && !raised
      modifies this
      ensures State() == DoorNext(old(State()), paths, Refuse(c, denied, marks))
      ensures repair <==> status.Erased?
    {
      var removed, absent, ok := WipeBinding(paths, denied);
      if !ok {
        pending, status := Some(c), UnlinkFailed;
        return false;
      }
      repair := FinishStandDown(c, marks);
    }

    /** The marker first, then the status; a marker that cannot be written raises. */
    method FinishStandDown(c: Class, marks: bool) returns (repair: bool)
      modifies this`marker, this`status, this`raised
      ensures State() == Finish(old(State()), c, marks) && repair == marks
    {
      if !marks {
        raised := true;
        return false;
      }
      marker := Some(c);
      status := Erased(StateFor(c));
      repair := true;
    }

    /** The board is bound again. */
    method BindAgain(paths: seq<Path>, files: set<Path>)
      requires status.Erased? && !raised
      modifies this
      ensures State() == DoorNext(old(State()), paths, Pair(files))
    {
      present := present + files;
      marker, status := None, Active;
    }

    /** One retry of a failed wipe. */
    method RetryWipe(paths: seq<Path>, denied: set<Path>, marks: bool) returns (repair: bool)
      requires pending.Some? && status == UnlinkFailed && !raised
      modifies this
      ensures State() == DoorNext(old(State()), paths, Retry(denied, marks))
      ensures repair <==> status.Erased?
    {
      var c := pending.value;
      var removed, absent, ok := WipeBinding(paths, denied);
      if !ok {
        status := UnlinkFailed;
        return false;
      }
      pending := None;
      repair := FinishStandDown(c, marks);
    }
  }

  // ------------------------------------------------------------------- runs of the door

  lemma {:induction false} WipedFacts(present: set<Path>, paths: seq<Path>, denied: set<Path>)
    ensures var (left, ok) := Wiped(present, paths, denied);
            && left <= present
            && (ok ==> forall p :: p in paths ==> p !in left)
            && (!ok ==> exists p :: p in paths && p in left)
            && forall p :: p in present && p !in paths ==> p in left
  {
    if paths != [] && !(paths[0] in present && paths[0] in denied) {
      WipedFacts(present - {paths[0]}, paths[1..], denied);
    }
  }

  /** Heartbeats run while the board is bound, retries while a wipe is pending; a board that has been
      erased waits to be paired. */
  predicate Enabled(d: DoorState, step: DoorStep) {
    && !d.raised
    && match step
       case Retry(_, _) => d.pending.Some?
       case Pair(_) => d.status.Erased?
       case _ => d.pending == None && d.status == Active
  }

  function DoorRun(d: DoorState, paths: seq<Path>, steps: seq<DoorStep>): DoorState {
    if steps == [] then d else DoorNext(DoorRun(d, paths, steps[..|steps| - 1]), paths, steps[|steps| - 1])
  }

  ghost predicate DoorLegal(d: DoorState, paths: seq<Path>, steps: seq<DoorStep>) {
    steps == [] ||
    (&& DoorLegal(d, paths, steps[..|steps| - 1])
     && Enabled(DoorRun(d, paths, steps[..|steps| - 1]), steps[|steps| - 1]))
  }

  ghost predicate AllGone(d: DoorState, paths: seq<Path>) {
    forall p :: p in paths ==> p !in d.present
  }

  ghost predicate Honest(d: DoorState, paths: seq<Path>, was: set<Path>) {
    && (d.status.Erased? ==> AllGone(d, paths) && d.marker.Some? && d.status.state == StateFor(d.marker.value))
    && (d.status.Erased? <==> d.marker.Some?)
    && (d.pending.Some? <==> d.status == UnlinkFailed && !d.raised)
    && (d.pending.Some? ==> exists p :: p in paths && p in d.present)
    && (d.raised ==> AllGone(d, paths) && d.marker == None)
    && forall p :: p in was && p !in paths ==> p in d.present
  }

  /** Whatever fails, however often, and however often the board is paired again: an erased status
      means every binding file is gone; a wipe that failed says so and keeps its verdict while a file
      is left; a run that a marker write ended says nothing of erasure although every file is gone;
      no other file is ever touched. */
  lemma {:induction false} ErasedMeansGone(was: set<Path>, paths: seq<Path>, steps: seq<DoorStep>)
    requires DoorLegal(DoorState(was, None, None, Active, false), paths, steps)
    ensures Honest(DoorRun(DoorState(was, None, None, Active, false), paths, steps), paths, was)
  {
    if steps != [] {
      var d := DoorRun(DoorState(was, None, None, Active, false), paths, steps[..|steps| - 1]);
      ErasedMeansGone(was, paths, steps[..|steps| - 1]);
      match steps[|steps| - 1] {
        case Refuse(c, denied, marks) => WipedFacts(d.present, paths, denied);
        case Retry(denied, marks) => WipedFacts(d.present, paths, denied);
        case Accept =>
        case Pair(files) =>
      }
    }
  }
}
