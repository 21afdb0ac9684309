/**
 Reading refusals from a unit journal by cursor (`read_cursor`, `save_cursor`,
 `drop_cursor`, `journal_reject_reason` of binding_core.py) together with the counter they
 feed (`RefusalTracker`). A line must never be counted twice, whatever fails: journalctl,
 its footer, the cursor file, the process. From that follows what a stand-down over this
 channel is worth: three different journal lines of one class.
 */
module JournalCursor {
  import opened Base
  import opened Refusals

  /** A journal line: the second it was written in and the refusal class it states, if any. */
  datatype Line = Line(at: nat, refusal: Option<Class>)

  /** What journalctl does in one tick. A footer names the last line shown. */
  datatype Answer = Unavailable | Failed | Footerless | Shown(last: nat, shown: set<nat>)

  /** One tick's luck: can the cursor file be read, what journalctl answers, can the new
      cursor be saved, can a refused one be unlinked. */
  datatype Luck = Luck(readable: bool, answer: Answer, saves: bool, unlinks: bool)

  /** The in-memory cursor, the cursor file, and the armed `--since` window. A cursor is the
      position of the last line read. */
  datatype Reader = Reader(mem: Option<nat>, file: Option<nat>, since: Option<nat>)

  function CursorOf(r: Reader, luck: Luck): Option<nat> {
    if r.mem.Some? then r.mem else if luck.readable then r.file else None
  }

  /** The lines this tick asks for. */
  predicate InWindow(lines: seq<Line>, now: nat, r: Reader, luck: Luck, i: nat) {
    && i < |lines|
    && match CursorOf(r, luck)
       case Some(c) => i > c
       case None => lines[i].at >= (if r.since.Some? then r.since.value else now)
  }

  /** journalctl shows only lines of the window, and the footer is the last of them. */
  ghost predicate Plausible(lines: seq<Line>, now: nat, r: Reader, luck: Luck) {
    luck.answer.Shown? ==>
      && luck.answer.last in luck.answer.shown
      && forall i :: i in luck.answer.shown ==> i <= luck.answer.last && InWindow(lines, now, r, luck, i)
  }

  /** The latest line before `k` among those shown that states a refusal. */
  function Latest(lines: seq<Line>, shown: set<nat>, k: nat): (r: Option<nat>)
    requires k <= |lines|
    ensures r.Some? ==> r.value < k && r.value in shown && lines[r.value].refusal.Some?
  {
    if k == 0 then None
    else if k - 1 in shown && lines[k - 1].refusal.Some? then Some(k - 1)
    else Latest(lines, shown, k - 1)
  }

  /** The reader after one tick, and the refusal line it reports, if any. */
  function Tick(lines: seq<Line>, now: nat, r: Reader, luck: Luck): (Reader, Option<nat>) {
    var cursor := CursorOf(r, luck);
    var since := if r.since.Some? then r.since.value else now;
    match luck.answer
    case Unavailable => (if cursor.Some? then r else r.(since := Some(since)), None)
    case Footerless => (if cursor.Some? then r else r.(since := Some(since)), None)
    case Failed =>
      if cursor.Some? then (Reader(None, if luck.unlinks then None else r.file, Some(now)), None)
      else (r.(since := Some(since)), None)
    case Shown(last, shown) =>
      var s := if cursor.Some? then r.since else None;
      if luck.saves then
        (Reader(Some(last), Some(last), s), if last < |lines| then Latest(lines, shown, last + 1) else None)
      else (Reader(Some(last), r.file, s), None)
  }

  // ---------------------------------------------------------------- the reader as it runs

  /** The latest refusal line wins. */
  method LatestRefusal(lines: seq<Line>, shown: set<nat>, last: nat) returns (r: Option<nat>)
    requires last < |lines|
    ensures r == Latest(lines, shown, last + 1)
  {
    r := None;
    var k := 0;
    while k <= last
      invariant k <= last + 1
      invariant r == Latest(lines, shown, k)
    {
      if k in shown && lines[k].refusal.Some? {
        r := Some(k);
      }
      k := k + 1;
    }
  }

  class JournalReader {
    var mem: Option<nat>
    var file: Option<nat>
    var since: Option<nat>

    function State(): Reader
      reads this
    {
      Reader(mem, file, since)
    }

    constructor (file: Option<nat>, startedAt: nat)
      ensures State() == Reader(None, file, Some(startedAt))
    {
      this.mem, this.file, this.since := None, file, Some(startedAt);
    }

    method ReadCursor(readable: bool) returns (c: Option<nat>)
      ensures c == if mem.Some? then mem else if readable then file else None
    {
      if mem.Some? {
        return mem;
      }
      c := if readable then file else None;
    }

    /** The in-memory twin moves first; false when the file could not be replaced. */
    method SaveCursor(c: nat, saves: bool) returns (ok: bool)
      modifies this
      ensures ok == saves && mem == Some(c) && since == old(since)
      ensures file == if saves then Some(c) else old(file)
    {
      mem := Some(c);
      if saves {
        file := Some(c);
      }
      ok := saves;
    }

    method DropCursor(now: nat, unlinks: bool)
      modifies this
      ensures mem == None && since == Some(now) && file == if unlinks then None else old(file)
    {
      mem := None;
      if unlinks {
        file := None;
      }
      since := Some(now);
    }

    method Rearm(cursor: Option<nat>, window: nat)
      modifies this
      ensures mem == old(mem) && file == old(file)
      ensures since == if cursor == None then Some(window) else old(since)
    {
      if cursor == None {
        since := Some(window);
      }
    }

    method RejectReason(lines: seq<Line>, now: nat, luck: Luck) returns (reason: Option<nat>)
      modifies this
      ensures (State(), reason) == Tick(lines, now, old(State()), luck)
    {
      var cursor := ReadCursor(luck.readable);
      var window := now;
      if cursor == None {
        window := if since.Some? then since.value else now;
        since := None;
      }
      match luck.answer {
        case Unavailable =>
          Rearm(cursor, window);
          return None;
        case Failed =>
          if cursor.Some? {
            DropCursor(now, luck.unlinks);
          } else {
            Rearm(cursor, window);
          }
          return None;
        case Footerless =>
          Rearm(cursor, window);
          return None;
        case Shown(last, shown) =>
          var saved := SaveCursor(last, luck.saves);
          if !saved || last >= |lines| {
            return None;
          }
          reason := LatestRefusal(lines, shown, last);
      }
    }
  }

  // -------------------------------------------------------------------------- whole runs

  const STAND_DOWN_COUNT := 3
  const WATCHDOG_S := 60

  /** A window that returned a refusal: the lines shown and the one that was reported. */
  datatype Counted = Counted(shown: set<nat>, line: nat)

  /** Journal, clock, reader, tracker, the windows counted so far; the class the latest tick stood down
      on, if it did; the second of the latest tick that counted a window, and of the latest tick of
      the running loop. */
  datatype World = World(
    lines: seq<Line>, now: nat, reader: Reader, tracker: Tracker, windows: seq<Counted>, stoodDown: Option<Class>,
    countedAt: Option<nat>, tickedAt: Option<nat>)

  datatype Step = Write(refusal: Option<Class>) | Wait | Poll(luck: Luck) | Restart(rebooted: bool)

  predicate SecondOver(w: World) {
    w.countedAt.Some? ==> w.countedAt.value < w.now
  }

  /** Whatever journalctl, the files and the process do, with one exception: no cursor is refused and
      no process restarted in the very second in which a window was counted. */
  ghost predicate Possible(w: World, step: Step) {
    match step
    case Write(_) => true
    case Wait => true
    case Poll(luck) => Plausible(w.lines, w.now, w.reader, luck) && (luck.answer.Failed? ==> SecondOver(w))
    case Restart(_) => SecondOver(w)
  }

  /** A tick feeds the tracker: a reported line counts toward its class, anything else is a
      success and resets. A stand-down ends the loop; the next one has a tracker of its own and ticks
      as soon as it is entered. */
  function AfterPoll(w: World, luck: Luck): World {
    var (r, reason) := Tick(w.lines, w.now, w.reader, luck);
    var v := w.(reader := r, tickedAt := Some(w.now));
    if reason == None || reason.value >= |w.lines| || w.lines[reason.value].refusal == None || !luck.answer.Shown? then
      v.(tracker := NOTHING, stoodDown := None)
    else
      var cls := w.lines[reason.value].refusal.value;
      var tracker := NoteRefusal(w.tracker, cls);
      var counted := v.(tracker := tracker, stoodDown := None, countedAt := Some(w.now),
                        windows := w.windows + [Counted(luck.answer.shown, reason.value)]);
      if tracker.count < STAND_DOWN_COUNT then counted
      else counted.(tracker := NOTHING, stoodDown := Some(cls), tickedAt := None)
  }

  /** The tick as the loop runs it, on its reader and its tracker: the class to stand down on, if any. */
  method WatchdogTick(reader: JournalReader, tracker: RefusalTracker, lines: seq<Line>, now: nat, luck: Luck,
                      ghost w: World) returns (verdict: Option<Class>)
    requires reader.State() == w.reader && tracker.State() == w.tracker && tracker.threshold == STAND_DOWN_COUNT
    requires w.lines == lines && w.now == now && w.tracker.count < STAND_DOWN_COUNT
    modifies reader, tracker
    ensures reader.State() == AfterPoll(w, luck).reader && verdict == AfterPoll(w, luck).stoodDown
    ensures verdict == None ==> tracker.State() == AfterPoll(w, luck).tracker
  {
    verdict := None;
    var reason := reader.RejectReason(lines, now, luck);
    if reason.Some? {
      var cls := lines[reason.value].refusal.value;
      var reached := tracker.Note(cls);
      verdict := if reached then Some(cls) else None;
    } else {
      tracker.NoteSuccess();
    }
  }

  function Next(w: World, step: Step): World {
    match step
    case Write(refusal) => w.(lines := w.lines + [Line(w.now, refusal)])
    case Wait => w.(now := w.now + 1)
    case Poll(luck) => AfterPoll(w, luck)
    case Restart(rebooted) =>
      w.(reader := Reader(None, if rebooted then None else w.reader.file, Some(w.now)), tickedAt := None,
         tracker := NOTHING, stoodDown := None)
  }

  function Start(now: nat): World {
    World([], now, Reader(None, None, Some(now)), NOTHING, [], None, None, None)
  }

  function Run(w: World, steps: seq<Step>): World {
    if steps == [] then w else Next(Run(w, steps[..|steps| - 1]), steps[|steps| - 1])
  }

  ghost predicate Legal(w: World, steps: seq<Step>) {
    steps == [] || (Legal(w, steps[..|steps| - 1]) && Possible(Run(w, steps[..|steps| - 1]), steps[|steps| - 1]))
  }

  // ------------------------------------------------------------------------ the invariant

  /** Written in order, none in the future. */
  ghost predicate Chronological(w: World) {
    && (forall i, j :: 0 <= i < j < |w.lines| ==> w.lines[i].at <= w.lines[j].at)
    && (forall i :: 0 <= i < |w.lines| ==> w.lines[i].at <= w.now)
    && (w.countedAt.Some? ==> w.countedAt.value <= w.now)
  }

  /** Line `i` lies in some window that was counted. */
  ghost predicate WasCounted(w: World, i: nat) {
    exists k :: 0 <= k < |w.windows| && i in w.windows[k].shown
  }

  /** Line `i` is behind whatever the next read starts from: the cursor in memory, the saved
      one if there is a file, or the armed second. */
  ghost predicate BehindReader(lines: seq<Line>, r: Reader, i: nat) {
    && i < |lines|
    && (r.mem.Some? ==> i <= r.mem.value)
    && (r.file.Some? ==> i <= r.file.value)
    && (r.mem == None ==> r.since.Some? && lines[i].at < r.since.value)
  }

  ghost predicate Behind(w: World) {
    forall i: nat :: WasCounted(w, i) ==>
      BehindReader(w.lines, w.reader, i) && w.countedAt.Some? && w.lines[i].at <= w.countedAt.value
  }

  ghost predicate Armed(w: World) {
    w.reader.mem == None ==> w.reader.since.Some?
  }

  /** Windows never overlap, and later ones lie wholly after earlier ones. */
  ghost predicate Ordered(w: World) {
    forall a, b, i, j :: 0 <= a < b < |w.windows| && i in w.windows[a].shown && j in w.windows[b].shown ==> i < j
  }

  ghost predicate Reported(w: World, k: nat) {
    && k < |w.windows| && w.windows[k].line in w.windows[k].shown
    && w.windows[k].line < |w.lines| && w.lines[w.windows[k].line].refusal.Some?
  }

  /** Window `k` reported class `cls`. */
  ghost predicate ReportedClass(w: World, k: int, cls: Class) {
    0 <= k && Reported(w, k) && w.lines[w.windows[k].line].refusal == Some(cls)
  }

  /** The last `n` windows all reported this class. */
  ghost predicate LastReported(w: World, n: nat, cls: Class) {
    n <= |w.windows| && forall k :: |w.windows| - n <= k < |w.windows| ==> ReportedClass(w, k, cls)
  }

  /** The last windows all reported the class being counted; after a stand-down the last three
      reported the class of it. */
  ghost predicate Streak(w: World) {
    && w.tracker.count <= |w.windows| && w.tracker.count < STAND_DOWN_COUNT
    && (forall k :: 0 <= k < |w.windows| ==> Reported(w, k))
    && (w.tracker.count > 0 ==> w.tracker.cls.Some? && LastReported(w, w.tracker.count, w.tracker.cls.value))
    && (w.tracker.count == 0 ==> w.tracker.cls == None)
    && (w.stoodDown.Some? ==> LastReported(w, STAND_DOWN_COUNT, w.stoodDown.value))
  }

  ghost predicate Inv(w: World) {
    Chronological(w) && Behind(w) && Armed(w) && Ordered(w) && Streak(w)
  }

  /** Nothing was counted, and no line was changed. */
  ghost predicate SameCounts(w: World, v: World) {
    v.windows == w.windows && w.lines <= v.lines
  }

  lemma SameCountsKeep(w: World, v: World)
    requires Inv(w) && SameCounts(w, v)
    ensures forall i: nat :: WasCounted(v, i) == WasCounted(w, i)
    ensures Ordered(v)
    ensures (v.tracker == w.tracker && v.stoodDown == w.stoodDown) || (v.tracker == NOTHING && v.stoodDown == None) ==>
      Streak(v)
  {
    forall k | 0 <= k < |v.windows| ensures Reported(v, k) {
      assert Reported(w, k);
    }
    assert forall k, cls :: ReportedClass(w, k, cls) ==> ReportedClass(v, k, cls);
  }

  lemma WriteKeeps(w: World, refusal: Option<Class>)
    requires Inv(w)
    ensures Inv(Next(w, Write(refusal)))
  {
    SameCountsKeep(w, Next(w, Write(refusal)));
    hide Streak, Ordered, WasCounted;
  }

  lemma WaitKeeps(w: World)
    requires Inv(w)
    ensures Inv(Next(w, Wait))
  {
    SameCountsKeep(w, Next(w, Wait));
    hide Streak, Ordered, WasCounted;
  }

  lemma RestartKeeps(w: World, rebooted: bool)
    requires Inv(w) && SecondOver(w)
    ensures Inv(Next(w, Restart(rebooted)))
  {
    SameCountsKeep(w, Next(w, Restart(rebooted)));
    hide Streak, Ordered, WasCounted;
  }

  /** A window that is shown lies wholly after everything counted before. */
  lemma ShownIsNew(w: World, luck: Luck, i: nat, j: nat)
    requires Inv(w) && Plausible(w.lines, w.now, w.reader, luck) && luck.answer.Shown?
    requires WasCounted(w, i) && j in luck.answer.shown
    ensures i < j
  {
    hide Streak, Ordered, WasCounted;
    assert InWindow(w.lines, w.now, w.reader, luck, j);
  }

  /** A tick leaves every counted line behind the reader. */
  lemma TickKeepsBehind(w: World, luck: Luck, i: nat)
    requires Inv(w) && Possible(w, Poll(luck)) && WasCounted(w, i)
    ensures BehindReader(w.lines, Tick(w.lines, w.now, w.reader, luck).0, i)
  {
    if luck.answer.Shown? {
      ShownIsNew(w, luck, i, luck.answer.last);
    }
    hide Streak, Ordered, WasCounted, Plausible, Chronological;
  }

  lemma QuietSameCounts(w: World, luck: Luck)
    requires AfterPoll(w, luck).windows == w.windows
    ensures var v := AfterPoll(w, luck); SameCounts(w, v) && v.tracker == NOTHING && v.stoodDown == None
  {
    var shown := if luck.answer.Shown? then luck.answer.shown else {};
    assert forall c: Counted :: w.windows + [c] != w.windows;
  }

  /** A tick that counts nothing. */
  lemma QuietPollKeeps(w: World, luck: Luck)
    requires Inv(w) && Possible(w, Poll(luck))
    requires AfterPoll(w, luck).windows == w.windows
    ensures Inv(AfterPoll(w, luck))
  {
    var v := AfterPoll(w, luck);
    QuietSameCounts(w, luck);
    SameCountsKeep(w, v);
    forall i: nat | WasCounted(w, i) ensures BehindReader(v.lines, v.reader, i) {
      TickKeepsBehind(w, luck, i);
    }
    hide Streak, Ordered, WasCounted, Plausible, BehindReader, Latest;
  }

  lemma CountingPollBehind(w: World, luck: Luck)
    requires Inv(w) && Possible(w, Poll(luck))
    requires AfterPoll(w, luck).windows != w.windows
    ensures Behind(AfterPoll(w, luck))
  {
    var v := AfterPoll(w, luck);
    var last := luck.answer.last;
    assert v.reader.mem == Some(last) && v.reader.file == Some(last);
    forall i: nat | WasCounted(v, i) ensures BehindReader(v.lines, v.reader, i) && v.lines[i].at <= w.now {
      if WasCounted(w, i) {
        TickKeepsBehind(w, luck, i);
      } else {
        assert i in luck.answer.shown by {
          var k :| 0 <= k < |v.windows| && i in v.windows[k].shown;
          assert k == |w.windows|;
        }
        assert InWindow(w.lines, w.now, w.reader, luck, i);
      }
    }
  }

  lemma CountingPollOrdered(w: World, luck: Luck)
    requires Inv(w) && Possible(w, Poll(luck))
    requires AfterPoll(w, luck).windows != w.windows
    ensures Ordered(AfterPoll(w, luck))
  {
    var v := AfterPoll(w, luck);
    var n := |w.windows|;
    assert v.windows[..n] == w.windows && v.windows[n].shown == luck.answer.shown;
    forall a, b, i, j | 0 <= a < b < |v.windows| && i in v.windows[a].shown && j in v.windows[b].shown ensures i < j {
      assert v.windows[a] == w.windows[a];
      if b == n {
        assert WasCounted(w, i);
        ShownIsNew(w, luck, i, j);
      } else {
        assert v.windows[b] == w.windows[b];
      }
    }
  }

  lemma CountingPollStreak(w: World, luck: Luck)
    requires Inv(w) && Possible(w, Poll(luck))
    requires AfterPoll(w, luck).windows != w.windows
    ensures Streak(AfterPoll(w, luck))
  {
    var v := AfterPoll(w, luck);
    var n := |w.windows|;
    assert v.windows[..n] == w.windows && v.lines == w.lines;
    forall k | 0 <= k < |v.windows| ensures Reported(v, k) {
      assert k < n ==> v.windows[k] == w.windows[k] && Reported(w, k);
    }
    forall k, cls | k < n && ReportedClass(w, k, cls) ensures ReportedClass(v, k, cls) {
      assert v.windows[k] == w.windows[k];
    }
    assert ReportedClass(v, n, v.lines[v.windows[n].line].refusal.value);
  }

  /** A tick that counts a window. */
  lemma CountingPollKeeps(w: World, luck: Luck)
    requires Inv(w) && Possible(w, Poll(luck))
    requires AfterPoll(w, luck).windows != w.windows
    ensures Inv(AfterPoll(w, luck))
  {
    var v := AfterPoll(w, luck);
    CountingPollBehind(w, luck);
    CountingPollOrdered(w, luck);
    CountingPollStreak(w, luck);
    hide Streak, Ordered, Plausible, Behind;
  }

  lemma StepKeeps(w: World, step: Step)
    requires Inv(w) && Possible(w, step)
    ensures Inv(Next(w, step))
  {
    match step {
      case Write(refusal) => WriteKeeps(w, refusal);
      case Wait => WaitKeeps(w);
      case Restart(rebooted) => RestartKeeps(w, rebooted);
      case Poll(luck) =>
        if AfterPoll(w, luck).windows == w.windows {
          QuietPollKeeps(w, luck);
        } else {
          CountingPollKeeps(w, luck);
        }
    }
  }

  lemma {:induction false} RunKeeps(w: World, steps: seq<Step>)
    requires Inv(w) && Legal(w, steps)
    ensures Inv(Run(w, steps))
  {
    hide Inv, Next, Possible;
    if steps != [] {
      RunKeeps(w, steps[..|steps| - 1]);
      StepKeeps(Run(w, steps[..|steps| - 1]), steps[|steps| - 1]);
    }
  }

  // ------------------------------------------------------------------------- the theorems

  /** No line lies in two windows that each returned a refusal, over any interleaving of
      journal writes, failed reads, footerless answers, failed saves, failed unlinks, refused
      cursors, unreadable cursor files, restarts and reboots. */
  lemma NoLineCountedTwice(now: nat, steps: seq<Step>, a: nat, b: nat, i: nat)
    requires Legal(Start(now), steps)
    requires var w := Run(Start(now), steps);
             a < |w.windows| && b < |w.windows| && i in w.windows[a].shown && i in w.windows[b].shown
    ensures a == b
  {
    RunKeeps(Start(now), steps);
    var w := Run(Start(now), steps);
    assert Ordered(w);
    hide Run, Inv;
  }

  lemma {:induction false} LatestIsLatest(lines: seq<Line>, shown: set<nat>, k: nat, i: nat)
    requires k <= |lines| && i < k && i in shown && lines[i].refusal.Some?
    ensures Latest(lines, shown, k).Some? && i <= Latest(lines, shown, k).value
  {
    if i < k - 1 && !(k - 1 in shown && lines[k - 1].refusal.Some?) {
      LatestIsLatest(lines, shown, k - 1, i);
    }
  }

  /** Nothing is lost while all goes well: a tick that is shown every line from the cursor to
      the end and can save reports the latest refusal among them, and leaves no line unread. */
  lemma GoodTickReportsLatest(w: World, luck: Luck, i: nat)
    requires Possible(w, Poll(luck)) && luck.answer.Shown? && luck.saves
    requires forall k: nat :: InWindow(w.lines, w.now, w.reader, luck, k) ==> k in luck.answer.shown
    requires InWindow(w.lines, w.now, w.reader, luck, i) && w.lines[i].refusal.Some?
    ensures var v := AfterPoll(w, luck);
            && |v.windows| == |w.windows| + 1 && i <= v.windows[|w.windows|].line
            && forall k: nat :: k < |w.lines| && v.reader.mem.Some? && k > v.reader.mem.value ==>
                 !InWindow(w.lines, w.now, w.reader, luck, k)
  {
    LatestIsLatest(w.lines, luck.answer.shown, luck.answer.last + 1, i);
  }

  /** The key to it: while there is a cursor file, everything counted is at or before it. */
  lemma CountedIsBehindFile(now: nat, steps: seq<Step>, a: nat, i: nat)
    requires Legal(Start(now), steps)
    requires var w := Run(Start(now), steps); a < |w.windows| && i in w.windows[a].shown && w.reader.file.Some?
    ensures var w := Run(Start(now), steps); i <= w.reader.file.value
  {
    RunKeeps(Start(now), steps);
    var w := Run(Start(now), steps);
    hide Run;
    assert WasCounted(w, i);
  }

  /** What a stand-down over the journal channel is worth: three different lines, written in
      this order, all stating the class it stands down for. */
  lemma StandDownHasThreeLines(now: nat, steps: seq<Step>) returns (i: nat, j: nat, k: nat)
    requires Legal(Start(now), steps) && Run(Start(now), steps).stoodDown.Some?
    ensures var w := Run(Start(now), steps);
            && i < j < k < |w.lines|
            && w.lines[i].refusal == w.lines[j].refusal == w.lines[k].refusal == w.stoodDown
  {
    RunKeeps(Start(now), steps);
    var w := Run(Start(now), steps);
    hide Run, Behind, Chronological;
    var n := |w.windows|;
    var cls := w.stoodDown.value;
    assert ReportedClass(w, n - 3, cls) && ReportedClass(w, n - 2, cls) && ReportedClass(w, n - 1, cls);
    i, j, k := w.windows[n - 3].line, w.windows[n - 2].line, w.windows[n - 1].line;
  }

  // ------------------------------------------------------------- the second that is left out

  /** How `active_loop` runs: the ticks of one loop are a watchdog period apart and its first one comes
      as soon as it is entered; no process is restarted, and no loop entered again after a stand-down,
      within the second of a count. */
  ghost predicate Paced(w: World, step: Step) {
    match step
    case Write(_) => true
    case Wait => true
    case Poll(luck) =>
      && Plausible(w.lines, w.now, w.reader, luck)
      && (w.tickedAt.Some? ==> w.now - w.tickedAt.value >= WATCHDOG_S)
      && (w.stoodDown.Some? ==> SecondOver(w))
    case Restart(_) => SecondOver(w)
  }

  ghost predicate PacedRun(w: World, steps: seq<Step>) {
    steps == [] || (PacedRun(w, steps[..|steps| - 1]) && Paced(Run(w, steps[..|steps| - 1]), steps[|steps| - 1]))
  }

  /** A count belongs to a tick of this loop, or to one that stood down, or its second is over. */
  predicate CountIsOld(w: World) {
    && (w.tickedAt == None && w.stoodDown == None ==> SecondOver(w))
    && (w.tickedAt.Some? && w.countedAt.Some? ==> w.countedAt.value <= w.tickedAt.value)
  }

  /** The watchdog period discharges the hypothesis on refused cursors. */
  lemma {:induction false} PacedIsLegal(now: nat, steps: seq<Step>)
    requires PacedRun(Start(now), steps)
    ensures Legal(Start(now), steps) && CountIsOld(Run(Start(now), steps))
  {
    hide Plausible, Tick;
    if steps != [] {
      PacedIsLegal(now, steps[..|steps| - 1]);
    }
  }

  /** Exactly what a re-armed window can show again: after a cursor was refused, or the process
      restarted, a counted line lies in a later window if and only if that window has no cursor to
      start from and the line was written in the second of the refusal or restart. */
  lemma ShownAgainIff(w: World, step: Step, later: World, luck: Luck, i: nat)
    requires Inv(w) && WasCounted(w, i)
    requires step.Restart? || (step.Poll? && step.luck.answer.Failed? && CursorOf(w.reader, step.luck).Some?)
    requires later.reader == Next(w, step).reader && w.lines <= later.lines
    ensures InWindow(later.lines, later.now, later.reader, luck, i) <==>
      CursorOf(later.reader, luck) == None && w.lines[i].at == w.now
  {
    assert BehindReader(w.lines, w.reader, i) && later.lines[i] == w.lines[i];
  }

  /** Why a restart within the second of a count is left out: if the new process cannot read the
      cursor file, its first tick reads the line again. */
  lemma QuickRestartCountsTwice(now: nat)
    ensures var good := Luck(true, Shown(0, {0}), true, true);
            var blind := Luck(false, Shown(0, {0}), true, true);
            var w := Next(Start(now), Write(Some(Revoked)));
            var x := Next(AfterPoll(w, good), Restart(false));
            var y := AfterPoll(x, blind);
            && Paced(w, Poll(good)) && Paced(x, Poll(blind))
            && |y.windows| == 2 && 0 in y.windows[0].shown && 0 in y.windows[1].shown
  {
  }
}
