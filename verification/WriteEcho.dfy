/**
 The echo of a write and the polls racing with it (`_wb_done`, `_wb_publish_poll` of
 bridge_device.py). A step is atomic: a write with its echo, or the publishing of one
 polled value whose read began earlier.
 */
module WriteEcho {

  const GRACE := 1.0

  datatype Pending = Pending(value: string, at: real)

  type Guard = map<string, Pending>

  /** A polled value that differs from a guarded write is held back if its read began no later
      than the write or the write is younger than the grace period. */
  predicate Shows(g: Guard, name: string, value: string, tRead: real, now: real) {
    name !in g || value == g[name].value || (g[name].at < tRead && now - g[name].at >= GRACE)
  }

  datatype Step =
    | Write(name: string, value: string, at: real)
    | Poll(name: string, value: string, tRead: real, at: real)

  function Next(g: Guard, s: Step): Guard {
    match s
    case Write(name, value, at) => g[name := Pending(value, at)]
    case Poll(name, value, tRead, at) => if Shows(g, name, value, tRead, at) then g - {name} else g
  }

  class Controls {
    var wbRecent: Guard
    var shown: map<string, string>

    constructor ()
      ensures wbRecent == map[] && shown == map[]
    {
      wbRecent, shown := map[], map[];
    }

    method WbDone(name: string, value: string, now: real)
      modifies this
      ensures wbRecent == Next(old(wbRecent), Write(name, value, now))
      ensures shown == old(shown)[name := value]
    {
      wbRecent := wbRecent[name := Pending(value, now)];
      shown := shown[name := value];
    }

    method WbPublishPoll(name: string, value: string, tRead: real, now: real) returns (published: bool)
      modifies this
      ensures wbRecent == Next(old(wbRecent), Poll(name, value, tRead, now))
      ensures published == Shows(old(wbRecent), name, value, tRead, now)
      ensures shown == if published then old(shown)[name := value] else old(shown)
    {
      if name in wbRecent {
        var wb := wbRecent[name];
        if value != wb.value && (wb.at >= tRead || now - wb.at < GRACE) {
          return false;
        }
        wbRecent := wbRecent - {name};
      }
      shown := shown[name := value];
      published := true;
    }
  }

  // ------------------------------------------------------------------------- whole runs

  function Run(steps: seq<Step>): Guard {
    if steps == [] then map[] else Next(Run(steps[..|steps| - 1]), steps[|steps| - 1])
  }

  /** Step k puts its value on the control. */
  predicate Published(steps: seq<Step>, k: nat)
    requires k < |steps|
  {
    steps[k].Write? || Shows(Run(steps[..k]), steps[k].name, steps[k].value, steps[k].tRead, steps[k].at)
  }

  /** The clock does not go back, and one thread polls: a control's next read begins after its
      previous value was published. */
  ghost predicate OneThread(steps: seq<Step>) {
    && (forall i, j :: 0 <= i < j < |steps| ==> steps[i].at <= steps[j].at)
    && (forall i :: 0 <= i < |steps| && steps[i].Poll? ==> steps[i].tRead <= steps[i].at)
    && forall i, j :: 0 <= i < j < |steps| && steps[i].Poll? && steps[j].Poll? && steps[i].name == steps[j].name
         ==> steps[i].at <= steps[j].tRead
  }

  /** Between i and j some poll of the same control was let through. */
  ghost predicate Opened(steps: seq<Step>, i: nat, j: nat)
    requires i < j <= |steps|
  {
    exists m :: i < m < j && steps[m].Poll? && steps[m].name == steps[i].name && Published(steps, m)
  }

  ghost predicate NotRewritten(steps: seq<Step>, i: nat, j: nat)
    requires i < j <= |steps|
  {
    forall m :: i < m < j && steps[m].name == steps[i].name ==> steps[m].Poll?
  }

  /** A write stays on guard until a poll of its control is let through. */
  lemma {:induction false} GuardAfter(steps: seq<Step>, i: nat, j: nat)
    requires i < j <= |steps| && steps[i].Write? && NotRewritten(steps, i, j)
    ensures var g := Run(steps[..j]); var n := steps[i].name;
      if Opened(steps, i, j) then n !in g else n in g && g[n] == Pending(steps[i].value, steps[i].at)
  {
    assert steps[..j][..j - 1] == steps[..j - 1];
    if j - 1 > i {
      GuardAfter(steps, i, j - 1);
      if Opened(steps, i, j - 1) {
        var m :| i < m < j - 1 && steps[m].Poll? && steps[m].name == steps[i].name && Published(steps, m);
        assert Opened(steps, i, j);
      } else if steps[j - 1].name == steps[i].name && Published(steps, j - 1) {
        assert Opened(steps, i, j);
      } else {
        assert !Opened(steps, i, j);
      }
    } else {
      assert !Opened(steps, i, j);
    }
  }

  /** Exactly when a polled value that differs from the last write is shown: a poll has been let
      through since the write, or this read began after the write and the grace is over. */
  lemma DifferingShownIff(steps: seq<Step>, i: nat, j: nat)
    requires i < j < |steps| && steps[i].Write? && NotRewritten(steps, i, j)
    requires steps[j].Poll? && steps[j].name == steps[i].name && steps[j].value != steps[i].value
    ensures Published(steps, j) <==>
      Opened(steps, i, j) || (steps[i].at < steps[j].tRead && steps[j].at - steps[i].at >= GRACE)
  {
    GuardAfter(steps, i, j);
  }

  /** The first value shown after a write that differs from it: `j` is that step. */
  ghost predicate FirstDiffering(steps: seq<Step>, i: nat, j: nat) {
    && i < j < |steps| && steps[i].Write?
    && steps[j].name == steps[i].name && steps[j].value != steps[i].value && Published(steps, j)
    && forall m :: i < m < j && steps[m].name == steps[i].name && Published(steps, m) ==>
         steps[m].value == steps[i].value
  }

  /** Between i and j a poll published the written value itself. */
  ghost predicate Confirmed(steps: seq<Step>, i: nat, j: nat)
    requires i < j <= |steps|
  {
    exists m :: i < m < j && steps[m].Poll? && steps[m].name == steps[i].name && steps[m].value == steps[i].value
      && Published(steps, m)
  }

  /** A write's echo is not overtaken by older data: the first differing value is a later write,
      or comes from a read begun no earlier than the write, and then it is at least the grace
      period later unless a poll has shown the written value in between. */
  lemma {:induction false} EchoIsNotOvertaken(steps: seq<Step>, i: nat, j: nat)
    requires OneThread(steps) && FirstDiffering(steps, i, j)
    ensures steps[j].Write? || steps[i].at <= steps[j].tRead
    ensures steps[j].Write? || steps[j].at - steps[i].at >= GRACE || Confirmed(steps, i, j)
    decreases j - i
  {
    if steps[j].Poll? {
      if m :| i < m < j && steps[m].name == steps[i].name && steps[m].Write? {
        assert Published(steps, m);
        EchoIsNotOvertaken(steps, m, j);
        if Confirmed(steps, m, j) {
          var k :| m < k < j && steps[k].Poll? && steps[k].name == steps[m].name && steps[k].value == steps[m].value
            && Published(steps, k);
          assert Confirmed(steps, i, j);
        }
      } else {
        DifferingShownIff(steps, i, j);
        if Opened(steps, i, j) {
          var k :| i < k < j && steps[k].Poll? && steps[k].name == steps[i].name && Published(steps, k);
          assert Confirmed(steps, i, j);
        }
      }
    }
  }

  /** Exactly when a first differing poll can come within the grace period: a poll has shown the
      written value since the last write of the control. */
  lemma EarlyIff(steps: seq<Step>, i: nat, j: nat)
    requires i < j < |steps| && steps[i].Write? && NotRewritten(steps, i, j)
    requires steps[j].Poll? && steps[j].name == steps[i].name && steps[j].value != steps[i].value
    requires forall m :: i < m < j && steps[m].name == steps[i].name && Published(steps, m) ==>
      steps[m].value == steps[i].value
    requires steps[j].at - steps[i].at < GRACE
    ensures FirstDiffering(steps, i, j) <==> Confirmed(steps, i, j)
  {
    DifferingShownIff(steps, i, j);
    if Confirmed(steps, i, j) {
      var k :| i < k < j && steps[k].Poll? && steps[k].name == steps[i].name && steps[k].value == steps[i].value
        && Published(steps, k);
      assert Opened(steps, i, j);
    }
    if Opened(steps, i, j) {
      var k :| i < k < j && steps[k].Poll? && steps[k].name == steps[i].name && Published(steps, k);
      assert Confirmed(steps, i, j);
    }
  }

  function Confirming(): seq<Step> {
    [Write("K1", "1", 10.0), Poll("K1", "1", 10.1, 10.2), Poll("K1", "0", 10.3, 10.4)]
  }

  /** The grace period alone is not kept: a confirming poll ends it early. */
  lemma GraceCanEndEarly()
    ensures OneThread(Confirming()) && FirstDiffering(Confirming(), 0, 2)
    ensures Confirming()[2].at - Confirming()[0].at < GRACE
  {
    var s := Confirming();
    assert s[..0] == [];
    GuardAfter(s, 0, 1);
    assert Published(s, 1);
    GuardAfter(s, 0, 2);
  }

  function Overlapping(): seq<Step> {
    [Write("K1", "1", 10.0), Poll("K1", "1", 9.0, 10.2), Poll("K1", "0", 9.0, 10.4)]
  }

  /** With two overlapping poll threads older data does overtake the echo. */
  lemma OneThreadIsNeeded()
    ensures FirstDiffering(Overlapping(), 0, 2)
    ensures Overlapping()[2].Poll? && Overlapping()[2].tRead < Overlapping()[0].at
  {
    var s := Overlapping();
    GuardAfter(s, 0, 1);
    assert Published(s, 1);
    GuardAfter(s, 0, 2);
  }
}
