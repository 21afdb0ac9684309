/**
 The installer's guard (`Guard` of scripts/install-maintenance.py): capture the services, journal
 them, gate and stop them, restore them; and recovery from a crash at any step of it.
 */
module InstallGuard {
  import opened Base
  import opened InstallBoard

  class Guard {
    const units: seq<string>
    const board: Board
    var saved: Saved
    var paths: seq<string>
    var token: string
    var installedInfra: bool

    constructor (units: seq<string>, board: Board, token: string)
      requires Distinct(units) && TokenOk(token)
      ensures this.units == units && this.board == board && this.token == token
      ensures saved == map[] && paths == [] && !installedInfra
    {
      this.units, this.board, this.token := units, board, token;
      saved, paths, installedInfra := map[], [], false;
    }

    /** Nothing was saved, or every unit was; this guard's drop-ins are where `paths` says. */
    ghost predicate Valid()
      reads this, board
    {
      && Distinct(units) && Distinct(paths) && TokenOk(token)
      && (saved == map[] || saved.Keys == set u | u in units)
      && (forall u :: u in paths ==> u in units && DropIn(u, token) in board.dropIns)
      && forall d :: d in board.dropIns && d.token == token && d.unit in units ==> d.unit in paths
    }

    /** Working services, and no condition on these units. */
    ghost predicate Free(order: seq<string>)
      reads board
    {
      board.services && forall u :: u in order ==> !Gated(board.loaded, u)
    }

    /** One command, with what it leaves of a unit that is to stay as it was saved. */
    method Issue(verb: Verb, unit: string, ghost from: Trail, ghost want: UnitState) returns (ok: bool)
      requires Touches(from, board.Trail(), unit)
      modifies board`units, board`past
      ensures Touches(from, board.Trail(), unit)
      ensures StaysAs(board.past, |from.past|, unit, want) <==>
        StaysAs(old(board.past), |from.past|, unit, want) && Restored(want, Lookup(board.units, unit))
      ensures board.services ==> ok == Allowed(verb, Lookup(old(board.units), unit))
      ensures board.services && ok ==>
        && unit in board.units && unit in old(board.units)
        && Achieves(verb, old(board.units)[unit], board.units[unit], Gated(board.loaded, unit))
    {
      hide Achieves, Restored, Gated;
      ghost var mid := board.Trail();
      ok := board.Command(verb, unit);
      TouchesStep(mid, board.Trail(), unit);
      TouchesOn(from, mid, board.Trail(), unit);
      StaysOn(from, mid, board.Trail(), unit, want);
      assert board.past[|mid.past|] == board.Now();
    }

    method SetAutostart(unit: string, en: FileState, ghost from: Trail) returns (ok: bool)
      requires OperatorSet(en) && Touches(from, board.Trail(), unit)
      modifies board`units, board`past
      ensures Touches(from, board.Trail(), unit)
      ensures board.services && unit in old(board.units) ==>
        ok && unit in board.units && board.units[unit] == old(board.units)[unit].(file := en)
    {
      hide Touches, StaysAs, Restored;
      ghost var any := UnitState(true, en);
      ok := Issue(Unmask, unit, from, any);
      if !ok {
        return;
      }
      var verb := match en case Masked => Mask case MaskedRuntime => MaskRuntime
        case Enabled => Enable case EnabledRuntime => EnableRuntime case _ => Disable;
      ok := Issue(verb, unit, from, any);
    }

    /** Starts a unit; a masked one is unmasked for that and masked again whatever happens. */
    method Bring(unit: string, en: FileState, ghost from: Trail, ghost want: UnitState) returns (ok: bool)
      requires Touches(from, board.Trail(), unit)
      modifies board`units, board`past
      ensures Touches(from, board.Trail(), unit)
      ensures board.services && !Gated(board.loaded, unit) && Filed(old(board.units), unit, en) ==>
        ok && Lookup(board.units, unit) == Some(UnitState(true, en))
      ensures board.services && !Gated(board.loaded, unit) && Lookup(old(board.units), unit) == Some(want) ==>
        want == UnitState(true, en) && StaysAs(old(board.past), |from.past|, unit, want) ==>
        (StaysAs(board.past, |from.past|, unit, want) <==> !IsMasked(en))
    {
      hide Touches, StaysAs, Gated;
      var runtime := en == MaskedRuntime;
      if IsMasked(en) {
        ok := Issue(if runtime then UnmaskRuntime else Unmask, unit, from, want);
        if !ok {
          return;
        }
      }
      ok := Issue(Start, unit, from, want);
      if IsMasked(en) {
        var masked := Issue(if runtime then MaskRuntime else Mask, unit, from, want);
        ok := ok && masked;
      }
    }

    /** One saved unit, checked after the commands. A unit that is as it was saved stays so at every
        step, unless it runs and is masked. */
    method RestoreUnit(unit: string, want: UnitState) returns (ok: bool)
      modifies board`units, board`past
      ensures Touches(old(board.Trail()), board.Trail(), unit)
      ensures ok ==> Restored(want, Lookup(board.units, unit))
      ensures board.services && !Gated(board.loaded, unit) ==> ok == (unit in old(board.units))
      ensures board.services && !Gated(board.loaded, unit) && Lookup(old(board.units), unit) == Some(want) ==>
        && unit in board.units && board.units[unit] == want
        && (StaysAs(board.past, |old(board.past)|, unit, want) <==> !MaskedRunning(Some(want)))
    {
      hide Touches, StaysAs, Gated;
      ghost var from := board.Trail();
      TouchesNothing(from, unit);
      StaysYet(from, unit, want);
      var shown, current := board.Show(unit);
      if !shown || current == None {
        return false;
      }
      var en := want.file;
      if current.value.file != en {
        if OperatorSet(en) {
          ok := SetAutostart(unit, en, from);
          if !ok {
            return;
          }
        } else {
          en := current.value.file;
        }
      }
      if want.active {
        ok := Bring(unit, en, from, want);
      } else {
        ok := Issue(Stop, unit, from, want);
      }
      if !ok {
        return;
      }
      var actual;
      shown, actual := board.Show(unit);
      ok := shown && actual.Some? && actual.value.file == en && actual.value.active == want.active;
    }

    /** A web unit after the new web stack was installed. */
    method RestoreInfra(unit: string, was: Option<UnitState>) returns (ok: bool)
      modifies board`units, board`past
      ensures Touches(old(board.Trail()), board.Trail(), unit)
      ensures ok ==> InfraRestored(unit, was, Lookup(board.units, unit))
      ensures board.services && !Gated(board.loaded, unit) ==> ok
    {
      hide Touches, StaysAs, Gated, Restored;
      ghost var from := board.Trail();
      TouchesNothing(from, unit);
      var shown, current := board.Show(unit);
      if !shown || current == None {
        return shown;
      }
      var en := current.value.file;
      var active := InfraActive(unit, was, en);
      ok := Issue(if active then Start else Stop, unit, from, current.value);
      if !ok {
        return;
      }
      var actual;
      shown, actual := board.Show(unit);
      ok := shown && actual.Some? && actual.value.active == active && actual.value.file == en;
    }

    /** One unit; an exception outside the `try` ends the whole restoration. */
    method RestoreOne(unit: string) returns (ok: bool, raised: bool)
      requires unit in saved
      modifies board`units, board`past
      ensures Touches(old(board.Trail()), board.Trail(), unit)
      ensures raised ==> !ok
      ensures OneDone(unit, saved[unit], installedInfra, old(board.Trail()), board.Trail(), ok,
                      board.services && !Gated(board.loaded, unit))
    {
      hide Touches, StaysAs, Gated, Restored, InfraRestored;
      ghost var from := board.Trail();
      TouchesNothing(from, unit);
      raised := false;
      if installedInfra && unit in WEB {
        ok := RestoreInfra(unit, saved[unit]);
      } else if saved[unit] == None {
        ok := true;
        if unit == NGINX || unit == FCGIWRAP {
          var state;
          ok, state := board.Show(unit);
          if ok && state.Some? {
            ok := Issue(Start, unit, from, state.value);
          }
          raised := !ok;
        }
      } else {
        ok := RestoreUnit(unit, saved[unit].value);
      }
    }

    /** Unit after unit. Units that are as they were saved stay so at every step, exactly if none of
        them runs masked. */
    method RestoreAll(order: seq<string>) returns (ok: bool)
      requires Distinct(order) && forall u :: u in order ==> u in saved
      modifies board`units, board`past
      ensures Progress(order, |order|, saved, installedInfra, old(board.Trail()), board.Trail(), ok, Free(order))
    {
      hide Progress, Done, Recoverable, Gated, MaskedRunning, StaysAs, Touches, AsSaved;
      ghost var from := board.Trail();
      ok := true;
      var i := 0;
      NoProgress(order, saved, installedInfra, from, Free(order));
      while i < |order|
        invariant i <= |order|
        invariant Progress(order, i, saved, installedInfra, from, board.Trail(), ok, Free(order))
      {
        ghost var mid := board.Trail();
        var one, raised := RestoreOne(order[i]);
        ghost var free := board.services && !Gated(board.loaded, order[i]);
        OneMore(order, i, saved, installedInfra, from, mid, board.Trail(), ok, one, free, Free(order));
        ok := ok && one;
        i := i + 1;
        if raised {
          GivenUp(order, i, saved, installedInfra, from, board.Trail(), Free(order));
          return;
        }
      }
    }

    /** Unlinks every drop-in of this guard that it knows of, whatever fails. */
    method RemoveDropIns() returns (ok: bool)
      requires Valid()
      modifies board`dropIns, board`past
      ensures board.dropIns <= old(board.dropIns)
      ensures Extends(board.past, old(board.past))
      ensures Keeps(board.past, |old(board.past)|, old(board.dropIns), board.journal)
      ensures forall k :: |old(board.past)| <= k < |board.past| ==> board.past[k].units == board.units
      ensures ok ==> NoneLeft(board.dropIns, units, token)
      ensures board.services ==> ok
    {
      ok := true;
      var i := 0;
      while i < |paths|
        invariant i <= |paths|
        invariant board.dropIns <= old(board.dropIns)
        invariant Extends(board.past, old(board.past))
        invariant Keeps(board.past, |old(board.past)|, old(board.dropIns), board.journal)
        invariant forall k :: |old(board.past)| <= k < |board.past| ==> board.past[k].units == board.units
        invariant forall j :: i <= j < |paths| ==> DropIn(paths[j], token) in board.dropIns
        invariant ok ==> forall j :: 0 <= j < i ==> DropIn(paths[j], token) !in board.dropIns
        invariant board.services ==> ok
      {
        var gone := board.Unlink(DropIn(paths[i], token));
        ok := ok && gone;
        i := i + 1;
      }
    }

    /** Takes the conditions away; nothing that is left holds a unit back if only this guard's did. */
    method Ungate() returns (ok: bool)
      requires Valid()
      modifies board`dropIns, board`loaded, board`past
      ensures board.dropIns <= old(board.dropIns)
      ensures Extends(board.past, old(board.past))
      ensures Keeps(board.past, |old(board.past)|, old(board.dropIns), board.journal)
      ensures forall k :: |old(board.past)| <= k < |board.past| ==> board.past[k].units == board.units
      ensures ok ==> NoneLeft(board.dropIns, units, token)
      ensures board.services ==> ok
      ensures board.services && OnlyOwn(old(board.dropIns), units, token) ==> Free(units)
    {
      ok := RemoveDropIns();
      var reloaded := board.Reload();
      ok := ok && reloaded;
    }

    /** Restores everything, and only then removes the journal. At every step of the way the
        journal is untouched or nothing is left to do. A working board is brought back exactly
        when no saved unit has disappeared and no web unit that is to be started is masked. */
    method Close() returns (ok: bool)
      requires Valid()
      modifies board
      ensures Extends(board.past, old(board.past))
      ensures forall k :: |old(board.past)| <= k < |board.past| ==> board.past[k].dropIns <= old(board.dropIns)
      ensures forall k :: |old(board.past)| <= k < |board.past| ==>
        || board.past[k].journal == old(board.journal)
        || (board.past[k].journal == None && Settled(board.past[k], units, Record(saved, token, installedInfra)))
      ensures ok ==> board.journal == None
      ensures board.dropIns <= old(board.dropIns) && (board.journal == None || board.journal == old(board.journal))
      ensures ok || board.journal != old(board.journal) ==>
        Settled(board.Now(), units, Record(saved, token, installedInfra))
      ensures board.services && board.storage.Works? && OnlyOwn(old(board.dropIns), units, token) ==>
        ok == AllRecoverable(saved, installedInfra, old(board.units))
      ensures board.services && !installedInfra ==>
        OnlyOwn(old(board.dropIns), units, token) && AsSaved(saved, old(board.units)) ==>
        (Undisturbed(board.past, |old(board.past)|, saved) <==> forall u :: u in saved ==> !MaskedRunning(saved[u]))
    {
      hide Progress, AllRestored, AllDone, AllRecoverable, MaskedRunning, TokenOk, Undisturbed, AsSaved;
      ghost var from := board.Trail();
      var ungated := Ungate();
      var order := if saved == map[] then [] else Order(units);
      ghost var mid := board.Trail();
      ghost var free := Free(order);
      assert Free(units) ==> free;
      hide Distinct, OnlyOwn, ByInfra, InfraRestored;
      var restored := RestoreAll(order);
      ghost var last := board.Trail();
      AllWorkedOn(order, saved, installedInfra, mid, last, restored, free);
      KeepsOn(from.past, mid.past, last.past, from.now.dropIns, last.now.dropIns, last.now.journal);
      CalmOn(from.past, mid.past, last.past, from.now.units, saved);
      ok := ungated && restored;
      if ok {
        ok := board.UnlinkJournal();
        CalmOn(from.past, last.past, board.past, last.now.units, saved);
        assert board.past == last.past + [board.Now()];
      }
    }

    /** Saves the journal. */
    method Save() returns (ok: bool)
      modifies board`journal, board`past
      ensures board.journal == Some(Record(saved, token, installedInfra)) || (!ok && board.journal ==
        old(board.journal))
      ensures board.past == old(board.past) + [board.Now()]
      ensures board.storage.Works? ==> ok
      ensures board.storage.Broken? ==> !ok && board.journal == old(board.journal)
    {
      ok := board.Replace(Record(saved, token, installedInfra));
    }

    method UseInstalledInfra() returns (ok: bool)
      modifies this`installedInfra, board`journal, board`past
      ensures installedInfra
      ensures board.journal == Some(Record(saved, token, true)) || (!ok && board.journal == old(board.journal))
      ensures board.past == old(board.past) + [board.Now()]
    {
      installedInfra := true;
      ok := Save();
    }

    /** Captures every unit; nothing is kept when one cannot be read. */
    method Capture() returns (ok: bool)
      requires Distinct(units) && saved == map[]
      modifies this`saved
      ensures ok ==> saved.Keys == set u | u in units
      ensures ok ==> forall u :: u in saved ==> saved[u] == Lookup(board.units, u)
      ensures !ok ==> saved == map[]
      ensures board.services ==> ok
    {
      var found: Saved := map[];
      var i := 0;
      while i < |units|
        invariant i <= |units| && saved == map[]
        invariant found.Keys == set u | u in units[..i]
        invariant forall u :: u in found ==> found[u] == Lookup(board.units, u)
      {
        var shown, state := board.Show(units[i]);
        if !shown {
          return false;
        }
        found := found[units[i] := state];
        i := i + 1;
      }
      assert units[..i] == units;
      saved := found;
      ok := true;
    }

    /** Gates one unit. */
    method Gate(unit: string) returns (ok: bool)
      requires Valid() && unit in units && unit !in paths && OnlyOwn(board.dropIns, units, token)
      modifies this`paths, board`dropIns, board`past
      ensures Valid() && OnlyOwn(board.dropIns, units, token)
      ensures paths == if ok then old(paths) + [unit] else old(paths)
      ensures board.dropIns == if ok then old(board.dropIns) + {DropIn(unit, token)} else old(board.dropIns)
      ensures board.past == old(board.past) + [board.Now()]
    {
      ok := board.Create(DropIn(unit, token));
      if ok {
        paths := paths + [unit];
      }
    }

    method CreateDropIns() returns (ok: bool)
      requires Valid() && saved.Keys == (set u | u in units) && paths == [] && OnlyOwn(board.dropIns, units, token)
      modifies this`paths, board`dropIns, board`past
      ensures Valid() && OnlyOwn(board.dropIns, units, token)
      ensures Extends(board.past, old(board.past))
      ensures forall k :: |old(board.past)| <= k < |board.past| ==>
        && board.past[k].units == board.units && board.past[k].journal == board.journal
        && OnlyOwn(board.past[k].dropIns, units, token)
      ensures ok ==> forall u :: u in units && ToGate(u, saved[u]) ==> DropIn(u, token) in board.dropIns
    {
      ok := true;
      var i := 0;
      while i < |units|
        invariant Valid() && OnlyOwn(board.dropIns, units, token)
        invariant GatedSoFar(units, i, saved, paths, board.dropIns, token)
        invariant Extends(board.past, old(board.past))
        invariant forall k :: |old(board.past)| <= k < |board.past| ==>
          && board.past[k].units == board.units && board.past[k].journal == board.journal
          && OnlyOwn(board.past[k].dropIns, units, token)
      {
        var unit := units[i];
        GateNext(units, i, saved, paths, board.dropIns, token);
        hide Valid, OnlyOwn, GatedSoFar, ToGate;
        if ToGate(unit, saved[unit]) {
          ok := Gate(unit);
          if !ok {
            return;
          }
        }
        i := i + 1;
      }
      assert forall u :: u in units ==> exists j :: 0 <= j < |units| && units[j] == u;
    }

    /** Capture, journal, and only then the drop-ins. No service is touched. */
    method Enter() returns (ok: bool)
      requires Valid() && units != [] && saved == map[] && paths == [] && !installedInfra
      requires OnlyOwn(board.dropIns, units, token)
      modifies this`saved, this`paths, board
      ensures Valid() && OnlyOwn(board.dropIns, units, token)
      ensures Extends(board.past, old(board.past)) && board.units == old(board.units)
      ensures saved == map[] || (saved.Keys == (set u | u in units) && AsSaved(saved, board.units))
      ensures saved == map[] ==> !ok && board.Trail() == old(board.Trail())
      ensures forall k :: |old(board.past)| <= k < |board.past| ==>
        board.past[k].units == board.units && OnlyOwn(board.past[k].dropIns, units, token)
      ensures board.journal == Some(Record(saved, token, false)) ==>
        forall k :: |old(board.past)| <= k < |board.past| ==> board.past[k].journal == board.journal
      ensures board.journal != Some(Record(saved, token, false)) ==>
        && !ok && board.Now() == old(board.Now())
        && forall k :: |old(board.past)| <= k < |board.past| ==> board.past[k] == board.Now()
      ensures board.services ==> saved != map[]
      ensures board.services && board.storage.Works? ==> board.journal == Some(Record(saved, token, false))
      ensures board.storage.Broken? ==> board.journal == old(board.journal)
      ensures ok ==> forall u :: u in units && ToGate(u, saved[u]) ==> Gated(board.loaded, u)
    {
      hide TokenOk, Distinct, Gated, OnlyOwn, ToGate;
      ok := Capture();
      if !ok {
        return;
      }
      assert units[0] in saved;
      ok := Save();
      if !ok {
        return;
      }
      ok := CreateDropIns();
      if ok {
        ok := board.Reload();
        GatedBy(board.loaded, token);
      }
    }

    /** Stops the saved ones among `names`, each checked. */
    method StopUnits(names: seq<string>) returns (ok: bool)
      modifies board`units, board`past
      ensures Extends(board.past, old(board.past))
      ensures Keeps(board.past, |old(board.past)|, board.dropIns, board.journal)
      ensures board.units.Keys == old(board.units).Keys
      ensures forall u :: u in board.units && (u !in names || u !in saved || saved[u] == None) ==>
        board.units[u] == old(board.units)[u]
      ensures ok ==> forall u :: u in names && u in saved && saved[u].Some? ==>
        u in board.units && !board.units[u].active
    {
      ok := true;
      var i := 0;
      while i < |names|
        invariant i <= |names|
        invariant Extends(board.past, old(board.past))
        invariant Keeps(board.past, |old(board.past)|, board.dropIns, board.journal)
        invariant board.units.Keys == old(board.units).Keys
        invariant forall u :: u in board.units && (u !in names || u !in saved || saved[u] == None) ==>
          board.units[u] == old(board.units)[u]
        invariant ok && forall u :: u in names[..i] && u in saved && saved[u].Some? ==>
          u in board.units && !board.units[u].active
      {
        if names[i] in saved && saved[names[i]].Some? {
          ok := board.Command(Stop, names[i]);
          if !ok {
            return;
          }
          var shown, state := board.Show(names[i]);
          if !shown || state == None || state.value.active {
            return false;
          }
        }
        i := i + 1;
      }
    }

    method FindPaths() returns (found: seq<string>)
      requires Distinct(units)
      ensures Distinct(found) && forall u :: u in found <==> u in units && DropIn(u, token) in board.dropIns
    {
      found := [];
      var i := 0;
      while i < |units|
        invariant i <= |units| && Distinct(found)
        invariant forall u :: u in found <==> u in units[..i] && DropIn(u, token) in board.dropIns
      {
        assert units[i] !in found;
        if DropIn(units[i], token) in board.dropIns {
          found := found + [units[i]];
        }
        i := i + 1;
      }
      assert units[..i] == units;
    }

    /** Picks up a journal that an earlier process left, whatever the board has become since. */
    method Recover() returns (ok: bool)
      requires Distinct(units)
      modifies this, board
      ensures Extends(board.past, old(board.past))
      ensures old(board.journal) == None ==> !ok && board.past == old(board.past)
      ensures old(board.journal).Some? ==> forall k :: |old(board.past)| <= k < |board.past| ==>
        && board.past[k].dropIns <= old(board.dropIns)
        && (|| board.past[k].journal == old(board.journal)
            || (board.past[k].journal == None && Settled(board.past[k], units, old(board.journal).value)))
      ensures old(board.journal).Some? && (ok || board.journal != old(board.journal)) ==>
        Settled(board.Now(), units, old(board.journal).value)
      ensures ok ==> board.journal == None
      ensures board.dropIns <= old(board.dropIns) && (board.journal == None || board.journal == old(board.journal))
      ensures board.services && board.storage.Works? && old(board.journal).Some? ==>
        var r := old(board.journal).value;
        OnlyOwn(old(board.dropIns), units, r.token) ==>
          ok == (Acceptable(r, units) && AllRecoverable(r.saved, r.infra, old(board.units)))
    {
      if board.journal == None {
        return false;
      }
      var data := board.journal.value;
      if !TokenOk(data.token) || data.saved.Keys != set u | u in units {
        return false;
      }
      saved, token, installedInfra := data.saved, data.token, data.infra;
      paths := FindPaths();
      ok := Close();
    }
  }

  // --------------------------------------------------------------------- whole sessions

  /** What is promised of a crash at one step; `recorded`: the journal was saved in this run. A
      journal that is there is one that recovery accepts; where there is none, nothing is gated and,
      in a recorded run, every consumer is as it was saved. */
  ghost predicate StepSafe(d: Disk, units: seq<string>, r: Record, recorded: bool) {
    && OnlyOwn(d.dropIns, units, r.token)
    && (if d.journal.Some? then recorded && Recorded(d, units, r) else NoneLeft(d.dropIns, units, r.token))
    && (recorded ==> CrashSafe(d, units, r))
  }

  ghost predicate StepsSafe(past: seq<Disk>, from: nat, units: seq<string>, r: Record, recorded: bool) {
    forall k :: from <= k < |past| ==> StepSafe(past[k], units, r, recorded)
  }

  lemma StepsJoin(a: seq<Disk>, b: seq<Disk>, c: seq<Disk>, units: seq<string>, r: Record, recorded: bool)
    requires Extends(b, a) && Extends(c, b)
    requires StepsSafe(b, |a|, units, r, recorded) && StepsSafe(c, |b|, units, r, recorded)
    ensures Extends(c, a) && StepsSafe(c, |a|, units, r, recorded)
  {
    hide StepSafe;
    forall k | |a| <= k < |c| ensures StepSafe(c[k], units, r, recorded) {
      if k < |b| {
        assert c[..|b|][k] == b[k];
      }
    }
    assert c[..|b|][..|a|] == c[..|a|];
  }

  ghost predicate AllCrashSafe(past: seq<Disk>, from: nat, units: seq<string>, r: Record) {
    forall k :: from <= k < |past| ==> CrashSafe(past[k], units, r)
  }

  /** No service has been touched and nothing is gated before the journal is there. */
  lemma EntrySafe(a: seq<Disk>, b: Trail, units: seq<string>, r: Record, recorded: bool)
    requires Extends(b.past, a) && AsSaved(r.saved, b.now.units)
    requires recorded ==> TokenOk(r.token) && r.saved.Keys == set u | u in units
    requires forall k :: |a| <= k < |b.past| ==>
      && b.past[k].units == b.now.units && OnlyOwn(b.past[k].dropIns, units, r.token)
      && ((recorded && b.past[k].journal == Some(Record(r.saved, r.token, false)))
          || (NoneLeft(b.past[k].dropIns, units, r.token) && b.past[k].journal == None))
    ensures StepsSafe(b.past, |a|, units, r, recorded)
  {
  }

  lemma RecordedSafe(a: seq<Disk>, b: seq<Disk>, units: seq<string>, r: Record, recorded: bool)
    requires forall k :: |a| <= k < |b| ==> recorded && Recorded(b[k], units, r)
    ensures StepsSafe(b, |a|, units, r, recorded)
  {
  }

  lemma CloseSafe(a: Trail, b: seq<Disk>, units: seq<string>, r: Record, recorded: bool)
    requires OnlyOwn(a.now.dropIns, units, r.token)
    requires if recorded then Recorded(a.now, units, r)
      else NoneLeft(a.now.dropIns, units, r.token) && a.now.journal == None
    requires forall k :: |a.past| <= k < |b| ==>
      b[k].dropIns <= a.now.dropIns && (b[k].journal == a.now.journal || (b[k].journal ==
        None && Settled(b[k], units, r)))
    ensures StepsSafe(b, |a.past|, units, r, recorded)
  {
  }

  lemma SafeIfRecorded(past: seq<Disk>, from: nat, units: seq<string>, r: Record)
    requires StepsSafe(past, from, units, r, true)
    ensures AllCrashSafe(past, from, units, r)
  {
  }

  /** Without a journal a step is safe exactly if every saved unit is as it was saved at it. */
  lemma UnrecordedSafeIff(a: seq<Disk>, b: Trail, c: seq<Disk>, units: seq<string>, r: Record)
    requires Extends(b.past, a) && Extends(c, b.past) && AsSaved(r.saved, b.now.units) && !r.infra
    requires b.now.journal == None && NoneLeft(b.now.dropIns, units, r.token)
    requires forall k :: |a| <= k < |b.past| ==>
      b.past[k].units == b.now.units && NoneLeft(b.past[k].dropIns, units, r.token)
    requires forall k :: |b.past| <= k < |c| ==>
      c[k].dropIns <= b.now.dropIns && (c[k].journal == None || Settled(c[k], units, r))
    ensures AllCrashSafe(c, |a|, units, r) <==> Undisturbed(c, |b.past|, r.saved)
  {
    forall k | |b.past| <= k < |c| ensures CrashSafe(c[k], units, r) <==> AllRestored(r.saved, false, c[k].units) {
      if Settled(c[k], units, r) {
        forall u | u in r.saved && r.saved[u].Some? && !ByInfra(false, u)
          ensures Restored(r.saved[u].value, Lookup(c[k].units, u))
        {
          assert Done(u, r.saved[u], false, Lookup(c[k].units, u));
        }
      }
    }
    forall k | |a| <= k < |b.past| ensures CrashSafe(c[k], units, r) {
      assert c[..|b.past|][k] == b.past[k];
    }
  }

  /** Between entering and closing: the stops, the change to the new web stack, the installer. */
  method Middle(guard: Guard, names: seq<string>, infra: bool)
    requires guard.Valid() && !guard.installedInfra && OnlyOwn(guard.board.dropIns, guard.units, guard.token)
    requires guard.saved != map[] && guard.board.journal == Some(Record(guard.saved, guard.token, false))
    modifies guard`installedInfra, guard.board`units, guard.board`journal, guard.board`past
    ensures guard.Valid() && Extends(guard.board.past, old(guard.board.past))
    ensures Recorded(guard.board.Now(), guard.units, Record(guard.saved, guard.token, guard.installedInfra))
    ensures forall k :: |old(guard.board.past)| <= k < |guard.board.past| ==>
      Recorded(guard.board.past[k], guard.units, Record(guard.saved, guard.token, guard.installedInfra))
  {
    var stopped := guard.StopUnits(names);
    if stopped {
      var go := true;
      if infra {
        go := guard.UseInstalledInfra();
      }
      if go {
        guard.board.Install();
      }
    }
  }

  /** A whole run of the installer under one guard: cleanup is registered before the first step, so
      `Close` follows whatever fails. A drop-in never exists without the journal. What is recorded
      are the states from before the first stop. Once the journal was saved, a crash at any step
      is safe: what is outstanding is on record, and the record is one that recovery accepts. If it
      could not be saved, working services are safe from a crash at every step exactly when no
      unit was running masked. */
  method Session(guard: Guard, names: seq<string>, infra: bool) returns (recorded: bool, closed: bool)
    requires guard.Valid() && guard.units != [] && guard.saved == map[] && guard.paths == [] && !guard.installedInfra
    requires forall d :: d in guard.board.dropIns ==> d.unit !in guard.units
    requires guard.board.journal == None
    modifies guard, guard.board
    ensures Extends(guard.board.past, old(guard.board.past)) && guard.token == old(guard.token)
    ensures AsSaved(guard.saved, old(guard.board.units))
    ensures recorded || guard.board.services ==> guard.saved.Keys == set u | u in guard.units
    ensures StepsSafe(guard.board.past, |old(guard.board.past)|, guard.units,
                      Record(guard.saved, guard.token, guard.installedInfra), recorded)
    ensures guard.board.storage.Broken? ==> !recorded
    ensures guard.board.services && guard.board.storage.Works? ==> recorded
    ensures guard.board.services ==>
      (AllCrashSafe(guard.board.past, |old(guard.board.past)|, guard.units,
                    Record(guard.saved, guard.token, guard.installedInfra))
       <==> recorded || NoneMaskedRunning(guard.units, old(guard.board.units)))
    ensures closed ==> guard.board.journal == None
    ensures closed ==> Settled(guard.board.Now(), guard.units, Record(guard.saved, guard.token, guard.installedInfra))
  {
    hide AllCrashSafe, CrashSafe, Undisturbed, AllRestored;
    var board := guard.board;
    var entered := guard.Enter();
    recorded := guard.saved != map[] && board.journal == Some(Record(guard.saved, guard.token, false));
    ghost var entry := board.Trail();
    assert guard.saved != map[] ==> guard.units[0] in guard.units;
    if entered {
      Middle(guard, names, infra);
    }
    ghost var r := Record(guard.saved, guard.token, guard.installedInfra);
    ghost var last := board.Trail();
    EntrySafe(old(board.past), entry, guard.units, r, recorded);
    assert StepsSafe(last.past, |entry.past|, guard.units, r, recorded) by {
      RecordedSafe(entry.past, last.past, guard.units, r, recorded);
    }
    closed := guard.Close();
    CloseSafe(last, board.past, guard.units, r, recorded);
    StepsJoin(entry.past, last.past, board.past, guard.units, r, recorded);
    StepsJoin(old(board.past), entry.past, board.past, guard.units, r, recorded);
    if recorded {
      SafeIfRecorded(board.past, |old(board.past)|, guard.units, r);
    } else if board.services {
      assert guard.units[0] in guard.saved;
      UnrecordedSafeIff(old(board.past), entry, board.past, guard.units, r);
    }
  }

  /** A run in which the journal cannot be saved, on working services, with one unit that runs masked:
      at some step a crash leaves that unit unmasked, with no journal. */
  method FailedSaveIsNotCovered(token: string) returns (guard: Guard, ghost k: nat)
    requires TokenOk(token)
    ensures k < |guard.board.past| && guard.board.past[k].journal == None
    ensures !Restored(UnitState(true, Masked), Lookup(guard.board.past[k].units, "mplc.service"))
  {
    var unit := "mplc.service";
    var board := new Board(Disk(map[unit := UnitState(true, Masked)], {}, None), true, Broken);
    guard := new Guard([unit], board, token);
    var recorded, closed := Session(guard, [unit], false);
    ghost var r := Record(guard.saved, token, guard.installedInfra);
    assert MaskedRunning(Lookup(map[unit := UnitState(true, Masked)], unit)) && unit in guard.units;
    k :| 0 <= k < |board.past| && !CrashSafe(board.past[k], [unit], r);
  }

  /** Every unit is back as it was before, unless the new web stack owns it. */
  ghost predicate AllBack(names: seq<string>, was: map<string, UnitState>, infra: bool, units: map<string, UnitState>) {
    forall u :: u in names && u in was && !ByInfra(infra, u) ==> Restored(was[u], Lookup(units, u))
  }

  lemma BackAsBefore(names: seq<string>, saved: Saved, was: map<string, UnitState>)
    requires AsSaved(saved, was) && saved.Keys == set u | u in names
    ensures forall infra, units :: AllRestored(saved, infra, units) ==> AllBack(names, was, infra, units)
    ensures forall infra, units :: AllDone(saved, infra, units) ==> AllBack(names, was, infra, units)
    ensures forall infra, units :: (forall u :: u in names ==> u !in WEB) ==>
      (AllRecoverable(saved, infra, units) <==> forall u :: u in names && u in was ==> u in units)
  {
    forall infra, units | AllRestored(saved, infra, units) || AllDone(saved, infra, units)
      ensures AllBack(names, was, infra, units)
    {
      forall u | u in names && u in was && !ByInfra(infra, u) ensures Restored(was[u], Lookup(units, u)) {
        assert saved[u] == Some(was[u]);
        assert AllDone(saved, infra, units) ==> Done(u, saved[u], infra, Lookup(units, u));
      }
    }
    forall infra, units | forall u :: u in names ==> u !in WEB
      ensures AllRecoverable(saved, infra, units) <==> forall u :: u in names && u in was ==> u in units
    {
      assert forall u :: u in saved ==> u in names && saved[u] == Lookup(was, u) && u != NGINX && u != FCGIWRAP;
      if AllRecoverable(saved, infra, units) {
        forall u | u in names && u in was ensures u in units {
          assert Recoverable(u, saved[u], infra, Lookup(units, u));
        }
      }
    }
  }

  /** A recovery that fails or crashes: what the services had become before it, whether the board was
      rebooted, how the board behaved, and the step it got to. */
  datatype Try = Try(now: map<string, UnitState>, rebooted: bool, services: bool, storage: Storage, crashAt: nat)

  /** Any number of such recoveries leaves the journal for the next one, or nothing to do. */
  method TryAndCrash(d: Disk, units: seq<string>, tries: seq<Try>) returns (left: Disk)
    requires Distinct(units) && d.journal.Some? && OnlyOwn(d.dropIns, units, d.journal.value.token)
    ensures left.journal.Some? ==> left.journal == d.journal && OnlyOwn(left.dropIns, units, d.journal.value.token)
    ensures left.journal == None ==> Settled(left, units, d.journal.value)
  {
    left := d;
    var i := 0;
    while i < |tries| && left.journal.Some?
      invariant left.journal.Some? ==> left.journal == d.journal && OnlyOwn(left.dropIns, units, d.journal.value.token)
      invariant left.journal == None ==> Settled(left, units, d.journal.value)
    {
      var t := tries[i];
      var token := left.journal.value.token;
      var board := new Board(Disk(t.now, if t.rebooted then {} else left.dropIns, left.journal), t.services, t.storage);
      if TokenOk(token) {
        var rescue := new Guard(units, board, token);
        var recovered := rescue.Recover();
      }
      left := if t.crashAt < |board.past| then board.past[t.crashAt] else board.Now();
      i := i + 1;
    }
  }

  /** A crash at the k-th step of a session, whatever commands and saves have failed in it; any number
      of recoveries that fail or crash too; and then one on a working board, whatever has become of
      the services by `now`. A journal left behind is enough: recovery succeeds exactly when every
      unit that was there before the session still is (and no web unit it is to start is masked),
      and brings everything back. Where no journal is left nothing is gated, and nothing is left to
      do if the journal had been saved, or if the services worked and none was running masked. */
  method CrashAndRecover(guard: Guard, names: seq<string>, infra: bool, k: nat, tries: seq<Try>,
                         now: map<string, UnitState>, rebooted: bool)
    returns (crash: Option<Disk>, recorded: bool, left: Disk, recovered: bool, after: Board)
    requires guard.Valid() && guard.units != [] && guard.saved == map[] && guard.paths == [] && !guard.installedInfra
    requires forall d :: d in guard.board.dropIns ==> d.unit !in guard.units
    requires guard.board.journal == None
    modifies guard, guard.board
    ensures var i := |old(guard.board.past)| + k; var past := guard.board.past;
      crash == if i < |past| then Some(past[i]) else None
    ensures guard.board.storage.Broken? ==> !recorded
    ensures guard.board.services && guard.board.storage.Works? ==> recorded
    ensures crash.Some? && crash.value.journal == None ==> NoneLeft(crash.value.dropIns, guard.units, guard.token)
    ensures crash.Some? && crash.value.journal == None ==>
      recorded || (guard.board.services && NoneMaskedRunning(guard.units, old(guard.board.units))) ==>
      AllBack(guard.units, old(guard.board.units), guard.installedInfra, crash.value.units)
    ensures crash.Some? && crash.value.journal.Some? ==>
      var r := crash.value.journal.value;
      && AsSaved(r.saved, old(guard.board.units)) && r.saved.Keys == (set u | u in guard.units)
      && (left.journal == None ==>
            && NoneLeft(left.dropIns, guard.units, guard.token)
            && AllBack(guard.units, old(guard.board.units), r.infra, left.units))
      && (left.journal.Some? ==>
            && recovered == AllRecoverable(r.saved, r.infra, now)
            && ((forall u :: u in guard.units ==> u !in WEB) ==>
                  (recovered <==> forall u :: u in guard.units && u in old(guard.board.units) ==> u in now)))
      && (recovered ==>
            && after.journal == None && NoneLeft(after.dropIns, guard.units, guard.token)
            && AllBack(guard.units, old(guard.board.units), r.infra, after.units))
  {
    ghost var before := guard.board.units;
    var from := |guard.board.past|;
    var closed;
    recorded, closed := Session(guard, names, infra);
    crash, left, recovered, after := None, guard.board.Now(), false, guard.board;
    if from + k >= |guard.board.past| {
      return;
    }
    var d := guard.board.past[from + k];
    crash := Some(d);
    ghost var r := Record(guard.saved, guard.token, guard.installedInfra);
    assert StepSafe(d, guard.units, r, recorded);
    if recorded || (guard.board.services && NoneMaskedRunning(guard.units, before)) {
      assert CrashSafe(d, guard.units, r);
      BackAsBefore(guard.units, guard.saved, before);
    }
    if d.journal.Some? {
      left := TryAndCrash(d, guard.units, tries);
    }
    if d.journal.Some? && left.journal.Some? {
      after := new Board(Disk(now, if rebooted then {} else left.dropIns, left.journal), true, Works);
      var rescue := new Guard(guard.units, after, d.journal.value.token);
      recovered := rescue.Recover();
    }
  }
}
