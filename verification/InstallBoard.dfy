/**
 The board an installer works on: services, condition drop-ins and one journal file. Each step
 that touches it is recorded, so that a crash can be placed between any two of them. With it,
 what it means that a service was restored, and how histories of steps go on.
 */
module InstallBoard {
  import opened Base

  datatype FileState =
    Enabled | EnabledRuntime | Disabled | Masked | MaskedRuntime | Static | Indirect | Generated | Alias

  datatype UnitState = UnitState(active: bool, file: FileState)

  /** What was found before the first stop; None for a unit that was not installed. */
  type Saved = map<string, Option<UnitState>>

  datatype Record = Record(saved: Saved, token: string, infra: bool)

  datatype DropIn = DropIn(unit: string, token: string)

  datatype Verb = Start | Stop | Enable | EnableRuntime | Disable | Mask | MaskRuntime | Unmask | UnmaskRuntime

  /** What a crash leaves behind. */
  datatype Disk = Disk(units: map<string, UnitState>, dropIns: set<DropIn>, journal: Option<Record>)

  /** A board's history and its present state. */
  datatype Trail = T(past: seq<Disk>, now: Disk)

  const NGINX := "nginx.service"
  const FCGIWRAP := "fcgiwrap.service"
  const FCGIWRAP_SOCKET := "fcgiwrap.socket"
  const FCGIWRAP_UNIX_SOCKET := "fcgiwrap-unix.socket"
  const WEB := [NGINX, FCGIWRAP, FCGIWRAP_SOCKET, FCGIWRAP_UNIX_SOCKET]
  const UART := [
    "sa02m-flasher.service", "sa02m-serial-gateway.service", "sa02m-modbus-mqtt.service",
    "mplc.service", "mplc4.service", "codesys.service", "codesyscontrol.service",
    "CODESYSControl.service", "CODESYSControlRuntime.service", "vplc.service",
    "sa02m-vplc.service", "sa02m-test-trigger.service", "sa02m-test-stand.service"]

  predicate IsMasked(f: FileState) {
    f == Masked || f == MaskedRuntime
  }

  predicate IsEnabled(f: FileState) {
    f == Enabled || f == EnabledRuntime
  }

  /** The operator decides these; the other states carry no decision. */
  predicate OperatorSet(f: FileState) {
    IsMasked(f) || IsEnabled(f) || f == Disabled
  }

  function Lookup(units: map<string, UnitState>, unit: string): Option<UnitState> {
    if unit in units then Some(units[unit]) else None
  }

  predicate Filed(units: map<string, UnitState>, unit: string, f: FileState) {
    unit in units && units[unit].file == f
  }

  predicate Gated(loaded: set<DropIn>, unit: string) {
    exists d :: d in loaded && d.unit == unit
  }

  /** A service command is refused for a missing unit, and a start for a masked one. */
  predicate Allowed(verb: Verb, s: Option<UnitState>) {
    s.Some? && (verb == Start ==> !IsMasked(s.value.file))
  }

  /** What a successful command brings about. A start behind an unmet condition succeeds and
      starts nothing. */
  predicate Achieves(verb: Verb, before: UnitState, after: UnitState, gated: bool) {
    match verb
    case Start => after == before.(active := before.active || !gated)
    case Stop => after == before.(active := false)
    case Enable => after == before.(file := Enabled)
    case EnableRuntime => after == before.(file := EnabledRuntime)
    case Disable => after == before.(file := Disabled)
    case Mask => after == before.(file := Masked)
    case MaskRuntime => after == before.(file := MaskedRuntime)
    case Unmask => after.active == before.active && !IsMasked(after.file)
    case UnmaskRuntime => after.active == before.active && !IsMasked(after.file)
  }

  /** One way of achieving it. */
  function Sample(verb: Verb, before: UnitState, gated: bool): (after: UnitState)
    ensures Achieves(verb, before, after, gated)
  {
    match verb
    case Start => before.(active := before.active || !gated)
    case Stop => before.(active := false)
    case Enable => before.(file := Enabled)
    case EnableRuntime => before.(file := EnabledRuntime)
    case Mask => before.(file := Masked)
    case MaskRuntime => before.(file := MaskedRuntime)
    case _ => before.(file := Disabled)
  }

  /** How the journal's storage behaves: every save succeeds, none does, or nobody knows. */
  datatype Storage = Works | Broken | Unsure

  /** The board. `services`: systemctl and the drop-in files do what is asked of them; without it
      any call may fail, or succeed and do something else. */
  class Board {
    const services: bool
    const storage: Storage
    var units: map<string, UnitState>
    var dropIns: set<DropIn>
    var loaded: set<DropIn>
    var journal: Option<Record>
    var past: seq<Disk>

    constructor (disk: Disk, services: bool, storage: Storage)
      ensures Now() == disk && loaded == dropIns && past == []
      ensures this.services == services && this.storage == storage
    {
      this.services, this.storage := services, storage;
      units, dropIns, loaded, journal, past := disk.units, disk.dropIns, disk.dropIns, disk.journal, [];
    }

    function Now(): Disk
      reads this
    {
      Disk(units, dropIns, journal)
    }

    function Trail(): Trail
      reads this
    {
      T(past, Now())
    }

    method Show(unit: string) returns (ok: bool, state: Option<UnitState>)
      ensures ok ==> state == Lookup(units, unit)
      ensures services ==> ok
    {
      ok := *;
      ok := ok || services;
      state := Lookup(units, unit);
    }

    method Command(verb: Verb, unit: string) returns (ok: bool)
      modifies this`units, this`past
      ensures units.Keys == old(units).Keys
      ensures forall u :: u in units && u != unit ==> units[u] == old(units)[u]
      ensures past == old(past) + [Now()]
      ensures services ==> ok == Allowed(verb, Lookup(old(units), unit))
      ensures services && ok ==> Achieves(verb, old(units)[unit], units[unit], Gated(loaded, unit))
    {
      ok := *;
      if unit in units {
        var before := units[unit];
        var after: UnitState := *;
        if services {
          ok := Allowed(verb, Some(before));
          if !Achieves(verb, before, after, Gated(loaded, unit)) {
            after := Sample(verb, before, Gated(loaded, unit));
          }
        }
        units := units[unit := after];
      } else if services {
        ok := false;
      }
      past := past + [Now()];
    }

    /** daemon-reload */
    method Reload() returns (ok: bool)
      modifies this`loaded
      ensures loaded == dropIns || (!ok && loaded == old(loaded))
      ensures services ==> ok
    {
      ok := *;
      var late: bool := *;
      if ok || late || services {
        loaded := dropIns;
        ok := ok || services;
      }
    }

    /** Exclusive creation, taken as atomic. */
    method Create(d: DropIn) returns (ok: bool)
      modifies this`dropIns, this`past
      ensures dropIns == if ok then old(dropIns) + {d} else old(dropIns)
      ensures past == old(past) + [Now()]
      ensures services ==> ok == (d !in old(dropIns))
    {
      ok := *;
      ok := d !in dropIns && (ok || services);
      if ok {
        dropIns := dropIns + {d};
      }
      past := past + [Now()];
    }

    method Unlink(d: DropIn) returns (ok: bool)
      modifies this`dropIns, this`past
      ensures dropIns == if ok then old(dropIns) - {d} else old(dropIns)
      ensures past == old(past) + [Now()]
      ensures services ==> ok == (d in old(dropIns))
    {
      ok := *;
      ok := d in dropIns && (ok || services);
      if ok {
        dropIns := dropIns - {d};
      }
      past := past + [Now()];
    }

    /** Write aside, sync, replace, sync the directory: the replacing is atomic, and a failure
        can come before or after it. */
    method Replace(record: Record) returns (ok: bool)
      modifies this`journal, this`past
      ensures journal == Some(record) || (!ok && journal == old(journal))
      ensures past == old(past) + [Now()]
      ensures storage.Works? ==> ok
      ensures storage.Broken? ==> !ok && journal == old(journal)
    {
      ok := *;
      ok := storage.Works? || (storage.Unsure? && ok);
      var late: bool := *;
      if ok || (storage.Unsure? && late) {
        journal := Some(record);
      }
      past := past + [Now()];
    }

    method UnlinkJournal() returns (ok: bool)
      modifies this`journal, this`past
      ensures journal == None || (!ok && journal == old(journal))
      ensures past == old(past) + [Now()]
      ensures storage.Works? ==> ok
    {
      ok := *;
      ok := ok || storage.Works?;
      var late: bool := *;
      if ok || late {
        journal := None;
      }
      past := past + [Now()];
    }

    /** The installer at work: it may do anything to the services. */
    method Install()
      modifies this`units, this`past
      ensures past == old(past) + [Now()]
    {
      units := *;
      past := past + [Now()];
    }
  }

  // --------------------------------------------------------------------- what is promised

  /** A unit as it was saved: running or not, and the autostart choice of the operator. */
  predicate Restored(want: UnitState, got: Option<UnitState>) {
    got.Some? && got.value.active == want.active && (OperatorSet(want.file) ==> got.value.file == want.file)
  }

  /** Whether the newly installed web stack wants this unit running. */
  predicate InfraActive(unit: string, was: Option<UnitState>, file: FileState) {
    !IsMasked(file) &&
    (((unit == NGINX || unit == FCGIWRAP) && IsEnabled(file))
     || ((unit == FCGIWRAP_SOCKET || unit == FCGIWRAP_UNIX_SOCKET) && IsEnabled(file) && was.Some? && was.value.active))
  }

  predicate InfraRestored(unit: string, was: Option<UnitState>, got: Option<UnitState>) {
    got.Some? ==> got.value.active == InfraActive(unit, was, got.value.file)
  }

  predicate ByInfra(infra: bool, unit: string) {
    infra && unit in WEB
  }

  predicate Done(unit: string, was: Option<UnitState>, infra: bool, got: Option<UnitState>) {
    if ByInfra(infra, unit) then InfraRestored(unit, was, got) else was.Some? ==> Restored(was.value, got)
  }

  /** Whether a working board can be brought back for this unit. */
  predicate Recoverable(unit: string, was: Option<UnitState>, infra: bool, got: Option<UnitState>) {
    || ByInfra(infra, unit)
    || (if was.Some? then got.Some?
        else (unit == NGINX || unit == FCGIWRAP) && got.Some? ==> !IsMasked(got.value.file))
  }

  predicate Distinct(units: seq<string>) {
    forall i, j :: 0 <= i < j < |units| ==> units[i] != units[j]
  }

  /** The units of one kind, in their order. */
  function Pick(units: seq<string>, web: bool): (r: seq<string>)
    requires Distinct(units)
    ensures Distinct(r) && forall u :: u in r <==> u in units && (u in WEB) == web
  {
    if units == [] then [] else
      var front, last := units[..|units| - 1], units[|units| - 1];
      var rest := Pick(front, web);
      assert last !in front;
      assert forall i :: 0 <= i < |rest| ==> rest[i] in front;
      if (last in WEB) == web then rest + [last] else rest
  }

  /** Consumers first, the web stack last: old CGI is not reachable while consumers come back. */
  function Order(units: seq<string>): (r: seq<string>)
    requires Distinct(units)
    ensures Distinct(r) && forall u :: u in r <==> u in units
    ensures forall i, j :: 0 <= i < j < |r| && r[i] in WEB ==> r[j] in WEB
  {
    var consumers, web := Pick(units, false), Pick(units, true);
    assert forall i :: 0 <= i < |consumers| ==> consumers[i] in consumers;
    assert forall i :: 0 <= i < |web| ==> web[i] in web;
    consumers + web
  }

  /** No drop-in of this guard is left. */
  ghost predicate NoneLeft(dropIns: set<DropIn>, units: seq<string>, token: string) {
    forall d :: d in dropIns && d.token == token ==> d.unit !in units
  }

  /** Every saved unit is back, or in the hands of the newly installed web stack. */
  ghost predicate AllDone(saved: Saved, infra: bool, units: map<string, UnitState>) {
    forall u :: u in saved ==> Done(u, saved[u], infra, Lookup(units, u))
  }

  ghost predicate AllRecoverable(saved: Saved, infra: bool, units: map<string, UnitState>) {
    forall u :: u in saved ==> Recoverable(u, saved[u], infra, Lookup(units, u))
  }

  /** Every consumer unit is as it was saved. */
  ghost predicate AllRestored(saved: Saved, infra: bool, units: map<string, UnitState>) {
    forall u :: u in saved && saved[u].Some? && !ByInfra(infra, u) ==> Restored(saved[u].value, Lookup(units, u))
  }

  /** The units are just as they were saved. */
  ghost predicate AsSaved(saved: Saved, units: map<string, UnitState>) {
    forall u :: u in saved ==> saved[u] == Lookup(units, u)
  }

  /** The name under which a guard signs its drop-ins. */
  predicate TokenOk(token: string) {
    var prefix := "sa02m-install-";
    |token| == |prefix| + 32 && token[..|prefix|] == prefix
    && forall i :: |prefix| <= i < |token| ==> '0' <= token[i] <= '9' || 'a' <= token[i] <= 'f'
  }

  /** What recovery accepts: a signed record of exactly these units. */
  ghost predicate Acceptable(r: Record, units: seq<string>) {
    TokenOk(r.token) && r.saved.Keys == set u | u in units
  }

  /** No one else has a drop-in on these units. */
  ghost predicate OnlyOwn(dropIns: set<DropIn>, units: seq<string>, token: string) {
    forall d :: d in dropIns && d.unit in units ==> d.token == token
  }

  ghost predicate Settled(d: Disk, units: seq<string>, r: Record) {
    NoneLeft(d.dropIns, units, r.token) && AllDone(r.saved, r.infra, d.units)
  }

  /** The journal holds everything recovery needs. */
  ghost predicate Recorded(d: Disk, units: seq<string>, r: Record) {
    && d.journal.Some? && d.journal.value.saved == r.saved && d.journal.value.token == r.token
    && Acceptable(d.journal.value, units) && OnlyOwn(d.dropIns, units, r.token)
  }

  /** A crash here loses nothing: an outstanding drop-in or a consumer that is not as it was
      saved is covered by the journal. */
  ghost predicate CrashSafe(d: Disk, units: seq<string>, r: Record) {
    Recorded(d, units, r) || (NoneLeft(d.dropIns, units, r.token) && AllRestored(r.saved, r.infra, d.units))
  }

  // --------------------------------------------------------------------- histories of steps

  /** A later history of the same board. */
  ghost predicate Extends(past: seq<Disk>, earlier: seq<Disk>) {
    |earlier| <= |past| && past[..|earlier|] == earlier
  }

  /** From `from` on, the recorded states keep these drop-ins and this journal. */
  ghost predicate Keeps(past: seq<Disk>, from: nat, dropIns: set<DropIn>, journal: Option<Record>) {
    forall k :: from <= k < |past| ==> past[k].dropIns <= dropIns && past[k].journal == journal
  }

  lemma KeepsOn(a: seq<Disk>, b: seq<Disk>, c: seq<Disk>, more: set<DropIn>, less: set<DropIn>, journal: Option<Record>)
    requires Extends(b, a) && Extends(c, b) && less <= more
    requires Keeps(b, |a|, more, journal) && Keeps(c, |b|, less, journal)
    ensures Extends(c, a) && Keeps(c, |a|, more, journal)
  {
    forall k | |a| <= k < |c| ensures c[k].dropIns <= more && c[k].journal == journal {
      if k < |b| {
        assert c[..|b|][k] == b[k];
      }
    }
    assert c[..|b|][..|a|] == c[..|a|];
  }

  /** From `from` on, the recorded states differ from `units` in no unit but this one. */
  ghost predicate OthersKept(past: seq<Disk>, from: nat, units: map<string, UnitState>, unit: string) {
    forall k, u :: from <= k < |past| && u != unit ==> Lookup(past[k].units, u) == Lookup(units, u)
  }

  /** Only this unit's state may have changed; every recorded step kept the other units, the drop-ins
      and the journal. */
  ghost predicate Touches(a: Trail, b: Trail, unit: string) {
    && b.now.units.Keys == a.now.units.Keys
    && (forall u :: u in b.now.units && u != unit ==> b.now.units[u] == a.now.units[u])
    && b.now.dropIns == a.now.dropIns && b.now.journal == a.now.journal
    && Extends(b.past, a.past)
    && Keeps(b.past, |a.past|, b.now.dropIns, b.now.journal)
    && OthersKept(b.past, |a.past|, b.now.units, unit)
  }

  lemma TouchesStep(a: Trail, b: Trail, unit: string)
    requires b.past == a.past + [b.now] && b.now.dropIns == a.now.dropIns && b.now.journal == a.now.journal
    requires b.now.units.Keys == a.now.units.Keys
    requires forall u :: u in b.now.units && u != unit ==> b.now.units[u] == a.now.units[u]
    ensures Touches(a, b, unit)
  {
  }

  lemma TouchesNothing(a: Trail, unit: string)
    ensures Touches(a, a, unit)
  {
  }

  lemma TouchesOn(a: Trail, b: Trail, c: Trail, unit: string)
    requires Touches(a, b, unit) && Touches(b, c, unit)
    ensures Touches(a, c, unit)
  {
    KeepsOn(a.past, b.past, c.past, b.now.dropIns, c.now.dropIns, c.now.journal);
    forall k, u | |a.past| <= k < |c.past| && u != unit ensures Lookup(c.past[k].units, u) == Lookup(c.now.units, u) {
      if k < |b.past| {
        assert c.past[..|b.past|][k] == b.past[k];
        assert Lookup(b.now.units, u) == Lookup(c.now.units, u);
      }
    }
  }

  /** A running unit that must be unmasked for a moment to be started again. */
  predicate MaskedRunning(s: Option<UnitState>) {
    s.Some? && s.value.active && IsMasked(s.value.file)
  }

  predicate NoneMaskedRunning(names: seq<string>, units: map<string, UnitState>) {
    forall u :: u in names ==> !MaskedRunning(Lookup(units, u))
  }

  /** From `from` on, the unit is always as it was saved. */
  ghost predicate StaysAs(past: seq<Disk>, from: nat, unit: string, want: UnitState) {
    forall k :: from <= k < |past| ==> Restored(want, Lookup(past[k].units, unit))
  }

  lemma StaysYet(a: Trail, unit: string, want: UnitState)
    ensures StaysAs(a.past, |a.past|, unit, want)
  {
  }

  lemma StaysOn(a: Trail, b: Trail, c: Trail, unit: string, want: UnitState)
    requires Extends(b.past, a.past) && Extends(c.past, b.past)
    ensures StaysAs(c.past, |a.past|, unit, want) <==>
      StaysAs(b.past, |a.past|, unit, want) && StaysAs(c.past, |b.past|, unit, want)
  {
    assert forall k :: 0 <= k < |b.past| ==> c.past[..|b.past|][k] == b.past[k];
  }

  /** From `from` on, every saved unit is always as it was saved. */
  ghost predicate Undisturbed(past: seq<Disk>, from: nat, saved: Saved) {
    forall k :: from <= k < |past| ==> AllRestored(saved, false, past[k].units)
  }

  lemma UndisturbedOn(a: seq<Disk>, b: seq<Disk>, c: seq<Disk>, saved: Saved)
    requires Extends(b, a) && Extends(c, b)
    ensures Undisturbed(c, |a|, saved) <==> Undisturbed(b, |a|, saved) && Undisturbed(c, |b|, saved)
  {
    assert forall k :: 0 <= k < |b| ==> c[..|b|][k] == b[k];
  }

  /** Steps that leave units as they were saved do not matter. */
  lemma CalmOn(a: seq<Disk>, b: seq<Disk>, c: seq<Disk>, units: map<string, UnitState>, saved: Saved)
    requires Extends(b, a) && Extends(c, b)
    ensures AsSaved(saved, units) && (forall k :: |a| <= k < |b| ==> b[k].units == units) ==>
      (Undisturbed(c, |a|, saved) <==> Undisturbed(c, |b|, saved))
    ensures AsSaved(saved, units) && (forall k :: |b| <= k < |c| ==> c[k].units == units) ==>
      (Undisturbed(c, |a|, saved) <==> Undisturbed(b, |a|, saved))
  {
    UndisturbedOn(a, b, c, saved);
    if AsSaved(saved, units) {
      assert AllRestored(saved, false, units);
    }
  }

  // --------------------------------------------------------------------- unit after unit

  /** A consumer that is not installed yet is left alone: it starts once the new broker is ready. */
  predicate ToGate(unit: string, was: Option<UnitState>) {
    was.Some? || unit !in UART
  }

  /** The first `i` units are gated, but for consumers that are missing; the others are not yet. */
  predicate GatedSoFar(units: seq<string>, i: nat, saved: Saved, paths: seq<string>, dropIns: set<DropIn>,
                       token: string)
  {
    && i <= |units| && (forall j :: i <= j < |units| ==> units[j] !in paths)
    && forall j :: 0 <= j < i && units[j] in saved && ToGate(units[j], saved[units[j]]) ==>
         DropIn(units[j], token) in dropIns
  }

  lemma GatedBy(loaded: set<DropIn>, token: string)
    ensures forall u :: DropIn(u, token) in loaded ==> Gated(loaded, u)
  {
  }

  lemma GateNext(units: seq<string>, i: nat, saved: Saved, paths: seq<string>, dropIns: set<DropIn>, token: string)
    requires Distinct(units) && i < |units| && GatedSoFar(units, i, saved, paths, dropIns, token)
    ensures units[i] !in paths
    ensures GatedSoFar(units, i + 1, saved, paths + [units[i]], dropIns + {DropIn(units[i], token)}, token)
    ensures units[i] in saved && !ToGate(units[i], saved[units[i]]) ==>
      GatedSoFar(units, i + 1, saved, paths, dropIns, token)
  {
  }

  /** What working on one unit has come to; `free`: the services work and no condition stops it. */
  ghost predicate OneDone(unit: string, was: Option<UnitState>, infra: bool, a: Trail, b: Trail, ok: bool, free: bool) {
    && (ok ==> Done(unit, was, infra, Lookup(b.now.units, unit)))
    && (free ==> (ok <==> Recoverable(unit, was, infra, Lookup(a.now.units, unit))))
    && (free && !infra && was == Lookup(a.now.units, unit) ==>
          && Lookup(b.now.units, unit) == was
          && (was.Some? ==> (StaysAs(b.past, |a.past|, unit, was.value) <==> !MaskedRunning(was)))
          && (was == None ==> b.past == a.past))
  }

  /** Units that were as saved still are, and were at every step unless one that runs masked was
      worked on. */
  ghost predicate Calm(order: seq<string>, i: nat, saved: Saved, a: Trail, b: Trail)
    requires i <= |order| && forall u :: u in order ==> u in saved
  {
    && AsSaved(saved, b.now.units)
    && (Undisturbed(b.past, |a.past|, saved) <==> forall j :: 0 <= j < i ==> !MaskedRunning(saved[order[j]]))
  }

  /** What working on the first `i` units has come to. */
  ghost predicate Progress(order: seq<string>, i: nat, saved: Saved, infra: bool, a: Trail, b: Trail,
                           ok: bool, free: bool) {
    && i <= |order| && (forall u :: u in order ==> u in saved)
    && b.now.dropIns == a.now.dropIns && b.now.journal == a.now.journal
    && Extends(b.past, a.past) && Keeps(b.past, |a.past|, b.now.dropIns, b.now.journal)
    && (ok ==> forall j :: i <= j < |order| ==> Lookup(b.now.units, order[j]) == Lookup(a.now.units, order[j]))
    && (ok ==> forall j :: 0 <= j < i ==> Done(order[j], saved[order[j]], infra, Lookup(b.now.units, order[j])))
    && (free ==>
          (ok <==> forall j :: 0 <= j < i ==>
            Recoverable(order[j], saved[order[j]], infra, Lookup(a.now.units, order[j]))))
    && (free && !infra && AsSaved(saved, a.now.units) ==> Calm(order, i, saved, a, b))
  }

  lemma NoProgress(order: seq<string>, saved: Saved, infra: bool, a: Trail, free: bool)
    requires forall u :: u in order ==> u in saved
    ensures Progress(order, 0, saved, infra, a, a, true, free)
  {
  }

  lemma SavedHere(saved: Saved, units: map<string, UnitState>, unit: string)
    requires AsSaved(saved, units) && unit in saved
    ensures saved[unit] == Lookup(units, unit)
    ensures Recoverable(unit, saved[unit], false, Lookup(units, unit))
  {
  }

  /** Whether all the saved units stay as they were while one of them is worked on depends on it. */
  lemma OneUnit(a: Trail, b: Trail, saved: Saved, unit: string)
    requires AsSaved(saved, a.now.units) && unit in saved && Touches(a, b, unit)
    requires Lookup(b.now.units, unit) == saved[unit]
    ensures AsSaved(saved, b.now.units)
    ensures saved[unit].Some? ==> (Undisturbed(b.past, |a.past|, saved) <==>
      StaysAs(b.past, |a.past|, unit, saved[unit].value))
    ensures saved[unit] == None && b.past == a.past ==> Undisturbed(b.past, |a.past|, saved)
  {
    forall u | u in saved && u != unit ensures saved[u] == Lookup(b.now.units, u) {
      assert Lookup(a.now.units, u) == Lookup(b.now.units, u);
    }
    if saved[unit].Some? {
      forall k | |a.past| <= k < |b.past|
        ensures AllRestored(saved, false, b.past[k].units) <==>
          Restored(saved[unit].value, Lookup(b.past[k].units, unit))
      {
        assert forall u :: u in saved && u != unit ==> saved[u] == Lookup(b.past[k].units, u);
        assert !ByInfra(false, unit);
      }
    }
  }

  lemma OneMore(order: seq<string>, i: nat, saved: Saved, infra: bool, a: Trail, b: Trail, c: Trail,
                ok: bool, one: bool, free1: bool, free: bool)
    requires Distinct(order) && i < |order| && (free ==> free1)
    requires Progress(order, i, saved, infra, a, b, ok, free)
    requires Touches(b, c, order[i]) && OneDone(order[i], saved[order[i]], infra, b, c, one, free1)
    ensures Progress(order, i + 1, saved, infra, a, c, ok && one, free)
  {
    var unit := order[i];
    KeepsOn(a.past, b.past, c.past, b.now.dropIns, c.now.dropIns, c.now.journal);
    forall j | 0 <= j < |order| && j != i ensures Lookup(c.now.units, order[j]) == Lookup(b.now.units, order[j]) {
      assert order[j] != unit;
    }
    if free && !infra && AsSaved(saved, a.now.units) {
      SavedHere(saved, b.now.units, unit);
      OneUnit(b, c, saved, unit);
      UndisturbedOn(a.past, b.past, c.past, saved);
    }
    hide Done, Recoverable, MaskedRunning, StaysAs, Undisturbed, AsSaved;
  }

  /** What working on all the units has come to. */
  lemma AllWorkedOn(order: seq<string>, saved: Saved, infra: bool, a: Trail, b: Trail, ok: bool, free: bool)
    requires Progress(order, |order|, saved, infra, a, b, ok, free) && forall u :: u in saved <==> u in order
    ensures b.now.dropIns == a.now.dropIns && b.now.journal == a.now.journal
    ensures Extends(b.past, a.past) && Keeps(b.past, |a.past|, b.now.dropIns, b.now.journal)
    ensures ok ==> AllDone(saved, infra, b.now.units)
    ensures free ==> ok == AllRecoverable(saved, infra, a.now.units)
    ensures free && !infra && AsSaved(saved, a.now.units) ==>
      && AsSaved(saved, b.now.units)
      && (Undisturbed(b.past, |a.past|, saved) <==> forall u :: u in saved ==> !MaskedRunning(saved[u]))
  {
    hide Done, Recoverable, MaskedRunning, AsSaved, Undisturbed, Extends, Keeps;
  }

  lemma GivenUp(order: seq<string>, i: nat, saved: Saved, infra: bool, a: Trail, b: Trail, free: bool)
    requires Progress(order, i, saved, infra, a, b, false, free)
    ensures Progress(order, |order|, saved, infra, a, b, false, free)
  {
    if free && !infra && AsSaved(saved, a.now.units) {
      forall j | 0 <= j < i ensures Recoverable(order[j], saved[order[j]], infra, Lookup(a.now.units, order[j])) {
        SavedHere(saved, a.now.units, order[j]);
      }
    }
    hide Done, Recoverable;
  }
}
