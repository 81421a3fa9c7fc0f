/**
 `CustomMigrator`: the runner that decides which migrations to apply, in
 which order, and what each one does to the ledger. The database, the schema
 backend and the module loader are inputs: the ledger rows as stored, the
 directory listing, and a map from migration name to the importable module.
 */
module Migrator {
  import opened Wrappers
  import opened Names
  import opened Discovery
  import opened Ledger
  import opened Operations

  datatype Direction = Up | Down

  /** The keyword options of `migrate()`. `transaction` is accepted and never read. */
  datatype Options = Options(
    direction: Direction,
    migration: Option<string>,
    fake: bool,
    force: bool,
    transaction: bool)

  /** `if self.migration:` holds for a name that is neither None nor empty. */
  predicate Targeted(options: Options) {
    options.migration.Some? && options.migration.value != ""
  }

  /** What a migration's `up` or `down` does with the migrator it is given:
      call it back with a list of steps, or never call it. */
  datatype Callback = CallsBack(ops: seq<Op>) | NeverCalls

  /** An importable migration module with the direction functions it defines. */
  datatype Module = Module(up: Option<Callback>, down: Option<Callback>)

  /** The modules that import, by migration name; importing any other name
      raises ImportError. */
  type Modules = map<string, Module>

  function DirectionFunction(unit: Module, direction: Direction): Option<Callback> {
    match direction
    case Up => unit.up
    case Down => unit.down
  }

  /** Why a run stops. All but `NothingCollected` are `MigrationException`s. */
  datatype Failure =
    | NotFound(name: string)                                  // "<name> migration not found"
    | DirectionUndefined(name: string, direction: Direction)  // "<name> doesn't have <direction> migration defined"
    | UnknownOperation                                        // "Can't determine type of operation to run"
    | NothingCollected(name: string)                          // TypeError: iterating over None
  {
    predicate IsMigrationException() {
      !NothingCollected?
    }
  }

  /** The migrator's state. `operations` is the last list any migration
      passed back and is never cleared; `attempted` holds the names handed to
      `apply_migration` ("Attempting to run ..."); `dispatched` holds the
      calls made into the schema backend and the SQL executor. */
  datatype Migrator = Migrator(
    ledger: Rows,
    lastId: Option<string>,
    operations: Option<seq<Op>>,
    migrationsRun: nat,
    attempted: seq<string>,
    dispatched: seq<Dispatched>)

  datatype Progress = Ok(state: Migrator) | Failed(state: Migrator, failure: Failure)

  /** The closing line of a run that did not raise. */
  datatype Report = MigrationsRun(count: nat) | AlreadyUpToDate

  datatype Outcome = Finished(state: Migrator, report: Report) | Raised(state: Migrator, failure: Failure)

  /** `initialize`: create the table when it is missing (`stored` is None)
      and read the watermark off the most recently inserted row. */
  function Initialize(stored: Option<Rows>): (m: Migrator)
    ensures m.ledger == if stored.Some? then stored.value else []
    ensures m.lastId.None? <==> |m.ledger| == 0
    ensures m.lastId.Some? ==> m.lastId.value == Prefix(m.ledger[|m.ledger| - 1])
    ensures m.operations.None? && m.migrationsRun == 0 && m.attempted == [] && m.dispatched == []
  {
    var rows := stored.GetOr([]);
    var lastId := match LastRow(rows)
      case None => None
      case Some(name) => Some(Prefix(name));
    Migrator(rows, lastId, None, 0, [], [])
  }

  /** The early return of `apply_migration`: going up over a name the ledger
      already holds, unless forced and not fake. */
  predicate ReturnsEarly(options: Options, ledger: Rows, name: string) {
    options.direction == Up && name in ledger && (!options.force || options.fake)
  }

  /** `name` imports, and its function for `direction` calls back with steps
      that are all structural or raw SQL. */
  predicate Completes(modules: Modules, direction: Direction, name: string) {
    name in modules &&
    match DirectionFunction(modules[name], direction)
    case Some(CallsBack(ops)) => forall i :: 0 <= i < |ops| ==> !ops[i].Other?
    case _ => false
  }

  /** The ledger update once every step of a unit ran (not in a fake run):
      up inserts the name if it is missing, down deletes it if present. */
  function Record(rows: Rows, direction: Direction, name: string): (r: Rows)
    ensures direction == Up ==> forall n :: n in r <==> n in rows || n == name
    ensures direction == Down ==> forall n :: n in r <==> n in rows && n != name
    ensures name in rows && direction == Up ==> r == rows
    ensures name !in rows && direction == Up ==> |r| == |rows| + 1 && r[..|rows|] == rows && LastRow(r) == Some(name)
    ensures name !in rows && direction == Down ==> r == rows
    ensures name in rows && direction == Down ==> r == Delete(rows, name)
  {
    match direction
    case Up => if name in rows then rows else Create(rows, name)
    case Down => if name in rows then Delete(rows, name) else rows
  }

  /** `d` extends `prior` by one executor call per step of `ops`, in order. */
  ghost predicate DispatchesAll(d: seq<Dispatched>, prior: seq<Dispatched>, ops: seq<Op>) {
    |d| == |prior| + |ops| && d[..|prior|] == prior &&
    forall i :: 0 <= i < |ops| ==> Carries(d[|prior| + i], ops[i])
  }

  /** What `self.operations` holds once the direction function returned: the
      steps it passed to `__call__`, or the previous value when it never
      called back. */
  function Collected(callback: Callback, previous: Option<seq<Op>>): Option<seq<Op>> {
    match callback
    case CallsBack(ops) => Some(ops)
    case NeverCalls => previous
  }

  /** Some collected step is neither a peewee `Operation` nor a `str`. */
  predicate HasUnsupported(ops: Option<seq<Op>>) {
    ops.Some? && exists i :: 0 <= i < |ops.value| && ops.value[i].Other?
  }

  /** `apply_migration(name)`. */
  function ApplyMigration(options: Options, m: Migrator, modules: Modules, name: string): (r: Progress)
    ensures r.state.attempted == m.attempted + [name]
    ensures r.state.lastId == m.lastId && r.state.migrationsRun == m.migrationsRun
    ensures ReturnsEarly(options, m.ledger, name) ==>
              r.Ok? && r.state == m.(attempted := m.attempted + [name])
    ensures !ReturnsEarly(options, m.ledger, name) && name !in modules ==>
              r == Failed(m.(attempted := m.attempted + [name]), NotFound(name))
    ensures !ReturnsEarly(options, m.ledger, name) && name in modules &&
            DirectionFunction(modules[name], options.direction).None? ==>
              r == Failed(m.(attempted := m.attempted + [name]), DirectionUndefined(name, options.direction))
    ensures r.Failed? ==> r.state.ledger == m.ledger
    ensures options.fake ==> r.state.ledger == m.ledger && r.state.dispatched == m.dispatched
    ensures r.Ok? && !ReturnsEarly(options, m.ledger, name) && !options.fake ==>
              r.state.ledger == Record(m.ledger, options.direction, name) &&
              r.state.operations.Some? &&
              DispatchesAll(r.state.dispatched, m.dispatched, r.state.operations.value)
  {
    var m0 := m.(attempted := m.attempted + [name]);
    if ReturnsEarly(options, m.ledger, name) then Ok(m0)
    else if name !in modules then Failed(m0, NotFound(name))
    else match DirectionFunction(modules[name], options.direction)
      case None => Failed(m0, DirectionUndefined(name, options.direction))
      case Some(callback) =>
        var collected := Collected(callback, m.operations);
        var m1 := m0.(operations := collected);
        match collected
        case None => Failed(m1, NothingCollected(name))
        case Some(ops) =>
          var run := ExecuteAll(options.fake, ops);
          var m2 := m1.(dispatched := m1.dispatched + run.dispatched);
          if run.rejected then Failed(m2, UnknownOperation)
          else if options.fake then Ok(m2)
          else
            assert m2.dispatched[..|m.dispatched|] == m.dispatched;
            Ok(m2.(ledger := Record(m.ledger, options.direction, name)))
  }

  /** The sweep's watermark test: `not force and prefix <= last_id`, with
      Python 2's `str <= None` false. */
  predicate Skips(options: Options, lastId: Option<string>, unit: string) {
    !options.force && lastId.Some? && LexLe(Prefix(unit), lastId.value)
  }

  /** The units of a sweep that pass the watermark, in order. */
  function Pending(options: Options, lastId: Option<string>, units: seq<string>): seq<string> {
    if units == [] then []
    else if Skips(options, lastId, units[0]) then Pending(options, lastId, units[1..])
    else [units[0]] + Pending(options, lastId, units[1..])
  }

  /** The loop of `run` in sweep mode: every unit that passes the watermark
      is applied and counted; the first failure ends the run. */
  function Sweep(options: Options, m: Migrator, modules: Modules, units: seq<string>): (r: Progress)
    ensures r.state.lastId == m.lastId
    ensures r.Ok? ==>
              r.state.attempted == m.attempted + Pending(options, m.lastId, units) &&
              r.state.migrationsRun == m.migrationsRun + |Pending(options, m.lastId, units)|
    decreases |units|
  {
    if units == [] then Ok(m)
    else if Skips(options, m.lastId, units[0]) then Sweep(options, m, modules, units[1..])
    else match ApplyMigration(options, m, modules, units[0])
      case Failed(s, f) => Failed(s, f)
      case Ok(s) =>
        var u := units[0];
        var rest := Pending(options, m.lastId, units[1..]);
        assert Pending(options, m.lastId, units) == [u] + rest;
        var r := Sweep(options, s.(migrationsRun := s.migrationsRun + 1), modules, units[1..]);
        AppendAssociates(m.attempted, [u], rest);
        r
  }

  /** One step of the sweep over a unit that passes the watermark. */
  lemma SweepStep(options: Options, m: Migrator, modules: Modules, units: seq<string>)
    requires units != [] && !Skips(options, m.lastId, units[0])
    ensures var p := ApplyMigration(options, m, modules, units[0]);
            Sweep(options, m, modules, units) ==
              if p.Failed? then p
              else Sweep(options, p.state.(migrationsRun := p.state.migrationsRun + 1), modules, units[1..])
  {
  }

  /** A sweep that raises has attempted a non-empty prefix of the pending
      units, the last of which raised, and counted all the others. */
  lemma {:induction false} SweepFailure(options: Options, m: Migrator, modules: Modules, units: seq<string>)
    ensures var r := Sweep(options, m, modules, units);
            var n := |r.state.attempted| - |m.attempted|;
            r.Failed? ==>
              1 <= n <= |Pending(options, m.lastId, units)| &&
              r.state.attempted == m.attempted + Pending(options, m.lastId, units)[..n] &&
              r.state.migrationsRun == m.migrationsRun + n - 1
    decreases |units|
  {
    if units != [] {
      if Skips(options, m.lastId, units[0]) {
        SweepFailure(options, m, modules, units[1..]);
      } else {
        var u := units[0];
        var rest := Pending(options, m.lastId, units[1..]);
        assert Pending(options, m.lastId, units) == [u] + rest;
        var p := ApplyMigration(options, m, modules, u);
        SweepStep(options, m, modules, units);
        if p.Failed? {
          assert ([u] + rest)[..1] == [u];
        } else {
          var s' := p.state.(migrationsRun := p.state.migrationsRun + 1);
          SweepFailure(options, s', modules, units[1..]);
          FailureAfterApplied(m, s', u, rest, Sweep(options, s', modules, units[1..]));
        }
      }
    }
  }

  /** The step of `SweepFailure` past a unit that was applied and counted. */
  lemma FailureAfterApplied(m: Migrator, s: Migrator, u: string, rest: seq<string>, r: Progress)
    requires s.attempted == m.attempted + [u] && s.migrationsRun == m.migrationsRun + 1
    requires var n := |r.state.attempted| - |s.attempted|;
             r.Failed? ==>
               1 <= n <= |rest| && r.state.attempted == s.attempted + rest[..n] &&
               r.state.migrationsRun == s.migrationsRun + n - 1
    ensures var n := |r.state.attempted| - |m.attempted|;
            r.Failed? ==>
              1 <= n <= |[u] + rest| && r.state.attempted == m.attempted + ([u] + rest)[..n] &&
              r.state.migrationsRun == m.migrationsRun + n - 1
  {
    if r.Failed? {
      var n := |r.state.attempted| - |s.attempted|;
      SliceOfCons(u, rest, n);
      AppendAssociates(m.attempted, [u], rest[..n]);
    }
  }

  /** A fake sweep leaves the ledger and the executors untouched. */
  lemma {:induction false} FakeSweepIsDryRun(options: Options, m: Migrator, modules: Modules, units: seq<string>)
    requires options.fake
    ensures var r := Sweep(options, m, modules, units);
            r.state.ledger == m.ledger && r.state.dispatched == m.dispatched
    decreases |units|
  {
    if units != [] {
      if Skips(options, m.lastId, units[0]) {
        FakeSweepIsDryRun(options, m, modules, units[1..]);
      } else {
        match ApplyMigration(options, m, modules, units[0])
        case Failed(_, _) =>
        case Ok(s) =>
          FakeSweepIsDryRun(options, s.(migrationsRun := s.migrationsRun + 1), modules, units[1..]);
      }
    }
  }

  lemma AppendAssociates<T>(a: seq<T>, b: seq<T>, c: seq<T>)
    ensures (a + b) + c == a + (b + c)
  {
  }

  lemma SliceOfCons<T>(x: T, t: seq<T>, n: nat)
    requires n <= |t|
    ensures ([x] + t)[..n + 1] == [x] + t[..n]
  {
  }

  /** The closing report: "already upto date" exactly when nothing was
      counted and the run was not forced. */
  function Summary(options: Options, m: Migrator): Report {
    if m.migrationsRun > 0 || options.force then MigrationsRun(m.migrationsRun)
    else AlreadyUpToDate
  }

  /** `migrate()`: initialize, then `run` in targeted or sweep mode. */
  function Run(options: Options, stored: Option<Rows>, listing: seq<string>, modules: Modules): (o: Outcome)
    ensures var m := Initialize(stored);
            Targeted(options) && o.Finished? ==>
              o.state.attempted == [options.migration.value] && o.state.migrationsRun == 0 &&
              o.report == (if options.force then MigrationsRun(0) else AlreadyUpToDate)
    ensures var pending := Pending(options, Initialize(stored).lastId, GetMigrations(listing));
            !Targeted(options) && o.Finished? ==>
              o.state.attempted == pending && o.state.migrationsRun == |pending| &&
              o.report == (if |pending| == 0 && !options.force then AlreadyUpToDate else MigrationsRun(|pending|))
    ensures options.fake ==> o.state.ledger == Initialize(stored).ledger && o.state.dispatched == []
  {
    var m := Initialize(stored);
    var p :=
      if Targeted(options) then ApplyMigration(options, m, modules, options.migration.value)
      else
        var units := GetMigrations(listing);
        if options.fake then FakeSweepIsDryRun(options, m, modules, units); Sweep(options, m, modules, units)
        else Sweep(options, m, modules, units);
    match p
    case Failed(s, f) => Raised(s, f)
    case Ok(s) => Finished(s, Summary(options, s))
  }
}
