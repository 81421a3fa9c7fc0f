/**
 Properties of the migrator that relate several calls or whole runs.
 */
module MigratorProperties {
  import opened Wrappers
  import opened Names
  import opened Discovery
  import opened Ledger
  import opened Operations
  import opened Migrator

  /** The sweep's skip rule: a unit is attempted exactly when it is not
      skipped by the watermark. */
  lemma {:induction false} PendingMembers(options: Options, lastId: Option<string>, units: seq<string>)
    ensures forall u :: u in Pending(options, lastId, units) <==> u in units && !Skips(options, lastId, u)
  {
    if units != [] {
      PendingMembers(options, lastId, units[1..]);
      assert units == [units[0]] + units[1..];
    }
  }

  /** With no watermark (an empty ledger) or with `force`, nothing is skipped. */
  lemma {:induction false} NothingSkipped(options: Options, lastId: Option<string>, units: seq<string>)
    requires options.force || lastId.None?
    ensures Pending(options, lastId, units) == units
  {
    if units != [] {
      NothingSkipped(options, lastId, units[1..]);
      assert units == [units[0]] + units[1..];
    }
  }

  lemma {:induction false} PendingAppend(options: Options, lastId: Option<string>, s: seq<string>, t: seq<string>)
    ensures Pending(options, lastId, s + t) == Pending(options, lastId, s) + Pending(options, lastId, t)
  {
    if s == [] {
      assert s + t == t;
    } else {
      assert (s + t)[1..] == s[1..] + t;
      PendingAppend(options, lastId, s[1..], t);
    }
  }

  /** A sweep in which every unit is below the watermark is a no-op. */
  lemma {:induction false} SweepOfNothing(options: Options, m: Migrator, modules: Modules, units: seq<string>)
    requires Pending(options, m.lastId, units) == []
    ensures Sweep(options, m, modules, units) == Ok(m)
    decreases |units|
  {
    if units != [] {
      SweepOfNothing(options, m, modules, units[1..]);
    }
  }

  /** Targeted mode ignores the watermark: `apply_migration` never reads it. */
  lemma ApplyIgnoresWatermark(options: Options, m: Migrator, modules: Modules, name: string, w: Option<string>)
    ensures ApplyMigration(options, m.(lastId := w), modules, name).Ok? ==
            ApplyMigration(options, m, modules, name).Ok?
    ensures ApplyMigration(options, m.(lastId := w), modules, name).state ==
            ApplyMigration(options, m, modules, name).state.(lastId := w)
  {
  }

  lemma {:induction false} SweepIgnoresTransaction(options: Options, m: Migrator, modules: Modules, units: seq<string>, t: bool)
    ensures Sweep(options.(transaction := t), m, modules, units) == Sweep(options, m, modules, units)
    decreases |units|
  {
    if units != [] {
      if Skips(options, m.lastId, units[0]) {
        SweepIgnoresTransaction(options, m, modules, units[1..], t);
      } else {
        var a := ApplyMigration(options, m, modules, units[0]);
        ApplyIgnoresTransaction(options, m, modules, units[0], t);
        if a.Ok? {
          SweepIgnoresTransaction(options, a.state.(migrationsRun := a.state.migrationsRun + 1), modules, units[1..], t);
        }
      }
    }
  }

  /** The `transaction` option is accepted and has no effect. */
  lemma TransactionIsIgnored(options: Options, stored: Option<Rows>, listing: seq<string>, modules: Modules, t: bool)
    ensures Run(options.(transaction := t), stored, listing, modules) == Run(options, stored, listing, modules)
  {
    var m := Initialize(stored);
    if Targeted(options) {
      ApplyIgnoresTransaction(options, m, modules, options.migration.value, t);
    } else {
      SweepIgnoresTransaction(options, m, modules, GetMigrations(listing), t);
    }
  }

  lemma ApplyIgnoresTransaction(options: Options, m: Migrator, modules: Modules, name: string, t: bool)
    ensures ApplyMigration(options.(transaction := t), m, modules, name) == ApplyMigration(options, m, modules, name)
  {
  }

  /** `up` then `down` on one name, both targeted and not fake, leaves the
      name out of the ledger; when it was not there before, the ledger is
      exactly as it was. */
  lemma UpThenDown(up: Options, down: Options, stored: Rows, listing: seq<string>, modules: Modules)
    requires Targeted(up) && up.direction == Up && !up.fake
    requires down == up.(direction := Down)
    requires Run(up, Some(stored), listing, modules).Finished?
    requires Run(down, Some(Run(up, Some(stored), listing, modules).state.ledger), listing, modules).Finished?
    ensures var after := Run(up, Some(stored), listing, modules).state.ledger;
            var final := Run(down, Some(after), listing, modules).state.ledger;
            up.migration.value !in final &&
            (up.migration.value !in stored ==> final == stored)
  {
    var name := up.migration.value;
    var after := Run(up, Some(stored), listing, modules).state.ledger;
    var final := Run(down, Some(after), listing, modules).state.ledger;
    assert name in after && (name !in stored ==> after == Create(stored, name)) by {
      TargetedRun(up, Some(stored), listing, modules);
      UpRecords(up, Initialize(Some(stored)), modules);
    }
    assert final == Delete(after, name) by {
      TargetedRun(down, Some(after), listing, modules);
      DownDeletes(down, Initialize(Some(after)), modules);
    }
    if name !in stored {
      DeleteUndoesCreate(stored, name);
    }
  }

  /** A targeted down migration that succeeds deletes its row. */
  lemma DownDeletes(options: Options, m: Migrator, modules: Modules)
    requires Targeted(options) && options.direction == Down && !options.fake
    requires ApplyMigration(options, m, modules, options.migration.value).Ok?
    ensures var name := options.migration.value;
            ApplyMigration(options, m, modules, name).state.ledger == Delete(m.ledger, name)
  {
  }

  /** In targeted mode the run is `apply_migration` of the named migration. */
  lemma TargetedRun(options: Options, stored: Option<Rows>, listing: seq<string>, modules: Modules)
    requires Targeted(options)
    ensures var p := ApplyMigration(options, Initialize(stored), modules, options.migration.value);
            var o := Run(options, stored, listing, modules);
            o.Finished? == p.Ok? && o.state == p.state
  {
  }

  /** A targeted up migration that succeeds leaves its name in the ledger,
      appended when it was missing. */
  lemma UpRecords(options: Options, m: Migrator, modules: Modules)
    requires Targeted(options) && options.direction == Up && !options.fake
    requires ApplyMigration(options, m, modules, options.migration.value).Ok?
    ensures var name := options.migration.value;
            var after := ApplyMigration(options, m, modules, name).state.ledger;
            name in after && (name !in m.ledger ==> after == Create(m.ledger, name))
  {
  }

  /** `apply_migration` raises "Can't determine type of operation to run"
      exactly when it gets past the early return, imports the module, finds
      the direction, is not fake, and a collected step is neither structural
      nor raw SQL. The steps before that one have already been sent, with no
      rollback, and the ledger is untouched. */
  lemma UnknownOperationRaises(options: Options, m: Migrator, modules: Modules, name: string)
    ensures var r := ApplyMigration(options, m, modules, name);
            (r.Failed? && r.failure == UnknownOperation) <==>
              (!ReturnsEarly(options, m.ledger, name) && !options.fake && name in modules &&
               DirectionFunction(modules[name], options.direction).Some? &&
               HasUnsupported(Collected(DirectionFunction(modules[name], options.direction).value, m.operations)))
    ensures var r := ApplyMigration(options, m, modules, name);
            r.Failed? && r.failure == UnknownOperation ==>
              r.state.ledger == m.ledger &&
              r.state.operations == Collected(DirectionFunction(modules[name], options.direction).value, m.operations) &&
              r.state.dispatched == m.dispatched + ExecuteAll(false, r.state.operations.value).dispatched
  {
  }

  /** A migration whose steps the executors all accept is applied without
      error, and its steps become the migrator's `operations` unless the
      early return skipped it. */
  lemma ApplySucceeds(options: Options, m: Migrator, modules: Modules, name: string)
    requires Completes(modules, options.direction, name)
    ensures var r := ApplyMigration(options, m, modules, name);
            r.Ok? &&
            (!ReturnsEarly(options, m.ledger, name) ==>
               r.state.operations == Some(DirectionFunction(modules[name], options.direction).value.ops))
  {
  }

  /** A sweep whose every pending unit completes finishes without error. */
  lemma {:induction false} SweepSucceeds(options: Options, m: Migrator, modules: Modules, units: seq<string>)
    requires forall u :: u in Pending(options, m.lastId, units) ==> Completes(modules, options.direction, u)
    ensures Sweep(options, m, modules, units).Ok?
    decreases |units|
  {
    if units != [] {
      if Skips(options, m.lastId, units[0]) {
        SweepSucceeds(options, m, modules, units[1..]);
      } else {
        ApplySucceeds(options, m, modules, units[0]);
        var s := ApplyMigration(options, m, modules, units[0]).state;
        SweepSucceeds(options, s.(migrationsRun := s.migrationsRun + 1), modules, units[1..]);
      }
    }
  }

  /** A forced, non-fake `up` over an applied name replays every step and
      does not insert a second row. */
  lemma ForcedRerun(options: Options, m: Migrator, modules: Modules, name: string, ops: seq<Op>)
    requires options.direction == Up && options.force && !options.fake
    requires name in m.ledger && name in modules && modules[name].up == Some(CallsBack(ops))
    requires forall i :: 0 <= i < |ops| ==> !ops[i].Other?
    ensures var r := ApplyMigration(options, m, modules, name);
            r.Ok? && r.state.ledger == m.ledger && DispatchesAll(r.state.dispatched, m.dispatched, ops)
  {
  }

  /** `self.operations` is never cleared: a direction function that never
      calls back re-runs the steps of the previous migration, and raises a
      TypeError (not a MigrationException) if there was none. */
  lemma SilentMigrationReplaysPrevious(options: Options, m: Migrator, modules: Modules, name: string)
    requires !ReturnsEarly(options, m.ledger, name) && !options.fake
    requires name in modules && DirectionFunction(modules[name], options.direction) == Some(NeverCalls)
    requires m.operations.Some? ==> forall i :: 0 <= i < |m.operations.value| ==> !m.operations.value[i].Other?
    ensures var r := ApplyMigration(options, m, modules, name);
            (m.operations.None? ==> r.Failed? && r.failure == NothingCollected(name) && !r.failure.IsMigrationException()) &&
            (m.operations.Some? ==> r.Ok? && r.state.operations == m.operations &&
                                    DispatchesAll(r.state.dispatched, m.dispatched, m.operations.value))
  {
  }

  lemma {:induction false} MatchingUnique(names: seq<string>)
    requires Unique(names)
    ensures Unique(Matching(names))
  {
    if names != [] {
      MatchingUnique(names[1..]);
    }
  }

  lemma {:induction false} UniqueByCount(s: seq<string>)
    ensures Unique(s) <==> forall x :: multiset(s)[x] <= 1
  {
    if s != [] {
      var t := s[1..];
      assert s == [s[0]] + t;
      UniqueByCount(t);
      if Unique(s) {
        assert s[0] !in t;
      }
      if forall x :: multiset(s)[x] <= 1 {
        assert forall x :: multiset(t)[x] <= 1 by {
          forall x ensures multiset(t)[x] <= 1 {
            assert multiset(s)[x] <= 1;
          }
        }
        assert multiset(s)[s[0]] <= 1;
        assert s[0] !in multiset(t);
        forall i, j | 0 <= i < j < |s|
          ensures s[i] != s[j]
        {
          if i == 0 {
            assert s[j] == t[j - 1];
          } else {
            assert s[i] == t[i - 1] && s[j] == t[j - 1];
          }
        }
      }
    }
  }

  /** The discovered units of a listing without repeats have no repeats. */
  lemma DiscoveredUnique(listing: seq<string>)
    requires Unique(listing)
    ensures Unique(GetMigrations(listing))
  {
    MatchingUnique(listing);
    UniqueByCount(Matching(listing));
    UniqueByCount(GetMigrations(listing));
  }

  lemma {:induction false} PendingUnique(options: Options, lastId: Option<string>, units: seq<string>)
    requires Unique(units)
    ensures Unique(Pending(options, lastId, units))
  {
    if units != [] {
      PendingUnique(options, lastId, units[1..]);
      PendingMembers(options, lastId, units[1..]);
    }
  }

  /** An up sweep whose pending units are new to the ledger and that
      finishes appends exactly those units, in order. */
  lemma {:induction false} SweepAppendsPending(options: Options, m: Migrator, modules: Modules, units: seq<string>)
    requires options.direction == Up && !options.fake && !options.force
    requires Unique(Pending(options, m.lastId, units))
    requires forall u :: u in Pending(options, m.lastId, units) ==> u !in m.ledger
    requires Sweep(options, m, modules, units).Ok?
    ensures Sweep(options, m, modules, units).state.ledger == m.ledger + Pending(options, m.lastId, units)
    decreases |units|
  {
    if units == [] {
    } else if Skips(options, m.lastId, units[0]) {
      SweepAppendsPending(options, m, modules, units[1..]);
    } else {
      var s' := AppendStep(options, m, modules, units);
      SweepAppendsPending(options, s', modules, units[1..]);
      AppendAssociates(m.ledger, [units[0]], Pending(options, m.lastId, units[1..]));
    }
  }

  /** The step of `SweepAppendsPending` over a unit that passes the
      watermark: the unit is appended and the rest of the sweep starts from
      the grown ledger. */
  lemma AppendStep(options: Options, m: Migrator, modules: Modules, units: seq<string>) returns (s': Migrator)
    requires options.direction == Up && !options.fake && !options.force
    requires units != [] && !Skips(options, m.lastId, units[0])
    requires Unique(Pending(options, m.lastId, units))
    requires forall u :: u in Pending(options, m.lastId, units) ==> u !in m.ledger
    requires Sweep(options, m, modules, units).Ok?
    ensures Sweep(options, m, modules, units) == Sweep(options, s', modules, units[1..])
    ensures s'.lastId == m.lastId && s'.ledger == m.ledger + [units[0]]
    ensures Pending(options, m.lastId, units) == [units[0]] + Pending(options, m.lastId, units[1..])
    ensures Unique(Pending(options, s'.lastId, units[1..]))
    ensures forall u :: u in Pending(options, s'.lastId, units[1..]) ==> u !in s'.ledger
  {
    var u := units[0];
    var rest := Pending(options, m.lastId, units[1..]);
    assert Pending(options, m.lastId, units) == [u] + rest;
    var p := ApplyMigration(options, m, modules, u);
    assert p.Ok? && Sweep(options, m, modules, units) ==
           Sweep(options, p.state.(migrationsRun := p.state.migrationsRun + 1), modules, units[1..]) by {
      SweepStep(options, m, modules, units);
    }
    s' := p.state.(migrationsRun := p.state.migrationsRun + 1);
    assert s'.ledger == m.ledger + [u] by {
      assert u in [u] + rest;
      ApplyAppends(options, m, modules, u);
    }
    FreshAfterAppend(m.ledger, u, rest);
  }

  /** Appending the first of a run of fresh, distinct names leaves the
      others fresh and distinct. */
  lemma FreshAfterAppend(ledger: seq<string>, u: string, rest: seq<string>)
    requires Unique([u] + rest)
    requires forall x :: x in [u] + rest ==> x !in ledger
    ensures Unique(rest)
    ensures forall x :: x in rest ==> x !in ledger + [u]
  {
    UniqueSplit([u] + rest);
    assert ([u] + rest)[1..] == rest;
    forall x | x in rest
      ensures x !in ledger + [u]
    {
      assert x in [u] + rest;
    }
  }

  /** An up migration new to the ledger that succeeds is appended to it. */
  lemma ApplyAppends(options: Options, m: Migrator, modules: Modules, u: string)
    requires options.direction == Up && !options.fake && u !in m.ledger
    requires ApplyMigration(options, m, modules, u).Ok?
    ensures ApplyMigration(options, m, modules, u).state.ledger == m.ledger + [u]
  {
    assert !ReturnsEarly(options, m.ledger, u);
    assert Record(m.ledger, Up, u) == Create(m.ledger, u);
  }

  lemma UniqueSplit(s: seq<string>)
    requires Unique(s) && |s| > 0
    ensures s[0] !in s[1..] && Unique(s[1..])
  {
    forall k | 0 <= k < |s| - 1
      ensures s[1..][k] != s[0]
    {
      assert s[1..][k] == s[k + 1];
    }
  }

  lemma {:induction false} PendingNone(options: Options, lastId: Option<string>, units: seq<string>)
    requires forall i :: 0 <= i < |units| ==> Skips(options, lastId, units[i])
    ensures Pending(options, lastId, units) == []
  {
    if units != [] {
      PendingNone(options, lastId, units[1..]);
    }
  }

  /** Zero-padded migration names all carry a digit prefix of this width. */
  ghost predicate PaddedTo(names: seq<string>, width: nat) {
    forall n :: n in names && IsMigrationName(n) ==> |Prefix(n)| == width
  }

  /** A padded watermark at or above the last unit's prefix covers every unit
      of a sorted list. */
  lemma WatermarkCovers(options: Options, w: string, units: seq<MigrationName>, width: nat)
    requires !options.force
    requires SortedByKey(units) && |units| > 0
    requires forall i :: 0 <= i < |units| ==> |Prefix(units[i])| == width
    requires AllDigits(w) && |w| == width
    requires LexLe(Prefix(units[|units| - 1]), w)
    ensures Pending(options, Some(w), units) == []
  {
    var last := units[|units| - 1];
    PrefixOfMigrationName(last);
    PaddedOrderIsNumeric(Prefix(last), w);
    forall i | 0 <= i < |units|
      ensures Skips(options, Some(w), units[i])
    {
      PrefixOfMigrationName(units[i]);
      assert Key(units[i]) <= Key(last);
      PaddedOrderIsNumeric(Prefix(units[i]), w);
    }
    PendingNone(options, Some(w), units);
  }

  /** The first sweep of the idempotence argument appends its pending units. */
  lemma FirstSweepAppends(options: Options, stored: Rows, listing: seq<string>, modules: Modules)
    requires options.direction == Up && !options.fake && !options.force && !Targeted(options)
    requires Unique(listing)
    requires forall u :: u in Pending(options, Initialize(Some(stored)).lastId, GetMigrations(listing)) ==> u !in stored
    requires Run(options, Some(stored), listing, modules).Finished?
    ensures Run(options, Some(stored), listing, modules).state.ledger ==
            stored + Pending(options, Initialize(Some(stored)).lastId, GetMigrations(listing))
  {
    var units := GetMigrations(listing);
    var m1 := Initialize(Some(stored));
    DiscoveredUnique(listing);
    PendingUnique(options, m1.lastId, units);
    SweepAppendsPending(options, m1, modules, units);
  }

  /** When a padded watermark leaves anything pending in a sorted list, the
      last unit is pending too, and is the last one attempted. */
  lemma LastUnitPasses(options: Options, lastId: Option<string>, units: seq<MigrationName>, width: nat)
    requires !options.force
    requires SortedByKey(units)
    requires forall i :: 0 <= i < |units| ==> |Prefix(units[i])| == width
    requires lastId.Some? ==> AllDigits(lastId.value) && |lastId.value| == width
    requires Pending(options, lastId, units) != []
    ensures var pending := Pending(options, lastId, units);
            pending[|pending| - 1] == units[|units| - 1]
  {
    var n := |units| - 1;
    var last := units[n];
    if Skips(options, lastId, last) {
      WatermarkCovers(options, lastId.value, units, width);
      assert false;
    }
    assert units == units[..n] + [last];
    PendingAppend(options, lastId, units[..n], [last]);
  }

  /** Once a padded sweep has anything pending, the prefix of the last
      pending unit, as the new watermark, covers every unit. */
  lemma NewWatermarkCovers(options: Options, lastId: Option<string>, units: seq<MigrationName>, width: nat)
    requires !options.force
    requires SortedByKey(units)
    requires forall i :: 0 <= i < |units| ==> |Prefix(units[i])| == width
    requires lastId.Some? ==> AllDigits(lastId.value) && |lastId.value| == width
    ensures var pending := Pending(options, lastId, units);
            pending != [] ==> Pending(options, Some(Prefix(pending[|pending| - 1])), units) == []
  {
    if Pending(options, lastId, units) != [] {
      LastUnitPasses(options, lastId, units, width);
      var last := units[|units| - 1];
      PrefixOfMigrationName(last);
      LexLeReflexive(Prefix(last));
      WatermarkCovers(options, Prefix(last), units, width);
    }
  }

  /** The watermark read back after appending rows is the last appended
      row's prefix. */
  lemma WatermarkAfter(stored: Rows, added: seq<string>)
    requires Unique(stored + added)
    ensures var after: Rows := stored + added;
            Initialize(Some(after)).lastId ==
              if added == [] then Initialize(Some(stored)).lastId else Some(Prefix(added[|added| - 1]))
  {
    if added == [] {
      assert stored + added == stored;
    } else {
      assert (stored + added)[|stored + added| - 1] == added[|added| - 1];
    }
  }

  /** An up sweep whose pending migrations are all new to the ledger and all
      complete finishes, appends them to the ledger in number order, and
      reports how many it applied. */
  lemma CompletedSweep(options: Options, stored: Rows, listing: seq<string>, modules: Modules)
    requires options.direction == Up && !options.fake && !options.force && !Targeted(options)
    requires Unique(listing)
    requires forall u :: u in Pending(options, Initialize(Some(stored)).lastId, GetMigrations(listing)) ==>
               u !in stored && Completes(modules, Up, u)
    ensures var o := Run(options, Some(stored), listing, modules);
            var pending := Pending(options, Initialize(Some(stored)).lastId, GetMigrations(listing));
            o.Finished? && o.state.ledger == stored + pending && o.state.attempted == pending &&
            o.report == (if |pending| == 0 then AlreadyUpToDate else MigrationsRun(|pending|))
  {
    SweepSucceeds(options, Initialize(Some(stored)), modules, GetMigrations(listing));
    FirstSweepAppends(options, stored, listing, modules);
  }

  /** On an empty ledger the sweep applies every discovered migration. */
  lemma EmptyLedgerSweep(options: Options, listing: seq<string>, modules: Modules)
    requires options.direction == Up && !options.fake && !options.force && !Targeted(options)
    requires Unique(listing)
    requires forall u :: u in GetMigrations(listing) ==> Completes(modules, Up, u)
    ensures var o := Run(options, Some([]), listing, modules);
            var units := GetMigrations(listing);
            o.Finished? && o.state.ledger == units && o.state.attempted == units &&
            o.report == (if |units| == 0 then AlreadyUpToDate else MigrationsRun(|units|))
  {
    NothingSkipped(options, Initialize(Some([])).lastId, GetMigrations(listing));
    CompletedSweep(options, [], listing, modules);
  }

  /** Idempotence of the up sweep, under the conditions that make it hold:
      zero-padded names of one width (the ledger's last row included), a
      listing without repeats, and no unit past the watermark already in the
      ledger. Then running the sweep again applies nothing and reports
      "already upto date". */
  lemma SecondSweepIsUpToDate(options: Options, stored: Rows, listing: seq<string>, modules: Modules, width: nat)
    requires options.direction == Up && !options.fake && !options.force && !Targeted(options)
    requires Unique(listing) && PaddedTo(listing, width)
    requires |stored| > 0 ==> AllDigits(Prefix(stored[|stored| - 1])) && |Prefix(stored[|stored| - 1])| == width
    requires forall u :: u in Pending(options, Initialize(Some(stored)).lastId, GetMigrations(listing)) ==> u !in stored
    requires Run(options, Some(stored), listing, modules).Finished?
    ensures var first := Run(options, Some(stored), listing, modules);
            var second := Run(options, Some(first.state.ledger), listing, modules);
            second.Finished? && second.report == AlreadyUpToDate &&
            second.state.ledger == first.state.ledger && second.state.dispatched == []
  {
    var after := Run(options, Some(stored), listing, modules).state.ledger;
    FirstSweepAppends(options, stored, listing, modules);
    PaddedWatermarkCovers(options, stored, listing, width);
    NothingPendingIsUpToDate(options, after, listing, modules);
  }

  /** Appending the pending units of a padded listing moves the watermark
      past every unit. */
  lemma PaddedWatermarkCovers(options: Options, stored: Rows, listing: seq<string>, width: nat)
    requires !options.force
    requires PaddedTo(listing, width)
    requires |stored| > 0 ==> AllDigits(Prefix(stored[|stored| - 1])) && |Prefix(stored[|stored| - 1])| == width
    requires Unique(stored + Pending(options, Initialize(Some(stored)).lastId, GetMigrations(listing)))
    ensures var after: Rows := stored + Pending(options, Initialize(Some(stored)).lastId, GetMigrations(listing));
            Pending(options, Initialize(Some(after)).lastId, GetMigrations(listing)) == []
  {
    var units := GetMigrations(listing);
    var lastId := Initialize(Some(stored)).lastId;
    var pending := Pending(options, lastId, units);
    WatermarkAfter(stored, pending);
    if pending != [] {
      PaddedUnits(listing, width);
      NewWatermarkCovers(options, lastId, units, width);
    }
  }

  /** Every migration discovered in a padded listing has a prefix of the
      padding width. */
  lemma PaddedUnits(listing: seq<string>, width: nat)
    requires PaddedTo(listing, width)
    ensures forall i :: 0 <= i < |GetMigrations(listing)| ==> |Prefix(GetMigrations(listing)[i])| == width
  {
    var units := GetMigrations(listing);
    forall i | 0 <= i < |units|
      ensures |Prefix(units[i])| == width
    {
      assert units[i] in units;
    }
  }

  /** A sweep with nothing pending changes nothing and, unforced, reports
      "already upto date". */
  lemma NothingPendingIsUpToDate(options: Options, stored: Rows, listing: seq<string>, modules: Modules)
    requires !Targeted(options) && !options.force
    requires Pending(options, Initialize(Some(stored)).lastId, GetMigrations(listing)) == []
    ensures Run(options, Some(stored), listing, modules) == Finished(Initialize(Some(stored)), AlreadyUpToDate)
  {
    SweepOfNothing(options, Initialize(Some(stored)), modules, GetMigrations(listing));
  }
}
