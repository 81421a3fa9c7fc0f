/**
 Running the same up sweep twice. Whatever the listing, the second run
 applies nothing: every unit that passes its watermark was recorded by the
 first run and takes the early return. Whether it also reports "already upto
 date" depends on the string watermark (see `SecondSweepIsUpToDate` for the
 zero-padded case and `Scenarios.UnpaddedRerun` for a counterexample).
 */
module Rerun {
  import opened Wrappers
  import opened Names
  import opened Ledger
  import opened Discovery
  import opened Migrator
  import opened MigratorProperties

  /** One applied unit of an up sweep: the name ends up recorded, no row is
      lost, and the ledger is either unchanged or ends with the name. */
  lemma UpStep(options: Options, m: Migrator, modules: Modules, u: string)
    requires options.direction == Up && !options.fake && !options.force
    requires ApplyMigration(options, m, modules, u).Ok?
    ensures var l := ApplyMigration(options, m, modules, u).state.ledger;
            u in l && (forall n :: n in m.ledger ==> n in l) &&
            (l == m.ledger || (|l| > 0 && l[|l| - 1] == u))
  {
    if !ReturnsEarly(options, m.ledger, u) && u !in m.ledger {
      var l := ApplyMigration(options, m, modules, u).state.ledger;
      assert l == Create(m.ledger, u);
      assert LastRow(l) == Some(u);
    }
  }

  /** An up sweep that finishes records every unit that passed the
      watermark, keeps every row it started with, and either leaves the
      ledger as it was or ends it with one of those units. */
  lemma {:induction false} UpSweepRecords(options: Options, m: Migrator, modules: Modules, units: seq<string>)
    requires options.direction == Up && !options.fake && !options.force
    requires Sweep(options, m, modules, units).Ok?
    ensures var l := Sweep(options, m, modules, units).state.ledger;
            var pending := Pending(options, m.lastId, units);
            (forall u :: u in pending ==> u in l) &&
            (forall n :: n in m.ledger ==> n in l) &&
            (l == m.ledger || (|l| > 0 && l[|l| - 1] in pending))
    decreases |units|
  {
    if units != [] {
      if Skips(options, m.lastId, units[0]) {
        UpSweepRecords(options, m, modules, units[1..]);
      } else {
        var u := units[0];
        SweepStep(options, m, modules, units);
        var p := ApplyMigration(options, m, modules, u);
        UpStep(options, m, modules, u);
        var s := p.state.(migrationsRun := p.state.migrationsRun + 1);
        UpSweepRecords(options, s, modules, units[1..]);
        assert Pending(options, m.lastId, units) == [u] + Pending(options, m.lastId, units[1..]);
      }
    }
  }

  /** A sweep in which every unit that passes the watermark is already
      recorded applies nothing: each one takes the early return. */
  lemma {:induction false} RecordedSweep(options: Options, m: Migrator, modules: Modules, units: seq<string>)
    requires options.direction == Up && !options.force
    requires forall u :: u in Pending(options, m.lastId, units) ==> u in m.ledger
    ensures var r := Sweep(options, m, modules, units);
            r.Ok? && r.state.ledger == m.ledger && r.state.dispatched == m.dispatched
    decreases |units|
  {
    if units != [] {
      if Skips(options, m.lastId, units[0]) {
        RecordedSweep(options, m, modules, units[1..]);
      } else {
        var u := units[0];
        assert Pending(options, m.lastId, units) == [u] + Pending(options, m.lastId, units[1..]);
        assert ReturnsEarly(options, m.ledger, u);
        SweepStep(options, m, modules, units);
        var p := ApplyMigration(options, m, modules, u);
        var s := p.state.(migrationsRun := p.state.migrationsRun + 1);
        RecordedSweep(options, s, modules, units[1..]);
      }
    }
  }

  /** The watermark read back after a sweep that recorded every unit it let
      through, and either kept the ledger or ended it with one of them, lets
      through only recorded units: it is the old watermark or a prefix above it. */
  lemma NewWatermarkRecorded(options: Options, stored: Rows, after: Rows, units: seq<string>)
    requires !options.force
    requires forall u :: u in Pending(options, Initialize(Some(stored)).lastId, units) ==> u in after
    requires after == stored ||
             (|after| > 0 && after[|after| - 1] in Pending(options, Initialize(Some(stored)).lastId, units))
    ensures forall u :: u in Pending(options, Initialize(Some(after)).lastId, units) ==> u in after
  {
    var w := Initialize(Some(stored)).lastId;
    var w' := Initialize(Some(after)).lastId;
    PendingMembers(options, w, units);
    PendingMembers(options, w', units);
    forall u | u in units && Skips(options, w, u)
      ensures Skips(options, w', u)
    {
      if after != stored {
        var v := after[|after| - 1];
        assert !Skips(options, w, v);
        LexLeTotal(w.value, Prefix(v));
        LexLeTrans(Prefix(u), w.value, Prefix(v));
      }
    }
  }

  /** In sweep mode the run is the sweep over the discovered migrations,
      from the state `initialize` sets up. */
  lemma SweepRun(options: Options, stored: Option<Rows>, listing: seq<string>, modules: Modules)
    requires !Targeted(options)
    ensures var r := Sweep(options, Initialize(stored), modules, GetMigrations(listing));
            var o := Run(options, stored, listing, modules);
            o.Finished? == r.Ok? && o.state == r.state
  {
  }

  /** After a finished up sweep, the watermark read back lets through only
      migrations the sweep left recorded. */
  lemma FirstRunRecords(options: Options, stored: Rows, listing: seq<string>, modules: Modules)
    requires options.direction == Up && !options.fake && !options.force && !Targeted(options)
    requires Run(options, Some(stored), listing, modules).Finished?
    ensures var after := Run(options, Some(stored), listing, modules).state.ledger;
            forall u :: u in Pending(options, Initialize(Some(after)).lastId, GetMigrations(listing)) ==> u in after
  {
    var units := GetMigrations(listing);
    var after := Run(options, Some(stored), listing, modules).state.ledger;
    var m := Initialize(Some(stored));
    SweepRun(options, Some(stored), listing, modules);
    UpSweepRecords(options, m, modules, units);
    NewWatermarkRecorded(options, stored, after, units);
  }

  /** An up sweep over a ledger that already records every migration its
      watermark lets through finishes, keeps the ledger and sends nothing. */
  lemma RecordedRun(options: Options, stored: Rows, listing: seq<string>, modules: Modules)
    requires options.direction == Up && !options.force && !Targeted(options)
    requires forall u :: u in Pending(options, Initialize(Some(stored)).lastId, GetMigrations(listing)) ==> u in stored
    ensures var o := Run(options, Some(stored), listing, modules);
            o.Finished? && o.state.ledger == stored && o.state.dispatched == []
  {
    SweepRun(options, Some(stored), listing, modules);
    RecordedSweep(options, Initialize(Some(stored)), modules, GetMigrations(listing));
  }

  /** Running the same unforced, non-fake up sweep a second time applies
      nothing, for every listing: the ledger stays as the first run left it
      and nothing reaches the executors. */
  lemma SecondSweepAppliesNothing(options: Options, stored: Rows, listing: seq<string>, modules: Modules)
    requires options.direction == Up && !options.fake && !options.force && !Targeted(options)
    requires Run(options, Some(stored), listing, modules).Finished?
    ensures var first := Run(options, Some(stored), listing, modules);
            var second := Run(options, Some(first.state.ledger), listing, modules);
            second.Finished? && second.state.ledger == first.state.ledger && second.state.dispatched == []
  {
    FirstRunRecords(options, stored, listing, modules);
    RecordedRun(options, Run(options, Some(stored), listing, modules).state.ledger, listing, modules);
  }
}
