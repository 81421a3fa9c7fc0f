/**
 Concrete runs over the repository's example migrations
 (`0001_user_email`, which defines only `up`, and `0002_tweet_user`, which
 defines both directions) and over the example models.
 */
module Scenarios {
  import opened Wrappers
  import opened Names
  import opened Discovery
  import opened Ledger
  import opened Operations
  import opened Migrator
  import opened MigratorProperties
  import opened Generator

  const UserEmail: string := "0001" + "_user_email"
  const TweetUser: string := "0002" + "_tweet_user"

  /** The example migrations directory, as imported modules. */
  function ExampleModules(): Modules {
    map[
      UserEmail := Module(
        Some(CallsBack([Structural("add_column users email"), Structural("add_index users email")])),
        None),
      TweetUser := Module(
        Some(CallsBack([Structural("add_column tweet user_id")])),
        Some(CallsBack([Structural("drop_column tweet user_id")])))
    ]
  }

  /** A listing of the example directory, out of order and with `__init__`.
      `pkgutil.iter_modules` would yield the two migrations sorted and drop
      `__init__` itself; this listing makes discovery do both. */
  const Listing: seq<string> := [TweetUser, "__init__", UserEmail]

  function SweepOptions(direction: Direction, force: bool): Options {
    Options(direction, None, false, force, true)
  }

  /** A digit run followed by an underscore splits at the underscore. */
  lemma {:induction false} DigitsThenUnderscore(d: string, rest: string)
    requires AllDigits(d) && |rest| > 0 && rest[0] == '_'
    ensures LeadingDigits(d + rest) == |d|
    ensures Prefix(d + rest) == d
  {
    if |d| > 0 {
      assert (d + rest)[1..] == d[1..] + rest;
      DigitsThenUnderscore(d[1..], rest);
    } else {
      assert d + rest == rest;
    }
  }

  lemma ExampleNames()
    ensures IsMigrationName(UserEmail) && IsMigrationName(TweetUser) && !IsMigrationName("__init__")
    ensures Prefix(UserEmail) == "0001" && Prefix(TweetUser) == "0002"
  {
    NameShape(UserEmail, "0001", "_user_email");
    NameShape(TweetUser, "0002", "_tweet_user");
    NotAMigrationName("__init__");
  }

  /** A digit run, an underscore and a word character make a migration name
      whose prefix is the digit run. */
  lemma NameShape(name: string, d: string, rest: string)
    requires name == d + rest && AllDigits(d) && |d| >= 1
    requires |rest| >= 2 && rest[0] == '_' && IsWordChar(rest[1])
    ensures IsMigrationName(name) && Prefix(name) == d
  {
    DigitsThenUnderscore(d, rest);
    assert name[|d|] == rest[0] && name[|d| + 1] == rest[1];
  }

  /** Leading zeros do not change `int(...)`. */
  lemma LeadingZero(s: string)
    requires AllDigits(s) && |s| > 0 && s[0] == '0'
    ensures Value(s) == Value(s[1..])
  {
    assert DigitValue(s[0]) == 0;
  }

  lemma PaddedValue(s: string, c: char)
    requires s == ['0', '0', '0', c] && IsDigit(c)
    ensures AllDigits(s) && Value(s) == DigitValue(c)
  {
    LeadingZero(s);
    LeadingZero(s[1..]);
    LeadingZero(s[2..]);
    assert s[3..] == [c];
  }

  lemma ExampleKeys()
    ensures IsMigrationName(UserEmail) && IsMigrationName(TweetUser)
    ensures Key(UserEmail) == 1 && Key(TweetUser) == 2
  {
    ExampleNames();
    PaddedValue("0001", '1');
    PaddedValue("0002", '2');
  }

  /** A name that does not start with a digit is not a migration. */
  lemma NotAMigrationName(s: string)
    requires |s| > 0 && !IsDigit(s[0])
    ensures !IsMigrationName(s)
  {
  }

  lemma MatchingOfThree(a: string, b: string, c: string)
    requires IsMigrationName(a) && !IsMigrationName(b) && IsMigrationName(c)
    ensures Matching([a, b, c]) == [a, c]
  {
    assert [a, b, c][1..] == [b, c];
    assert [b, c][1..] == [c];
    assert [c][1..] == [];
    assert Matching([c]) == [c] + Matching([]);
    assert Matching([b, c]) == [c];
    assert Matching([a, b, c]) == [a] + [c];
  }

  /** Discovery drops the non-migration name and orders the two migrations
      by number. */
  lemma ExampleDiscovery(listing: seq<string>)
    requires listing == Listing
    ensures GetMigrations(listing) == [UserEmail, TweetUser]
  {
    var t: MigrationName, u: MigrationName := TweetUser, UserEmail by {
      ExampleNames();
    }
    assert Matching(listing) == [t, u] by {
      ExampleNames();
      MatchingOfThree(t, "__init__", u);
    }
    assert Sort([t, u], Key) == [u, t] by {
      ExampleKeys();
      SortOfTwo(t, u, Key);
    }
  }

  lemma ExampleWatermarks()
    ensures LexLe(Prefix(UserEmail), "0001") && LexLe(Prefix(TweetUser), "0002") && LexLe(Prefix(UserEmail), "0002")
    ensures !LexLe(Prefix(TweetUser), "0001")
  {
    ExampleNames();
    LexLeReflexive("0001");
    LexLeReflexive("0002");
    LastCharDecides("000", '1', '2');
    LastCharDecides("000", '2', '1');
  }

  /** Strings that differ only in their last character compare by it. */
  lemma {:induction false} LastCharDecides(p: string, x: char, y: char)
    ensures LexLe(p + [x], p + [y]) <==> x <= y
  {
    if |p| > 0 {
      assert (p + [x])[1..] == p[1..] + [x];
      assert (p + [y])[1..] == p[1..] + [y];
      LastCharDecides(p[1..], x, y);
    } else {
      assert [x][1..] == [y][1..];
      LexLeReflexive([x][1..]);
    }
  }

  lemma ExampleModuleFacts(modules: Modules)
    requires modules == ExampleModules()
    ensures Completes(modules, Up, UserEmail) && Completes(modules, Up, TweetUser)
    ensures Completes(modules, Down, TweetUser)
    ensures UserEmail in modules && modules[UserEmail].down.None?
  {
    assert UserEmail[3] != TweetUser[3];
  }

  /** A missing table and an empty one start the same run. */
  lemma MissingTableIsEmpty(options: Options, listing: seq<string>, modules: Modules)
    ensures Run(options, None, listing, modules) == Run(options, Some([]), listing, modules)
  {
    assert Initialize(None) == Initialize(Some([]));
  }

  lemma PendingOfTwo(options: Options, lastId: Option<string>, a: string, b: string)
    ensures Pending(options, lastId, [a, b]) ==
            (if Skips(options, lastId, a) then [] else [a]) + (if Skips(options, lastId, b) then [] else [b])
  {
    assert [a, b][1..] == [b];
    assert [b][1..] == [];
    assert Pending(options, lastId, [b]) == (if Skips(options, lastId, b) then [] else [b]);
  }

  /** The scenarios below take the rows, the listing and the modules as
      parameters equal to the example, which keeps the verifier from
      unfolding the runner over literal data. */
  lemma ExampleListing(listing: seq<string>)
    requires listing == Listing
    ensures GetMigrations(listing) == [UserEmail, TweetUser]
    ensures Unique(listing) && PaddedTo(listing, 4)
    ensures Prefix(UserEmail) == "0001" && Prefix(TweetUser) == "0002" && UserEmail != TweetUser
  {
    ExampleNames();
    ExampleDiscovery(listing);
    ListingUnique(listing);
    ListingPadded(listing);
  }

  lemma ListingUnique(listing: seq<string>)
    requires listing == Listing
    ensures Unique(listing)
  {
    assert UserEmail[3] != TweetUser[3];
    assert UserEmail[0] != '_' && TweetUser[0] != '_';
  }

  lemma ListingPadded(listing: seq<string>)
    requires listing == Listing
    ensures PaddedTo(listing, 4)
  {
    ExampleNames();
    NotAMigrationName("__init__");
    PaddedThree(TweetUser, "__init__", UserEmail, 4);
  }

  lemma PaddedThree(a: string, b: string, c: string, width: nat)
    requires |Prefix(a)| == width && !IsMigrationName(b) && |Prefix(c)| == width
    ensures PaddedTo([a, b, c], width)
  {
  }

  /** `migrate()` on a database without the table applies both migrations
      in number order and reports two. */
  lemma FreshSweep(listing: seq<string>, modules: Modules)
    requires listing == Listing && modules == ExampleModules()
    ensures var o := Run(SweepOptions(Up, false), None, listing, modules);
            o.Finished? && o.state.ledger == [UserEmail, TweetUser] &&
            o.state.attempted == [UserEmail, TweetUser] && o.report == MigrationsRun(2)
  {
    ExampleListing(listing);
    ExampleModuleFacts(modules);
    EmptyLedgerSweep(SweepOptions(Up, false), listing, modules);
    MissingTableIsEmpty(SweepOptions(Up, false), listing, modules);
  }

  /** Running the sweep again over the ledger the first run left applies
      nothing and reports "already upto date". */
  lemma SecondSweep(listing: seq<string>, modules: Modules)
    requires listing == Listing && modules == ExampleModules()
    ensures var first := Run(SweepOptions(Up, false), None, listing, modules);
            var second := Run(SweepOptions(Up, false), Some(first.state.ledger), listing, modules);
            second.Finished? && second.report == AlreadyUpToDate &&
            second.state.ledger == [UserEmail, TweetUser] && second.state.dispatched == []
  {
    var options := SweepOptions(Up, false);
    ExampleListing(listing);
    FreshSweep(listing, modules);
    MissingTableIsEmpty(options, listing, modules);
    SecondSweepIsUpToDate(options, [], listing, modules, 4);
  }

  /** A sweep over a ledger holding only the first of two migrations skips
      that one by the watermark and applies the second. */
  lemma RecordedFirstIsSkipped(options: Options, stored: Rows, listing: seq<string>, modules: Modules, a: string, b: string)
    requires options.direction == Up && !options.fake && !options.force && !Targeted(options)
    requires stored == [a] && Unique(listing) && GetMigrations(listing) == [a, b]
    requires !LexLe(Prefix(b), Prefix(a))
    requires Completes(modules, Up, b)
    ensures var o := Run(options, Some(stored), listing, modules);
            o.Finished? && o.state.ledger == [a, b] && o.state.attempted == [b] && o.report == MigrationsRun(1)
  {
    SecondPending(options, stored, a, b);
    CompletedSweep(options, stored, listing, modules);
  }

  /** With only `a` applied, `b` alone passes the watermark. */
  lemma SecondPending(options: Options, stored: Rows, a: string, b: string)
    requires !options.force && stored == [a] && !LexLe(Prefix(b), Prefix(a))
    ensures Pending(options, Initialize(Some(stored)).lastId, [a, b]) == [b] && b !in stored
  {
    LexLeReflexive(Prefix(a));
    assert Initialize(Some(stored)).lastId == Some(Prefix(a));
    PendingOfTwo(options, Some(Prefix(a)), a, b);
  }

  /** With `0001` recorded, the sweep skips it by the watermark and applies
      only `0002`. */
  lemma PartialLedgerSweep(stored: Rows, listing: seq<string>, modules: Modules)
    requires stored == [UserEmail] && listing == Listing && modules == ExampleModules()
    ensures var o := Run(SweepOptions(Up, false), Some(stored), listing, modules);
            o.Finished? && o.state.ledger == [UserEmail, TweetUser] &&
            o.state.attempted == [TweetUser] && o.report == MigrationsRun(1)
  {
    ExampleListing(listing);
    ExampleModuleFacts(modules);
    ExampleWatermarks();
    RecordedFirstIsSkipped(SweepOptions(Up, false), stored, listing, modules, UserEmail, TweetUser);
  }

  /** `migrate(direction="down", migration="0001_user_email")`: the module
      defines no `down`, so the run raises and the ledger keeps its rows. */
  lemma TargetedDownUndefined(stored: Rows, listing: seq<string>, modules: Modules)
    requires stored == [UserEmail, TweetUser] && listing == Listing && modules == ExampleModules()
    ensures var o := Run(Options(Down, Some(UserEmail), false, false, true), Some(stored), listing, modules);
            o.Raised? && o.failure == DirectionUndefined(UserEmail, Down) && o.failure.IsMigrationException() &&
            o.state.ledger == stored && o.state.dispatched == []
  {
    ExampleModuleFacts(modules);
  }

  /** A forced sweep attempts the lowest-numbered migration first, in
      either direction; when that one lacks the direction, the run raises
      before any other is attempted. */
  lemma ForcedSweepStopsAtFirst(options: Options, stored: Rows, listing: seq<string>, modules: Modules, a: string)
    requires !Targeted(options) && options.force && !options.fake
    requires |GetMigrations(listing)| > 0 && GetMigrations(listing)[0] == a
    requires a in modules && DirectionFunction(modules[a], options.direction).None?
    ensures var o := Run(options, Some(stored), listing, modules);
            o.Raised? && o.failure == DirectionUndefined(a, options.direction) &&
            o.state.attempted == [a] && o.state.ledger == stored && o.state.dispatched == []
  {
    var m := Initialize(Some(stored));
    var units := GetMigrations(listing);
    assert !Skips(options, m.lastId, units[0]);
    assert ApplyMigration(options, m, modules, a).Failed?;
    assert Sweep(options, m, modules, units) == ApplyMigration(options, m, modules, a);
  }

  /** A forced down sweep walks the migrations in ascending order too, so it
      stops at `0001`, which has no `down`, before reaching `0002`. */
  lemma ForcedDownSweep(stored: Rows, listing: seq<string>, modules: Modules)
    requires stored == [UserEmail, TweetUser] && listing == Listing && modules == ExampleModules()
    ensures var o := Run(SweepOptions(Down, true), Some(stored), listing, modules);
            o.Raised? && o.failure == DirectionUndefined(UserEmail, Down) &&
            o.state.attempted == [UserEmail] && o.state.ledger == stored && o.state.dispatched == []
  {
    ExampleListing(listing);
    ExampleModuleFacts(modules);
    ForcedSweepStopsAtFirst(SweepOptions(Down, true), stored, listing, modules, UserEmail);
  }

  /** A sweep that is not forced does nothing, in either direction, when
      the ledger's last row carries the higher of two prefixes. */
  lemma CoveredSweep(options: Options, stored: Rows, listing: seq<string>, modules: Modules, a: string, b: string)
    requires !Targeted(options) && !options.force
    requires stored == [a, b] && GetMigrations(listing) == [a, b] && LexLe(Prefix(a), Prefix(b))
    ensures var o := Run(options, Some(stored), listing, modules);
            o.Finished? && o.report == AlreadyUpToDate && o.state.ledger == stored
  {
    CoveredPair(options, stored, a, b);
    NothingPendingIsUpToDate(options, stored, listing, modules);
  }

  /** Two applied rows in order leave nothing pending for an unforced sweep
      when the first prefix is at or below the second. */
  lemma CoveredPair(options: Options, stored: Rows, a: string, b: string)
    requires !options.force && stored == [a, b] && LexLe(Prefix(a), Prefix(b))
    ensures Pending(options, Initialize(Some(stored)).lastId, [a, b]) == []
  {
    assert Initialize(Some(stored)).lastId == Some(Prefix(b));
    LexLeReflexive(Prefix(b));
    PendingOfTwo(options, Some(Prefix(b)), a, b);
  }

  /** Without `force`, the down sweep is stopped by the watermark: every
      applied migration is at or below it, so nothing runs. */
  lemma UnforcedDownSweep(stored: Rows, listing: seq<string>, modules: Modules)
    requires stored == [UserEmail, TweetUser] && listing == Listing && modules == ExampleModules()
    ensures var o := Run(SweepOptions(Down, false), Some(stored), listing, modules);
            o.Finished? && o.report == AlreadyUpToDate && o.state.ledger == stored
  {
    ExampleListing(listing);
    ExampleWatermarks();
    CoveredSweep(SweepOptions(Down, false), stored, listing, modules, UserEmail, TweetUser);
  }

  /** A targeted run that applies its migration still reports "already upto
      date" unless forced: the targeted path never counts. */
  lemma TargetedUpReportsUpToDate(listing: seq<string>, modules: Modules)
    requires listing == Listing && modules == ExampleModules()
    ensures var o := Run(Options(Up, Some(UserEmail), false, false, true), None, listing, modules);
            o.Finished? && o.report == AlreadyUpToDate && o.state.ledger == [UserEmail] &&
            o.state.dispatched == [ToBackend("add_column users email"), ToBackend("add_index users email")]
  {
    var options := Options(Up, Some(UserEmail), false, false, true);
    ExampleModuleFacts(modules);
    ApplySucceeds(options, Initialize(None), modules, UserEmail);
  }

  /** A fake forced run over an applied migration takes the early return:
      nothing is previewed and nothing changes. */
  lemma FakeForcedReturnsEarly(stored: Rows, listing: seq<string>, modules: Modules)
    requires stored == [UserEmail] && listing == Listing && modules == ExampleModules()
    ensures var o := Run(Options(Up, Some(UserEmail), true, true, true), Some(stored), listing, modules);
            o.Finished? && o.report == MigrationsRun(0) && o.state.ledger == stored &&
            o.state.operations.None? && o.state.dispatched == []
  {
  }

  /** A non-forced up sweep over a ledger whose last row's prefix sorts
      below an earlier row's as strings re-attempts that earlier row: it is
      skipped by the early return, yet counted, so the run does not report
      "already upto date". */
  lemma StaleWatermarkRecounts(options: Options, stored: Rows, listing: seq<string>, modules: Modules, a: string, b: string)
    requires options.direction == Up && !options.fake && !options.force && !Targeted(options)
    requires stored == [a, b] && GetMigrations(listing) == [a, b]
    requires !LexLe(Prefix(a), Prefix(b))
    ensures var o := Run(options, Some(stored), listing, modules);
            o.Finished? && o.report == MigrationsRun(1) && o.state.attempted == [a] &&
            o.state.ledger == stored && o.state.dispatched == []
  {
    StalePair(options, stored, modules, a, b);
  }

  /** The sweep of `StaleWatermarkRecounts`: `a` passes the watermark, takes
      the early return and is counted; `b` is at the watermark. */
  lemma StalePair(options: Options, stored: Rows, modules: Modules, a: string, b: string)
    requires options.direction == Up && !options.fake && !options.force
    requires stored == [a, b] && !LexLe(Prefix(a), Prefix(b))
    ensures var m := Initialize(Some(stored));
            Sweep(options, m, modules, [a, b]) == Ok(m.(attempted := [a], migrationsRun := 1))
  {
    var m := Initialize(Some(stored));
    assert m.lastId == Some(Prefix(b));
    assert !Skips(options, m.lastId, a);
    assert ReturnsEarly(options, m.ledger, a);
    SweepStep(options, m, modules, [a, b]);
    assert [a, b][1..] == [b];
    LexLeReflexive(Prefix(b));
    PendingOfTwo(options, m.lastId, a, b);
    SweepOfNothing(options, m.(attempted := [a], migrationsRun := 1), modules, [b]);
  }

  const Nine: string := "9" + "_a"
  const Ten: string := "10" + "_b"

  lemma MatchingOfTwo(a: string, b: string)
    requires IsMigrationName(a) && IsMigrationName(b)
    ensures Matching([a, b]) == [a, b]
  {
    assert [a, b][1..] == [b];
    assert [b][1..] == [];
    assert Matching([b]) == [b] + Matching([]);
    assert Matching([a, b]) == [a] + [b];
  }

  lemma UnpaddedNames()
    ensures IsMigrationName(Nine) && IsMigrationName(Ten)
    ensures Prefix(Nine) == "9" && Prefix(Ten) == "10" && Nine != Ten
    ensures Key(Nine) == 9 && Key(Ten) == 10
    ensures !LexLe(Prefix(Nine), Prefix(Ten))
  {
    NameShape(Nine, "9", "_a");
    NameShape(Ten, "10", "_b");
    assert Value("10") == DigitValue('1') * 10 + Value("0");
  }

  lemma UnpaddedListing(listing: seq<string>)
    requires listing == [Ten, Nine]
    ensures GetMigrations(listing) == [Nine, Ten]
  {
    var t: MigrationName, u: MigrationName := Ten, Nine by {
      UnpaddedNames();
    }
    assert Matching(listing) == [t, u] by {
      UnpaddedNames();
      MatchingOfTwo(t, u);
    }
    assert Sort([t, u], Key) == [u, t] by {
      UnpaddedNames();
      SortOfTwo(t, u, Key);
    }
  }

  /** `9_a` and `10_b`, both applied: the sweep compares "9" with the
      watermark "10" as strings, re-attempts `9_a` and reports one migration
      run, although nothing was executed. No module is even imported. */
  lemma UnpaddedRerun(stored: Rows, listing: seq<string>, modules: Modules)
    requires stored == [Nine, Ten] && listing == [Ten, Nine] && modules == map[]
    ensures var o := Run(SweepOptions(Up, false), Some(stored), listing, modules);
            o.Finished? && o.report == MigrationsRun(1) && o.state.attempted == [Nine] &&
            o.state.ledger == stored && o.state.dispatched == []
  {
    UnpaddedNames();
    UnpaddedListing(listing);
    StaleWatermarkRecounts(SweepOptions(Up, false), stored, listing, modules, Nine, Ten);
  }
}
