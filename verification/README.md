# landfill: a Dafny model of the migration runner and the schema-diff generator

landfill is a small migration tool for the peewee ORM. This project models
two parts of it.

- **The migration runner `CustomMigrator`.** It works out which migrations
  are applied and in what order, what each migration sends to the database,
  and how the `Migration` ledger table changes.
- **The `Generator`.** It compares the tables that the model classes declare
  with the tables introspected from the database, and emits paired up/down
  steps.

The database, the schema backend and the module loader become inputs:

- the ledger rows as stored (`None` when the table does not exist yet);
- the directory listing of the migrations package;
- a map from migration name to the module that imports under it;
- an oracle for whether a field's source definition can be found.

Files:

| file | module | models |
|---|---|---|
| wrappers.dfy | Wrappers | `Option` |
| names.dfy | Names | the `\d+_[\w\d]+` pattern, `split("_")[0]`, `int()`, and Python 2 byte-string `<=` |
| discovery.dfy | Discovery | `get_migrations`: filter, then Python's stable `sorted`, modelled by a stable insertion sort, which gives the same result |
| ledger.dfy | Ledger | the `Migration` table: rows in `id` order, names unique |
| operations.dfy | Operations | the steps a migration passes back; `execute_operation`; `raw_query` |
| migrator.dfy | Migrator | `initialize`, `apply_migration`, `run`, `migrate()` |
| migrator_props.dfy | MigratorProperties | properties over whole runs: skip rule, ledger effects, up-then-down, idempotence under padding |
| rerun.dfy | Rerun | running the same up sweep twice: the second run applies nothing, for every listing |
| generator.dfy | Generator | `COLUMN_DIRECTION`, `get_tables`, `generate_definition`, `Generator.run` |
| generator_scenarios.dfy | GeneratorScenarios | concrete diffs |
| scenarios.dfy | Scenarios | runs over the two example migrations and other concrete cases |

## Where the behaviour follows the code

The model follows the code as written. In particular:

- **The already-applied guard.** `apply_migration` returns early for an
  `up` over an applied name when `not force or fake` holds. A run that is
  both forced and fake is therefore still skipped.
- **`self.operations` is never cleared.** A direction function that never
  calls the migrator back replays the previous migration's steps. If it is
  the first one, the run fails on iterating `None`. That failure is a
  TypeError, not a `MigrationException`, and the model marks it as
  `NothingCollected`.
- **The watermark is a string.** It is the `split("_")[0]` prefix of the
  most recently inserted row. The sweep compares it with `<=` on strings,
  so `"10" <= "9"` holds. Zero-padded names (`0001_…`) make the string
  order agree with the numeric order.
- **An empty ledger skips nothing.** With the watermark `None`, the sweep
  skips nothing, because Python 2's `str <= None` is false.
- **Truthiness selects the mode.** `if self.migration:` picks targeted
  mode, so an empty migration name sweeps.
- **Targeted runs never count.** A targeted run leaves `migrations_run` at
  0. An unforced targeted run therefore reports "already upto date" even
  after it applied its migration.
- **Down sweeps ascend.** A down sweep walks the migrations in ascending
  order and is cut off by the watermark like an up sweep.
- **`transaction` is unused.** It is accepted and never read.
- **A fake run still creates the ledger table.** `initialize` creates the
  `Migration` table whenever it is missing, fake or not
  (landfill.py:119-120). The model reads a missing table as an empty one,
  so this write is not visible in any state. "A fake run changes nothing"
  below means the rows and the executors, not this table creation.
- **The diff compares field names.** The generator compares the *keys* of
  `_meta.fields`. It keeps only model classes with more than one field.

## Model

Definitions without a contract of their own, used by the members below:
`Migrator.Targeted` is `if self.migration:` (landfill.py:132);
`Migrator.Skips` is the watermark test (landfill.py:139);
`Migrator.ReturnsEarly` is the already-applied guard (landfill.py:168-172);
`Migrator.Collected` is what `self.operations` holds after the direction
function ran (landfill.py:111-112, 188); `Migrator.Summary` is the closing
report (landfill.py:144-147); `Discovery.Key` is the sort key
`int(name.split("_")[0])` (landfill.py:408); `Generator.Kept` is the filter
of `get_tables` (landfill.py:280-281); `Migrator.Pending` is the sweep's skip
filter, the units the loop does not `continue` past (landfill.py:138-140);
`Migrator.DirectionFunction` is `getattr(module, self.direction)`
(landfill.py:180, 188); `Names.IsMigrationName` is `pattern.match(name)`
(landfill.py:403-405); `Names.Value` is `int()` of a digit string
(landfill.py:408); `Names.LexLe` is Python 2's byte-string `<=`
(landfill.py:139); `Generator.Undo` is the `down` step built from
`COLUMN_DIRECTION` (landfill.py:350-352); `Generator.LastModelFor` is the
reference reading of the `get_tables` comprehension, the last kept model per
table (landfill.py:278-282).

| member | source | states |
|---|---|---|
| Names.LeadingDigits | landfill.py:403 | the length of the maximal run of digits at the start of a name: everything before it is a digit, the next character is not |
| Names.MigrationNameIsRegexMatch | landfill.py:403-405 | the deterministic scanner accepts a name exactly when the backtracking reading of `\d+_[\w\d]+`, anchored at the start, matches it |
| Names.Prefix | landfill.py:124 | `split("_")[0]` is a prefix of the name, contains no underscore, and is followed by an underscore when shorter than the name |
| Names.PrefixOfMigrationName | landfill.py:408 | for a migration name the split prefix is the non-empty leading digit run that `int()` parses |
| Names.ValueBound | landfill.py:408 | `int()` of an n-digit string is below 10^n |
| Names.LexLeReflexive | landfill.py:139 | every prefix is `<=` itself under byte-string order |
| Names.LexLeTotal | landfill.py:139 | any two prefixes compare one way or the other under byte-string `<=` |
| Names.LexLeTrans | landfill.py:139 | byte-string `<=` is transitive |
| Names.PaddedOrderIsNumeric | landfill.py:139 | on digit strings of equal width, string `<=` holds exactly when the numeric values compare `<=` |
| Names.UnpaddedOrderIsNotNumeric | landfill.py:139 | without padding the orders disagree: "10" sorts below "9" as strings, though 10 > 9 |
| Discovery.Matching | landfill.py:403-406 | keeps exactly the listed names that match the migration pattern |
| Discovery.MatchingSingle | landfill.py:404-406 | a single name is kept exactly when it matches the pattern |
| Discovery.MatchingAppend | landfill.py:404-406 | the filter distributes over concatenation, so it keeps the listing's order and multiplicity |
| Discovery.Insert | landfill.py:408 | inserting into a key-sorted sequence keeps it sorted and adds exactly one element |
| Discovery.Sort | landfill.py:408 | `sorted` returns a permutation of its input in non-decreasing key order |
| Discovery.SortIsStable | landfill.py:408 | for every key, the elements with that key keep their input order (`sorted` is stable) |
| Discovery.GetMigrations | landfill.py:398-408 | the result holds exactly the matching names of the listing, as a permutation, sorted by integer prefix, with equal prefixes in listing order; non-matching names are dropped |
| Discovery.SortOfTwo | landfill.py:408 | two names come out swapped exactly when the second has the smaller key |
| Ledger.LastRow | landfill.py:123 | the most recently inserted row is absent exactly when the table is empty, and occurs nowhere else in it |
| Ledger.Create | landfill.py:78-79 | `Migration.create` of a new name appends it at the end and becomes the last row; the unique index admits only an absent name |
| Ledger.Delete | landfill.py:197-198 | `delete_instance` removes exactly the row with that name and keeps the other rows in their `id` order; deleting a name the table does not hold changes nothing |
| Ledger.DeleteUndoesCreate | landfill.py:78-79 | creating a row and then deleting it restores the table |
| Operations.RawQuery | landfill.py:114-115 | `raw_query` returns the SQL string unchanged, as a raw step |
| Operations.ExecuteOperation | landfill.py:149-160 | a fake run only previews and never raises; otherwise a peewee `Operation` goes to the backend, a `str` to the SQL executor, and anything else raises; raising happens exactly when not fake and the step is neither |
| Operations.ExecuteAll | landfill.py:190-191 | runs the steps in order, one executor call per step, and stops exactly at the first unsupported step; a fake run dispatches nothing |
| Operations.RawQueryIsVerbatim | landfill.py:114-115 | a raw query reaches the SQL executor verbatim |
| Migrator.Initialize | landfill.py:105-124 | a missing table starts empty; the watermark is absent exactly when the ledger is empty, and otherwise is the prefix of the last inserted row; nothing has been run or collected |
| Migrator.Record | landfill.py:193-198 | after a non-fake run, `up` adds the name only when absent (a re-run never duplicates it) and `down` removes it only when present, keeping the other rows in their `id` order |
| Migrator.ApplyMigration | landfill.py:162-203 | every call is logged as an attempt; an `up` over an applied name returns early, changing nothing, unless `force and not fake`; an unimportable name raises "not found" and a missing direction raises "not defined", leaving the ledger alone; a fake run touches neither the ledger nor the executors; a success dispatches every collected step and records the name; the unsupported-step raise is stated by `MigratorProperties.UnknownOperationRaises` |
| Migrator.Sweep | landfill.py:135-142 | a completed sweep attempted and counted exactly the units that passed the watermark, in order, and never moves the watermark |
| Migrator.SweepStep | landfill.py:138-142 | a unit that passes the watermark is applied; a failure ends the sweep, otherwise the sweep continues with the count raised by one |
| Migrator.SweepFailure | landfill.py:138-142 | a sweep that raises attempted a non-empty prefix of the pending units, ending with the one that raised, and counted all the others; later units are not attempted |
| Migrator.FakeSweepIsDryRun | landfill.py:151-152 | a fake sweep leaves the ledger and the executors untouched |
| Migrator.Run | landfill.py:423-439 | a targeted run attempts only the named migration, counts nothing, and reports "already upto date" unless forced; a sweep that finishes has attempted and counted exactly the pending units and reports "already upto date" exactly when none was pending and it was not forced; a fake run changes neither the ledger nor the executors |
| MigratorProperties.PendingMembers | landfill.py:138-140 | a unit is attempted exactly when it is listed and not skipped by `not force and prefix <= last_id` |
| MigratorProperties.NothingSkipped | landfill.py:139 | with `force`, or with no watermark (`str <= None` is false), nothing is skipped |
| MigratorProperties.PendingAppend | landfill.py:138-140 | the skip rule looks at each unit on its own, so it distributes over concatenation |
| MigratorProperties.SweepOfNothing | landfill.py:138-142 | a sweep in which every unit is skipped changes nothing |
| MigratorProperties.ApplyIgnoresWatermark | landfill.py:132-133 | targeted mode never reads the watermark: the outcome is the same whatever `last_id` is |
| MigratorProperties.SweepIgnoresTransaction | landfill.py:434 | the `transaction` option does not change a sweep |
| MigratorProperties.TransactionIsIgnored | landfill.py:429-439 | the `transaction` option does not change a run |
| MigratorProperties.ApplyIgnoresTransaction | landfill.py:434 | the `transaction` option does not change `apply_migration` |
| MigratorProperties.UpThenDown | landfill.py:193-198 | a targeted `up` followed by a targeted `down` of one name leaves it out of the ledger, and leaves the ledger exactly as before when the name was new |
| MigratorProperties.DownDeletes | landfill.py:197-198 | a successful targeted `down` deletes its row, if there is one |
| MigratorProperties.UpRecords | landfill.py:195-196 | a successful targeted `up` leaves its name in the ledger, appended when it was new |
| MigratorProperties.TargetedRun | landfill.py:132-133 | a targeted run is exactly `apply_migration` of the named migration |
| MigratorProperties.UnknownOperationRaises | landfill.py:149-160 | `apply_migration` raises "Can't determine type of operation to run" exactly when it passes the early return, imports, finds the direction, is not fake and a collected step is neither structural nor raw SQL; the steps before it stay sent and the ledger is untouched |
| MigratorProperties.ApplySucceeds | landfill.py:177-198 | a migration that imports, defines the direction and passes only structural or raw steps completes, and its steps become the collected operations |
| MigratorProperties.SweepSucceeds | landfill.py:138-142 | a sweep whose every pending unit completes finishes without raising |
| MigratorProperties.ForcedRerun | landfill.py:169-174 | a forced, non-fake `up` over an applied name replays every step and does not insert a second row |
| MigratorProperties.SilentMigrationReplaysPrevious | landfill.py:106-112 | a direction function that never calls back replays the previous migration's steps, or fails on `None` with an error that is not a `MigrationException` |
| MigratorProperties.MatchingUnique | landfill.py:404-406 | filtering a listing without repeats gives names without repeats |
| MigratorProperties.UniqueByCount | landfill.py:78-79 | a sequence has no repeats exactly when every element occurs at most once in its multiset |
| MigratorProperties.DiscoveredUnique | landfill.py:398-408 | a listing without repeats yields migrations without repeats |
| MigratorProperties.PendingUnique | landfill.py:138-140 | the pending units of a list without repeats have no repeats |
| MigratorProperties.SweepAppendsPending | landfill.py:138-142 | an up sweep over new, distinct pending units appends exactly them to the ledger, in order |
| MigratorProperties.ApplyAppends | landfill.py:195-196 | a successful up of a new name appends it to the ledger |
| MigratorProperties.PendingNone | landfill.py:139-140 | when every unit is skipped, nothing is pending |
| MigratorProperties.WatermarkCovers | landfill.py:139 | a padded watermark at or above the last sorted unit's prefix skips every unit |
| MigratorProperties.LastUnitPasses | landfill.py:139 | with padded prefixes, when anything passes the watermark the last unit does |
| MigratorProperties.NewWatermarkCovers | landfill.py:123-124 | with padded prefixes, the prefix of the last pending unit, as the next run's watermark, skips every unit |
| MigratorProperties.WatermarkAfter | landfill.py:123-124 | after rows are appended, the watermark read back is the prefix of the last appended row |
| MigratorProperties.CompletedSweep | landfill.py:131-147 | an up sweep whose pending units are new and all complete appends them to the ledger and reports how many ran |
| MigratorProperties.EmptyLedgerSweep | landfill.py:131-147 | on an empty ledger an up sweep applies every discovered migration in order |
| MigratorProperties.FirstSweepAppends | landfill.py:131-147 | a finished up sweep over new pending units leaves the ledger extended by exactly those units |
| MigratorProperties.SecondSweepIsUpToDate | landfill.py:131-147 | idempotence under zero-padding: running the same up sweep again changes nothing, dispatches nothing and reports "already upto date" |
| Rerun.UpStep | landfill.py:169-198 | one applied unit of an unforced, non-fake up sweep ends up recorded, loses no row, and leaves the ledger unchanged or ending with its name |
| Rerun.UpSweepRecords | landfill.py:138-142 | a finished up sweep records every unit that passed the watermark, keeps every row, and leaves the ledger unchanged or ending with one of those units |
| Rerun.RecordedSweep | landfill.py:138-142 | when every unit that passes the watermark is already recorded, the unforced up sweep finishes without changing the ledger or sending anything |
| Rerun.NewWatermarkRecorded | landfill.py:123-139 | the watermark read back after such a sweep is the old one or a prefix above it, so it lets through only recorded units |
| Rerun.SweepRun | landfill.py:134-142 | in sweep mode the run is the sweep over the discovered migrations from the initial state |
| Rerun.FirstRunRecords | landfill.py:117-147 | after a finished up sweep, the next run's watermark lets through only migrations the ledger records |
| Rerun.RecordedRun | landfill.py:117-147 | an up run over a ledger that records every migration its watermark lets through finishes, keeps the ledger and sends nothing |
| Rerun.SecondSweepAppliesNothing | landfill.py:117-147 | for every listing, running the same unforced, non-fake up sweep again finishes, keeps the ledger the first run left, and sends nothing; whether it also reports "already upto date" needs zero-padding (`MigratorProperties.SecondSweepIsUpToDate`, `Scenarios.UnpaddedRerun`) |
| MigratorProperties.PaddedWatermarkCovers | landfill.py:123-124 | after appending the pending units of a padded listing, the new watermark leaves nothing pending |
| MigratorProperties.PaddedUnits | landfill.py:398-408 | every migration discovered in a padded listing has a prefix of that width |
| MigratorProperties.NothingPendingIsUpToDate | landfill.py:144-147 | an unforced sweep with nothing pending changes nothing and reports "already upto date" |
| Generator.ColumnDirection | landfill.py:53-58 | `COLUMN_DIRECTION` keeps the step kind for `up` and gives a different kind, of the same class (column or table), for `down` |
| Generator.ColumnDirectionIsInvolution | landfill.py:53-58 | the inverse of the inverse step is the original step |
| Generator.Lookup | landfill.py:308 | a table found in the map is stored under that name; a table is absent exactly when no model has it |
| Generator.LookupFinds | landfill.py:278 | in a table map, looking up a model's own table finds that model |
| Generator.Put | landfill.py:278 | storing a model under its table makes it the one found there and leaves every other table as it was |
| Generator.GetTables | landfill.py:274-282 | the map holds, for each table, the last model class with more than one field, and only such models |
| Generator.AppendPaired | landfill.py:315-328 | concatenating two paired results keeps every up step paired with its undo |
| Generator.GenerateDefinition | landfill.py:340-354 | a field whose definition is found gives one up step of its kind and the down step that undoes it; one not found gives nothing |
| Generator.ColumnSteps | landfill.py:317-322 | the up column steps are exactly the steps of the listed columns whose definitions are found, each paired with its undo |
| Generator.Missing | landfill.py:313-314 | the set difference: names of the first collection absent from the second |
| Generator.TableDiff | landfill.py:306-328 | the steps of one model table are paired: each up step has its undo at the same position of `down` |
| Generator.TableDiffSteps | landfill.py:306-328 | for one model table: if the database has it, the up steps are `add_column` for added fields and `drop_column` for deleted ones, when found; otherwise a single `create_table` |
| Generator.Generate | landfill.py:305-328 | every up step emitted by `run` is paired with the down step that undoes it |
| Generator.GenerateSteps | landfill.py:305-354 | the up column steps are exactly the found added fields (as `add_column`) and the found deleted fields (as `drop_column`) of tables on both sides; the up table steps are exactly `create_table` for the model tables the database lacks; tables only in the database give nothing |
| GeneratorScenarios.OneColumnAdded | landfill.py:313-318 | one model table with one field more than the database gives one `add_column`/`drop_column` pair when found, and nothing otherwise |
| GeneratorScenarios.UsersGainedEmail | landfill.py:340-354 | `users` gaining `email` gives the pair when the definition is found and nothing when it is not |
| GeneratorScenarios.NewTable | landfill.py:324-328 | a table the database lacks gives `create_table` up and `drop_table` down |
| Scenarios.ExampleDiscovery | landfill.py:398-408 | an arbitrary listing of the example names, out of order and with `__init__` in it, loses `__init__`, and `0001_user_email` sorts before `0002_tweet_user` |
| Scenarios.FreshSweep | landfill.py:117-147 | on a database without the table, the sweep applies both example migrations and reports two |
| Scenarios.SecondSweep | landfill.py:131-147 | sweeping again over what the first run left reports "already upto date" |
| Scenarios.PartialLedgerSweep | landfill.py:139 | with `0001` recorded, only `0002` is applied |
| Scenarios.TargetedDownUndefined | landfill.py:180-183 | `down` of `0001_user_email`, which defines only `up`, raises a `MigrationException` and changes nothing |
| Scenarios.ForcedDownSweep | landfill.py:135-142 | a forced down sweep starts with `0001_user_email` and raises on it before `0002` is attempted |
| Scenarios.UnforcedDownSweep | landfill.py:139 | an unforced down sweep over a full ledger is cut off by the watermark and reports "already upto date" |
| Scenarios.TargetedUpReportsUpToDate | landfill.py:144-147 | a targeted `up` that applies its migration still reports "already upto date" |
| Scenarios.FakeForcedReturnsEarly | landfill.py:171-172 | a forced fake `up` over an applied migration returns early and collects nothing |
| Scenarios.StaleWatermarkRecounts | landfill.py:139-142 | when the last row's prefix sorts below an earlier row's, that earlier row is re-attempted, returns early, and is counted |
| Scenarios.UnpaddedRerun | landfill.py:139 | with `9_a` and `10_b` applied, the watermark "10" lets `9_a` through again, so the run reports one migration |
| Scenarios.MissingTableIsEmpty | landfill.py:119-120 | a missing `Migration` table and an empty one start the same run |

## Left out

- **Database I/O and foreign calls.** These are `Migration.table_exists`,
  `create_table`, the queries, `playhouse.migrate.migrate` and
  `execute_sql`. The ledger is an input and the executors are a log of
  dispatched calls. Failures of the backend or of SQL execution are not
  modelled: every dispatched statement is assumed to succeed.
- **The module loader.** `importlib.import_module` is a map from name to
  module. An ImportError raised from inside a migration's own body (as
  opposed to a missing module) is not modelled.
- **Direction functions.** A direction function is "calls back with these
  steps" or "never calls back". Arbitrary Python in a migration body is not
  modelled.
- **`fake_print`.** The monkey-patch of `Operation.__str__` is reflection
  over peewee internals and only produces preview text.
- **`Capturing`, `get_pwiz_tables`, `get_field` and `get_model_source`.**
  These redirect stdout, write temporary files, load source and search
  source text. Whether a definition is found is the input `known`.
- **`GENERATE_TEMPLATE` and `COLUMN_DEFINITION` text.** Steps are datatype
  values, not Python source.
- **Output.** This covers `cprint`, logging, and the final `print` of the
  generated template.
- **Plumbing.** The dialect subclasses and `DATABASE_MAP` are
  multiple-inheritance plumbing. `validate_args` only does isinstance checks.
- **Iteration order.** The iteration order of Python dicts and sets is
  unspecified. The model fixes one order: fields as a duplicate-free
  sequence, table maps as sequences with distinct table names, and set
  differences in the order of their left operand.
- Operations.RawQuery: `Raw` and the argument of `RawQuery` stand for a
  Python 2 byte `str`. A `unicode` statement, such as `raw_query(u"...")`
  under `unicode_literals`, fails `isinstance(op, str)` at landfill.py:157.
  It is an `Other` step and raises, so `Operations.RawQueryIsVerbatim`
  covers byte strings only.
- Discovery.GetMigrations: any listing is accepted. `pkgutil.iter_modules`
  in Python 2.7 yields module names sorted, each once and without
  `__init__`. That is why the lemmas may require a listing without repeats.
- Generator.GenerateDefinition: the column is identified by its field key.
  The source formats the steps with `db_column` (landfill.py:351-352), which
  pwiz may name differently.
- Migrator.ApplyMigration: the failure on `None` is modelled as the value
  `NothingCollected` rather than a Python exception object.
- The example CLI (example/migrate.py), setup.py and the peewee declarations
  in example/models.py are not part of this model.
