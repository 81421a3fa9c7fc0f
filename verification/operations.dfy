/**
 The steps a migration hands to the migrator, and `execute_operation`, which
 sends each one to the schema backend (`playhouse.migrate.migrate`) or to the
 database's raw SQL executor. The two executors are not modelled; what they
 were sent is recorded as a `Dispatched` entry.
 */
module Operations {

  /** What a migration may pass to the migrator: a peewee `Operation`, a
      Python 2 byte `str` of raw SQL, or any other value. A `unicode`
      statement fails `isinstance(op, str)` and is `Other`. */
  datatype Op = Structural(description: string) | Raw(sql: string) | Other

  /** One call into an executor. */
  datatype Dispatched = ToBackend(description: string) | ToDatabase(sql: string)

  /** What one `execute_operation` call does. */
  datatype Effect =
    | Sent(call: Dispatched)  // handed to an executor
    | Previewed               // fake run: printed only, returns False
    | Unsupported             // raises MigrationException

  /** `raw_query`: a raw statement travels as the SQL string itself. The
      argument stands for a byte `str`; `raw_query` of a `unicode` string
      returns a step that is `Other`. */
  function RawQuery(sql: string): (op: Op)
    ensures op.Raw? && op.sql == sql
  {
    Raw(sql)
  }

  /** `d` is the executor call that carries `op`. */
  predicate Carries(d: Dispatched, op: Op) {
    match op
    case Structural(x) => d == ToBackend(x)
    case Raw(s) => d == ToDatabase(s)
    case Other => false
  }

  /** `execute_operation`: a fake run dispatches and raises nothing, whatever
      the step; otherwise a structural step goes to the backend, a string to
      the SQL executor, and anything else raises. */
  function ExecuteOperation(fake: bool, op: Op): (e: Effect)
    ensures fake <==> e.Previewed?
    ensures e.Sent? ==> Carries(e.call, op)
    ensures e.Unsupported? <==> !fake && op.Other?
  {
    if fake then Previewed
    else match op
      case Structural(x) => Sent(ToBackend(x))
      case Raw(s) => Sent(ToDatabase(s))
      case Other => Unsupported
  }

  /** The outcome of the loop `for op in self.operations: execute_operation(op)`. */
  datatype Execution = Execution(dispatched: seq<Dispatched>, rejected: bool)

  /** Runs the steps in order and stops at the first one that raises. */
  function ExecuteAll(fake: bool, ops: seq<Op>): (x: Execution)
    ensures fake ==> x.dispatched == [] && !x.rejected
    ensures !fake ==> |x.dispatched| <= |ops|
    ensures !fake ==> forall i :: 0 <= i < |x.dispatched| ==> Carries(x.dispatched[i], ops[i])
    ensures !fake && !x.rejected ==> |x.dispatched| == |ops|
    ensures x.rejected ==> !fake && |x.dispatched| < |ops| && ops[|x.dispatched|].Other?
    ensures x.rejected <==> !fake && exists i :: 0 <= i < |ops| && ops[i].Other?
  {
    if ops == [] then Execution([], false)
    else match ExecuteOperation(fake, ops[0])
      case Previewed => ExecuteAll(fake, ops[1..])
      case Unsupported => Execution([], true)
      case Sent(d) =>
        var rest := ExecuteAll(fake, ops[1..]);
        assert forall i :: 0 < i < |ops| ==> ops[i] == ops[1..][i - 1];
        Execution([d] + rest.dispatched, rest.rejected)
  }

  /** A raw statement built with `raw_query` reaches the SQL executor verbatim. */
  lemma RawQueryIsVerbatim(sql: string)
    ensures ExecuteOperation(false, RawQuery(sql)) == Sent(ToDatabase(sql))
    ensures ExecuteAll(false, [RawQuery(sql)]) == Execution([ToDatabase(sql)], false)
  {
  }
}
