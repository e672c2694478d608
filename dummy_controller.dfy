/** The public `/dummy/...` HTTP routes of `MonitoringDummyController`. Each
    handler is a function from its path parameter to the calls it makes on the
    `monitoring.dummy` model, in order, and to how it ends: a body returned or
    an error raised. */
module DummyController {
  import DummyModel

  /** A call on `request.env["monitoring.dummy"]`. */
  datatype ModelCall =
    | PythonSleep(seconds: int)
    | PostgresSleep(seconds: int)
    | PostgresWork(iterations: int)

  datatype UserError = UserError(message: string)

  datatype Outcome = Returned(body: string) | Raised(error: UserError)

  datatype Handled = Handled(calls: seq<ModelCall>, outcome: Outcome)

  /** What `random.randrange(lo, hi)` may return: an integer with `lo <= x < hi`.
      The chosen value is an input of the model; only these bounds are known of it. */
  predicate RandRange(lo: int, hi: int, x: int)
  {
    lo <= x < hi
  }

  /** `max(2, seconds)`: the total duration `dummy_sleep` works with. */
  function SleepTotal(seconds: int): (s: int)
    ensures s >= 2 && s >= seconds
    ensures s == seconds || s == 2
  {
    if seconds < 2 then 2 else seconds
  }

  /** `max(1, iterations)`: the iteration count `dummy_database` passes on. */
  function DatabaseIterations(iterations: int): (n: int)
    ensures n >= 1 && n >= iterations
    ensures n == iterations || n == 1
  {
    if iterations < 1 then 1 else iterations
  }

  /** `randrange(1, SleepTotal(seconds))` always has a value to pick: the clamp
      is what keeps each route call from raising `ValueError`. */
  lemma SleepSplitPossible(seconds: int)
    ensures exists p :: RandRange(1, SleepTotal(seconds), p)
  {
    assert RandRange(1, SleepTotal(seconds), 1);
  }

  /** `/dummy/sleep/<seconds>`: the total is split into a Python part, the random
      pick, and a PostgreSQL part, the rest; the Python sleep is requested first. */
  function DummySleep(seconds: int, pythonSeconds: int): (h: Handled)
    requires RandRange(1, SleepTotal(seconds), pythonSeconds)
    ensures h.outcome == Returned("OK")
    ensures |h.calls| == 2 && h.calls[0].PythonSleep? && h.calls[1].PostgresSleep?
    ensures h.calls[0].seconds == pythonSeconds
    ensures 1 <= h.calls[0].seconds <= SleepTotal(seconds) - 1
    ensures 1 <= h.calls[1].seconds <= SleepTotal(seconds) - 1
    ensures h.calls[0].seconds + h.calls[1].seconds == SleepTotal(seconds)
  {
    var total := SleepTotal(seconds);
    var postgresSeconds := total - pythonSeconds;
    Handled([PythonSleep(pythonSeconds), PostgresSleep(postgresSeconds)], Returned("OK"))
  }

  /** `/dummy/database/<iterations>`: one call of `dummy_postgres_work` on `max(1, iterations)`. */
  function DummyDatabase(iterations: int): (h: Handled)
    ensures h.outcome == Returned("OK")
    ensures |h.calls| == 1 && h.calls[0].PostgresWork?
    ensures h.calls[0].iterations >= 1
    ensures iterations >= 1 ==> h.calls[0].iterations == iterations
    ensures h.calls[0].iterations == DatabaseIterations(iterations)
  {
    Handled([PostgresWork(DatabaseIterations(iterations))], Returned("OK"))
  }

  /** `/dummy/pass`: "OK", and nothing is called. */
  function DummyPass(): (h: Handled)
    ensures h.calls == [] && h.outcome == Returned("OK")
  {
    Handled([], Returned("OK"))
  }

  /** `/dummy/error`: always raises `UserError("ERROR")`, never returns a body, calls nothing. */
  function DummyError(): (h: Handled)
    ensures h.calls == [] && h.outcome == Raised(UserError("ERROR"))
  {
    Handled([], Raised(UserError("ERROR")))
  }

  /** The SQL statements a model call sends, as `monitoring.dummy` builds them. */
  function CallStatements(c: ModelCall): seq<string>
  {
    match c
    case PythonSleep(_) => []
    case PostgresSleep(s) => [DummyModel.SleepStatement(s)]
    case PostgresWork(n) => DummyModel.WorkStatements(n)
  }

  function HandledStatements(calls: seq<ModelCall>): seq<string>
  {
    if |calls| == 0 then [] else CallStatements(calls[0]) + HandledStatements(calls[1..])
  }

  /** A database request sends `max(1, iterations)` statements, for indices `0, 1, ...` in order. */
  lemma DatabaseRoundTrips(iterations: int)
    ensures |HandledStatements(DummyDatabase(iterations).calls)| == DatabaseIterations(iterations)
    ensures forall k :: 0 <= k < DatabaseIterations(iterations) ==>
      HandledStatements(DummyDatabase(iterations).calls)[k] == DummyModel.WorkStatement(k)
  {
    var calls := DummyDatabase(iterations).calls;
    assert calls[1..] == [];
    assert HandledStatements(calls) == DummyModel.WorkStatements(DatabaseIterations(iterations)) + [];
    forall k | 0 <= k < DatabaseIterations(iterations)
      ensures HandledStatements(calls)[k] == DummyModel.WorkStatement(k)
    {
      DummyModel.WorkStatementsAt(DatabaseIterations(iterations), k);
    }
  }

  /** A sleep request sends one statement, sleeping in PostgreSQL for the rest of the total. */
  lemma SleepRoundTrips(seconds: int, pythonSeconds: int)
    requires RandRange(1, SleepTotal(seconds), pythonSeconds)
    ensures HandledStatements(DummySleep(seconds, pythonSeconds).calls)
      == [DummyModel.SleepStatement(SleepTotal(seconds) - pythonSeconds)]
  {
    var calls := DummySleep(seconds, pythonSeconds).calls;
    var stmt := DummyModel.SleepStatement(SleepTotal(seconds) - pythonSeconds);
    assert calls[1..][1..] == [];
    assert HandledStatements(calls[1..]) == [stmt] + [];
    assert HandledStatements(calls) == [] + HandledStatements(calls[1..]);
  }
}
