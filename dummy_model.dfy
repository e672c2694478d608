/** The `monitoring.dummy` model: methods that put load on the Python process
    and on PostgreSQL. The database cursor is a log of the SQL statements
    executed through it; `time.sleep` requests are a log of durations. */
module DummyModel {
  import opened PyStrings

  /** `self.env.cr`: every `execute` appends its statement to the log. */
  class Cursor {
    var executed: seq<string>

    constructor ()
      ensures executed == []
    {
      executed := [];
    }

    method Execute(query: string)
      modifies this
      ensures executed == old(executed) + [query]
    {
      executed := executed + [query];
    }
  }

  /** The statement `dummy_postgres_sleep(seconds)` sends. */
  function SleepStatement(seconds: int): string
  {
    "SELECT PG_SLEEP(" + IntToString(seconds) + ")"
  }

  /** The tuple `f"({i})"`; `j` plays no part in it. */
  function Tuple(i: nat): string
  {
    "(" + NatToString(i) + ")"
  }

  /** `",".join([f"({i})" for j in range(i, i+10)])`: ten copies of the same tuple. */
  function ValuesList(i: nat): string
  {
    Join(Repeat(Tuple(i), 10), ",")
  }

  /** Text of the triple-quoted f-string around the VALUES list, whitespace included. */
  const WorkPrefix: string := "\n                SELECT SUM(value)\n                FROM (VALUES "
  const WorkSuffix: string := ")\n                AS v(value)\n            "

  /** The statement iteration `i` of `dummy_postgres_work` sends. */
  function WorkStatement(i: nat): string
  {
    WorkPrefix + ValuesList(i) + WorkSuffix
  }

  /** The statements `dummy_postgres_work(iterations)` sends, in order:
      one per index of `range(iterations)`, which is empty when `iterations <= 0`. */
  function WorkStatements(iterations: int): (r: seq<string>)
    ensures |r| == if iterations <= 0 then 0 else iterations
  {
    if iterations <= 0 then [] else WorkStatements(iterations - 1) + [WorkStatement(iterations - 1)]
  }

  /** Statement `k` of the sequence is the one for loop index `k`. */
  lemma {:induction false} WorkStatementsAt(iterations: int, k: nat)
    requires k < iterations
    ensures WorkStatements(iterations)[k] == WorkStatement(k)
    decreases iterations
  {
    if k < iterations - 1 {
      WorkStatementsAt(iterations - 1, k);
    }
  }

  class MonitoringDummy {
    const cr: Cursor
    /** Durations passed to `time.sleep`, in request order. */
    var sleeps: seq<int>

    constructor (cr: Cursor)
      ensures this.cr == cr && sleeps == []
    {
      this.cr := cr;
      sleeps := [];
    }

    /** `dummy_python_sleep`: one sleep of `seconds`, no SQL. */
    method DummyPythonSleep(seconds: int)
      modifies this
      ensures sleeps == old(sleeps) + [seconds]
      ensures cr.executed == old(cr.executed)
    {
      sleeps := sleeps + [seconds];
    }

    /** `dummy_postgres_sleep`: exactly one statement, `SELECT PG_SLEEP(<seconds>)`. */
    method DummyPostgresSleep(seconds: int)
      modifies cr
      ensures cr.executed == old(cr.executed) + [SleepStatement(seconds)]
      ensures sleeps == old(sleeps)
    {
      cr.Execute(SleepStatement(seconds));
    }

    /** `dummy_postgres_work`: one aggregation statement per loop index, in index order
        (statement `i` of `WorkStatements(iterations)` is `WorkStatement(i)`, by
        `WorkStatementsAt`). */
    method DummyPostgresWork(iterations: int)
      modifies cr
      ensures cr.executed == old(cr.executed) + WorkStatements(iterations)
      ensures sleeps == old(sleeps)
    {
      var statements := WorkStatements(iterations);
      var i := 0;
      while i < |statements|
        invariant 0 <= i <= |statements|
        invariant cr.executed == old(cr.executed) + statements[..i]
      {
        cr.Execute(statements[i]);
        assert statements[..i + 1] == statements[..i] + [statements[i]];
        i := i + 1;
      }
      assert statements[..i] == statements;
    }
  }

  /** Neither digits nor parentheses contain a comma. */
  lemma TupleLacksComma(i: nat)
    ensures ',' !in Tuple(i)
  {
  }

  /** Split back on commas, the VALUES list of statement `i` is ten tuples, each `(i)`. */
  lemma ValuesListTuples(i: nat)
    ensures Split(ValuesList(i), ',') == Repeat(Tuple(i), 10)
    ensures Count(ValuesList(i), ',') == 9
  {
    TupleLacksComma(i);
    SplitJoin(Repeat(Tuple(i), 10), ',');
    JoinSeparatorCount(Repeat(Tuple(i), 10), ',');
  }

  /** Every tuple of statement `i` holds the value `i`. */
  lemma TupleValue(i: nat)
    ensures Tuple(i)[1..|Tuple(i)| - 1] == NatToString(i)
    ensures ParseInt(Tuple(i)[1..|Tuple(i)| - 1]) == i
  {
    assert Tuple(i)[1..|Tuple(i)| - 1] == NatToString(i);
    IntToStringRoundTrip(i);
  }

  /** The PG_SLEEP argument reads back as the requested number of seconds. */
  lemma SleepStatementArgument(seconds: int)
    ensures SleepStatement(seconds)[16..|SleepStatement(seconds)| - 1] == IntToString(seconds)
    ensures ParseInt(SleepStatement(seconds)[16..|SleepStatement(seconds)| - 1]) == seconds
  {
    assert |"SELECT PG_SLEEP("| == 16;
    assert SleepStatement(seconds)[16..|SleepStatement(seconds)| - 1] == IntToString(seconds);
    IntToStringRoundTrip(seconds);
  }

  /** Different loop indices give different statements. */
  lemma WorkStatementsDistinct(i: nat, j: nat)
    requires WorkStatement(i) == WorkStatement(j)
    ensures i == j
  {
    var p, s := WorkPrefix, WorkSuffix;
    assert ValuesList(i) == WorkStatement(i)[|p|..|WorkStatement(i)| - |s|];
    assert ValuesList(j) == WorkStatement(j)[|p|..|WorkStatement(j)| - |s|];
    ValuesListTuples(i);
    ValuesListTuples(j);
    assert Tuple(i) == Repeat(Tuple(i), 10)[0] == Repeat(Tuple(j), 10)[0] == Tuple(j);
    TupleValue(i);
    TupleValue(j);
  }
}
