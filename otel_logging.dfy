/** The pieces of Python's `logging` that the bootstrap edits: the root logger's
    handler list, the `werkzeug` logger's filter list, and the record rewrite of
    the custom OpenTelemetry handler.

    Handlers and filters are objects: Python's `addHandler`, `addFilter` and
    `removeFilter` compare them by identity, and so does `==` on Dafny classes. */
module OtelLogging {
  import opened OtelSdk

  datatype HandlerKind =
    | ExistingHandler                        // any handler Odoo installed before the bootstrap
    | OtelLogsHandler(format: string)        // CustomHandler (a LoggingHandler) with a DBFormatter

  class Handler {
    const kind: HandlerKind

    constructor (kind: HandlerKind)
      ensures this.kind == kind
    {
      this.kind := kind;
    }
  }

  datatype FilterKind =
    | PerfFilterKind         // odoo.netsvc.PerfFilter
    | MetricsFilterKind      // MetricsFilter, a subclass of PerfFilter
    | OtherFilterKind

  class Filter {
    const kind: FilterKind

    constructor (kind: FilterKind)
      ensures this.kind == kind
    {
      this.kind := kind;
    }
  }

  /** `isinstance(filt, PerfFilter)`: true of the MetricsFilter subclass as well. */
  predicate IsPerfFilter(f: Filter)
  {
    f.kind.PerfFilterKind? || f.kind.MetricsFilterKind?
  }

  /** The format string given to the handler's DBFormatter. */
  const DbLogFormat: string := "%(asctime)s %(pid)s %(levelname)s %(dbname)s %(name)s: %(message)s %(perf_info)s"

  predicate Distinct<T(==)>(s: seq<T>)
  {
    forall i, j :: 0 <= i < j < |s| ==> s[i] != s[j]
  }

  /** `addHandler` / `addFilter`: append unless the object is already in the list. */
  function AppendIfAbsent<T(==)>(s: seq<T>, x: T): (r: seq<T>)
    ensures x in s ==> r == s
    ensures x !in s ==> r == s + [x]
    ensures x in r
    ensures Distinct(s) ==> Distinct(r)
  {
    if x in s then s else s + [x]
  }

  // ---------------------------------------------------------------------------
  // Root handler reordering (otel_instrument_logs)

  /** The root handler list after `addHandler(h)` followed by
      `addHandler(handlers.pop(0))`. The pop cannot fail: the list holds `h`. */
  function Reordered(handlers: seq<Handler>, h: Handler): seq<Handler>
  {
    var added := AppendIfAbsent(handlers, h);
    AppendIfAbsent(added[1..], added[0])
  }

  /** On a list without repeats and a new handler, `[h0, h1..hn]` becomes
      `[h1..hn, h, h0]` and `[]` becomes `[h]`: the new handler runs after every
      handler but the first, which is moved to the end. */
  lemma ReorderedShape(handlers: seq<Handler>, h: Handler)
    requires Distinct(handlers) && h !in handlers
    ensures handlers == [] ==> Reordered(handlers, h) == [h]
    ensures handlers != [] ==> Reordered(handlers, h) == handlers[1..] + [h, handlers[0]]
    ensures |Reordered(handlers, h)| == |handlers| + 1
    ensures Distinct(Reordered(handlers, h))
  {
    var added := handlers + [h];
    assert AppendIfAbsent(handlers, h) == added;
    if handlers != [] {
      assert added[0] == handlers[0];
      assert added[1..] == handlers[1..] + [h];
      assert handlers[0] !in handlers[1..];
      assert handlers[1..] + [h] + [handlers[0]] == handlers[1..] + [h, handlers[0]];
    }
  }

  // ---------------------------------------------------------------------------
  // Werkzeug filter replacement (otel_instrument_http_metrics)

  /** `list.index(x)`: the position of the first element equal to `x`. */
  function FirstIndex<T(==)>(s: seq<T>, x: T): (k: nat)
    requires x in s
    ensures k < |s| && s[k] == x && x !in s[..k]
  {
    if s[0] == x then 0
    else
      var k := FirstIndex(s[1..], x);
      assert s[..k + 1] == [s[0]] + s[1..][..k];
      k + 1
  }

  /** `list.remove(x)`: drops the first element equal to `x`. */
  function RemoveFirst<T(==)>(s: seq<T>, x: T): (r: seq<T>)
    ensures x in s ==> |r| == |s| - 1
    ensures x in s ==> r == s[..FirstIndex(s, x)] + s[FirstIndex(s, x) + 1..]
    ensures x !in s ==> r == s
    ensures forall y :: y in r ==> y in s
  {
    if s == [] then []
    else if s[0] == x then s[1..]
    else
      var rest := RemoveFirst(s[1..], x);
      assert x in s[1..] ==> FirstIndex(s, x) == FirstIndex(s[1..], x) + 1;
      assert x in s[1..] ==> [s[0]] + s[1..][..FirstIndex(s[1..], x)] == s[..FirstIndex(s, x)];
      assert x in s[1..] ==> s[1..][FirstIndex(s[1..], x) + 1..] == s[FirstIndex(s, x) + 1..];
      [s[0]] + rest
  }

  /** `for filt in filters: if isinstance(filt, PerfFilter): removeFilter(filt)`,
      run from list position `i` on. Python's list iterator reads `filters[i]` and
      moves to `i + 1` whatever the body does, so removing the current element
      makes the next one slide under the cursor and go unexamined. */
  function RemoveLoop(filters: seq<Filter>, i: nat): seq<Filter>
    decreases |filters| - i
  {
    if i >= |filters| then filters
    else if IsPerfFilter(filters[i]) then RemoveLoop(RemoveFirst(filters, filters[i]), i + 1)
    else RemoveLoop(filters, i + 1)
  }

  /** Reference reading of that loop on a list without repeats: a non-PerfFilter is
      kept; a PerfFilter is removed and the element right after it is kept unexamined. */
  function Survivors(filters: seq<Filter>): seq<Filter>
  {
    if filters == [] then []
    else if !IsPerfFilter(filters[0]) then [filters[0]] + Survivors(filters[1..])
    else if |filters| == 1 then []
    else [filters[1]] + Survivors(filters[2..])
  }

  /** The filters that are not PerfFilters, in their order. */
  function NonPerf(filters: seq<Filter>): (r: seq<Filter>)
    ensures forall f :: f in r ==> f in filters && !IsPerfFilter(f)
  {
    if filters == [] then []
    else (if IsPerfFilter(filters[0]) then [] else [filters[0]]) + NonPerf(filters[1..])
  }

  /** On a list without repeats, `remove(s[k])` removes position `k`. */
  lemma {:induction false} RemoveFirstAt<T>(s: seq<T>, k: nat)
    requires Distinct(s) && k < |s|
    ensures RemoveFirst(s, s[k]) == s[..k] + s[k + 1..]
    decreases k
  {
    if k > 0 {
      assert s[1..][k - 1] == s[k];
      assert Distinct(s[1..]);
      RemoveFirstAt(s[1..], k - 1);
      assert s[0] != s[k];
      assert [s[0]] + (s[1..][..k - 1] + s[1..][k..]) == s[..k] + s[k + 1..];
    }
  }

  /** Removing an element keeps a list free of repeats. */
  lemma {:induction false} RemoveFirstDistinct<T>(s: seq<T>, x: T)
    requires Distinct(s)
    ensures Distinct(RemoveFirst(s, x))
  {
    if x in s {
      var k, r := FirstIndex(s, x), RemoveFirst(s, x);
      forall i, j | 0 <= i < j < |r|
        ensures r[i] != r[j]
      {
        assert r[i] == s[if i < k then i else i + 1];
        assert r[j] == s[if j < k then j else j + 1];
      }
    }
  }

  /** The loop only ever drops elements. */
  lemma {:induction false} RemoveLoopSubset(filters: seq<Filter>, i: nat)
    ensures forall f :: f in RemoveLoop(filters, i) ==> f in filters
    decreases |filters| - i
  {
    if i < |filters| {
      if IsPerfFilter(filters[i]) {
        RemoveLoopSubset(RemoveFirst(filters, filters[i]), i + 1);
      } else {
        RemoveLoopSubset(filters, i + 1);
      }
    }
  }

  /** The loop keeps a list free of repeats. */
  lemma {:induction false} RemoveLoopDistinct(filters: seq<Filter>, i: nat)
    requires Distinct(filters)
    ensures Distinct(RemoveLoop(filters, i))
    decreases |filters| - i
  {
    if i < |filters| {
      if IsPerfFilter(filters[i]) {
        RemoveFirstDistinct(filters, filters[i]);
        RemoveLoopDistinct(RemoveFirst(filters, filters[i]), i + 1);
      } else {
        RemoveLoopDistinct(filters, i + 1);
      }
    }
  }

  /** From position `i` on, the loop does what `Survivors` says. */
  lemma {:induction false} RemoveLoopIsSurvivors(filters: seq<Filter>, i: nat)
    requires Distinct(filters) && i <= |filters|
    ensures RemoveLoop(filters, i) == filters[..i] + Survivors(filters[i..])
    decreases |filters| - i
  {
    if i == |filters| {
      assert filters[..i] == filters;
    } else if !IsPerfFilter(filters[i]) {
      RemoveLoopIsSurvivors(filters, i + 1);
      SurvivorsKeptStep(filters, i);
    } else {
      var rest := RemoveFirst(filters, filters[i]);
      RemoveFirstAt(filters, i);
      RemoveFirstDistinct(filters, filters[i]);
      if i + 1 == |filters| {
        assert rest == filters[..i];
        assert filters[i..] == [filters[i]];
      } else {
        RemoveLoopIsSurvivors(rest, i + 1);
        SurvivorsRemovedStep(filters, i, rest);
      }
    }
  }

  /** One kept step: a non-PerfFilter at `i` moves from the unexamined part to the kept prefix. */
  lemma SurvivorsKeptStep(filters: seq<Filter>, i: nat)
    requires i < |filters| && !IsPerfFilter(filters[i])
    ensures filters[..i + 1] + Survivors(filters[i + 1..]) == filters[..i] + Survivors(filters[i..])
  {
    var suffix := filters[i..];
    assert suffix[0] == filters[i] && suffix[1..] == filters[i + 1..];
    assert Survivors(suffix) == [filters[i]] + Survivors(filters[i + 1..]);
    assert filters[..i + 1] == filters[..i] + [filters[i]];
  }

  /** One removing step: the PerfFilter at `i` is dropped and its successor skipped. */
  lemma SurvivorsRemovedStep(filters: seq<Filter>, i: nat, rest: seq<Filter>)
    requires i + 1 < |filters| && IsPerfFilter(filters[i])
    requires rest == filters[..i] + filters[i + 1..]
    ensures rest[..i + 1] + Survivors(rest[i + 1..]) == filters[..i] + Survivors(filters[i..])
  {
    var suffix := filters[i..];
    assert suffix[0] == filters[i] && suffix[1] == filters[i + 1] && suffix[2..] == filters[i + 2..];
    assert Survivors(suffix) == [filters[i + 1]] + Survivors(filters[i + 2..]);
    assert rest[..i + 1] == filters[..i] + [filters[i + 1]];
    assert rest[i + 1..] == filters[i + 2..];
  }

  /** Filters that are not PerfFilters all survive, in their original order. */
  lemma {:induction false} SurvivorsKeepNonPerf(filters: seq<Filter>)
    ensures NonPerf(Survivors(filters)) == NonPerf(filters)
    decreases |filters|
  {
    if filters != [] {
      if !IsPerfFilter(filters[0]) {
        SurvivorsKeepNonPerf(filters[1..]);
        assert ([filters[0]] + Survivors(filters[1..]))[1..] == Survivors(filters[1..]);
      } else if |filters| > 1 {
        SurvivorsKeepNonPerf(filters[2..]);
        assert ([filters[1]] + Survivors(filters[2..]))[1..] == Survivors(filters[2..]);
        assert filters[1..][1..] == filters[2..];
      }
    }
  }

  /** Two PerfFilters in a row: the second is never examined and stays. */
  lemma AdjacentPerfFilterSurvives(p: Filter, q: Filter)
    requires IsPerfFilter(p) && IsPerfFilter(q) && p != q
    ensures RemoveLoop([p, q], 0) == [q]
  {
    RemoveLoopIsSurvivors([p, q], 0);
    assert [p, q][2..] == [];
  }

  /** No two PerfFilters next to each other. */
  predicate NoAdjacentPerf(filters: seq<Filter>)
  {
    forall k :: 0 <= k < |filters| - 1 ==> !(IsPerfFilter(filters[k]) && IsPerfFilter(filters[k + 1]))
  }

  /** When no two PerfFilters are adjacent, every PerfFilter is removed. */
  lemma {:induction false} IsolatedPerfFiltersRemoved(filters: seq<Filter>)
    requires NoAdjacentPerf(filters)
    ensures Survivors(filters) == NonPerf(filters)
    decreases |filters|
  {
    if filters != [] {
      assert NoAdjacentPerf(filters[1..]);
      if !IsPerfFilter(filters[0]) {
        IsolatedPerfFiltersRemoved(filters[1..]);
      } else if |filters| > 1 {
        assert !IsPerfFilter(filters[1]);
        assert NoAdjacentPerf(filters[2..]);
        IsolatedPerfFiltersRemoved(filters[2..]);
        assert filters[1..][1..] == filters[2..];
      }
    }
  }

  /** Survivors are drawn from the list. */
  lemma {:induction false} SurvivorsFromList(filters: seq<Filter>)
    ensures forall f :: f in Survivors(filters) ==> f in filters
    decreases |filters|
  {
    if filters != [] {
      SurvivorsFromList(filters[1..]);
      if |filters| > 1 {
        SurvivorsFromList(filters[2..]);
      }
    }
  }

  /** On a list without repeats, the head does not recur further on. */
  lemma HeadNotInSuffix<T>(s: seq<T>, start: nat)
    requires Distinct(s) && 1 <= start <= |s|
    ensures s[0] !in s[start..]
  {
    forall j | 0 <= j < |s[start..]|
      ensures s[start..][j] != s[0]
    {
      assert s[start..][j] == s[start + j];
    }
  }

  /** A PerfFilter that survives sat right after another PerfFilter. */
  lemma {:induction false} SurvivingPerfFilterFollowsPerfFilter(filters: seq<Filter>, k: nat)
    requires Distinct(filters) && k < |filters|
    requires IsPerfFilter(filters[k]) && filters[k] in Survivors(filters)
    ensures k > 0 && IsPerfFilter(filters[k - 1])
    decreases |filters|
  {
    var f := filters[k];
    if !IsPerfFilter(filters[0]) {
      var tail := filters[1..];
      assert Survivors(filters) == [filters[0]] + Survivors(tail);
      assert k != 0;
      assert f != filters[0];
      assert f in Survivors(tail);
      assert Distinct(tail) && tail[k - 1] == f;
      SurvivingPerfFilterFollowsPerfFilter(tail, k - 1);
      assert tail[k - 2] == filters[k - 1];
    } else if k >= 2 {
      var tail := filters[2..];
      assert Survivors(filters) == [filters[1]] + Survivors(tail);
      assert f != filters[1];
      assert f in Survivors(tail);
      assert Distinct(tail) && tail[k - 2] == f;
      SurvivingPerfFilterFollowsPerfFilter(tail, k - 2);
      assert tail[k - 3] == filters[k - 1];
    } else if k == 0 {
      SurvivorsZeroHeadRemoved(filters);
      assert false;
    }
  }

  /** A PerfFilter at the head of the list never survives. */
  lemma SurvivorsZeroHeadRemoved(filters: seq<Filter>)
    requires Distinct(filters) && filters != [] && IsPerfFilter(filters[0])
    ensures filters[0] !in Survivors(filters)
  {
    if |filters| > 1 {
      var tail := filters[2..];
      assert Survivors(filters) == [filters[1]] + Survivors(tail);
      assert filters[0] != filters[1];
      HeadNotInSuffix(filters, 2);
      SurvivorsFromList(tail);
    }
  }

  // ---------------------------------------------------------------------------
  // CustomHandler.emit

  /** An exception object and what `str()` gives for it. */
  datatype PyException = PyException(className: string, text: string)

  /** `record.msg`: a string, an Exception instance, or some other object. */
  datatype Msg = TextMsg(text: string) | ExceptionMsg(exc: PyException) | OtherMsg(repr: string)

  datatype LogRecord = LogRecord(loggerName: string, level: int, msg: Msg)

  /** The record `CustomHandler.emit` passes on to `LoggingHandler.emit`: an
      exception message is replaced by its `str()`; anything else is left alone. */
  function Emit(record: LogRecord): (delivered: LogRecord)
    ensures delivered.loggerName == record.loggerName && delivered.level == record.level
    ensures record.msg.ExceptionMsg? ==> delivered.msg == TextMsg(record.msg.exc.text)
    ensures !record.msg.ExceptionMsg? ==> delivered == record
    ensures !delivered.msg.ExceptionMsg?
  {
    if record.msg.ExceptionMsg? then record.(msg := TextMsg(record.msg.exc.text)) else record
  }

  // ---------------------------------------------------------------------------
  // MetricsFilter.filter

  /** What `threading.current_thread()` carries: Odoo sets the counters only on
      request threads. Timestamps are taken as exact reals. */
  datatype ThreadCounters = NoCounters | Counters(queryCount: int, queryTime: real, perfT0: real)

  datatype GaugeSet = GaugeSet(gauge: string, value: real)

  /** The gauge updates of one `MetricsFilter.filter` call at time `now`, before
      it defers to `PerfFilter.filter`. */
  function MetricsFilterGauges(thread: ThreadCounters, now: real): (sets: seq<GaugeSet>)
    ensures thread.NoCounters? <==> sets == []
    ensures thread.Counters? ==>
      && |sets| == 3
      && sets[0] == GaugeSet(QueryCountGauge, thread.queryCount as real)
      && sets[1] == GaugeSet(QueryTimeGauge, thread.queryTime)
      && sets[2] == GaugeSet(RemainingTimeGauge, now - thread.perfT0 - thread.queryTime)
    ensures thread.Counters? ==> sets[1].value + sets[2].value == now - thread.perfT0
  {
    match thread
    case NoCounters => []
    case Counters(count, queryTime, t0) =>
      [GaugeSet(QueryCountGauge, count as real), GaugeSet(QueryTimeGauge, queryTime),
       GaugeSet(RemainingTimeGauge, now - t0 - queryTime)]
  }
}
