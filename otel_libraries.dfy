/** `otel_instrument_libraries` and its registry `otel_library_instrumentation`:
    a comma-separated list of library names, each looked up in a registry of two
    instrumentations. What each name does to the process is given here as pure
    functions; the loop itself is `OtelWorker.Process.InstrumentLibraries`. */
module OtelLibraries {
  import opened PyStrings
  import opened OtelSdk

  datatype Library = Wsgi | Psycopg2

  /** `otel_library_instrumentation`: exactly two entries. */
  const Registry: map<string, Library> := map["wsgi" := Wsgi, "psycopg2" := Psycopg2]

  /** The registry maps "wsgi" to the WSGI instrumentation and "psycopg2" to the
      psycopg2 instrumentation, and knows no other name. */
  lemma RegistryEntries()
    ensures Registry.Keys == {"wsgi", "psycopg2"}
    ensures Registry["wsgi"] == Wsgi && Registry["psycopg2"] == Psycopg2
  {
  }

  /** `odoo.http.root`: Odoo's WSGI application, or it wrapped by a synthesized
      subclass of OpenTelemetryMiddleware, once per `otel_instrument_wsgi` call. */
  datatype Application = OdooApplication | OtelMiddleware(inner: Application)

  function Wrapped(app: Application, n: nat): Application
  {
    if n == 0 then app else OtelMiddleware(Wrapped(app, n - 1))
  }

  /** Set by `otel_instrument_wsgi` before it wraps the application. */
  const SemconvOptIn: string := "OTEL_SEMCONV_STABILITY_OPT_IN"

  function InstrumentingMessage(name: string): string
  {
    "Instrumenting library '" + name + "'"
  }

  function NotFoundMessage(name: string): string
  {
    "Instrumentation for library '" + name + "' not found"
  }

  /** The events one name produces: an info line and the instrumentation for a
      registered name (wsgi changes process state only, psycopg2 calls the
      instrumentor), a warning for any other. */
  function NameEvents(name: string): seq<Event>
  {
    if name in Registry then
      [LogInfo(InstrumentingMessage(name))] + (if Registry[name] == Psycopg2 then [InstrumentPsycopg2] else [])
    else [LogWarning(NotFoundMessage(name))]
  }

  /** The events of processing `names` from left to right. */
  function LibraryEvents(names: seq<string>): seq<Event>
  {
    if names == [] then [] else NameEvents(names[0]) + LibraryEvents(names[1..])
  }

  /** Processing splits at any point: the first names' events, then the rest's. */
  lemma {:induction false} LibraryEventsAppend(a: seq<string>, b: seq<string>)
    ensures LibraryEvents(a + b) == LibraryEvents(a) + LibraryEvents(b)
    decreases |a|
  {
    if a == [] {
      assert a + b == b;
    } else {
      assert (a + b)[1..] == a[1..] + b;
      LibraryEventsAppend(a[1..], b);
    }
  }

  /** A single name's events. */
  lemma LibraryEventsSingle(name: string)
    ensures LibraryEvents([name]) == NameEvents(name)
  {
    assert LibraryEvents([name]) == NameEvents(name) + LibraryEvents([]);
  }

  /** An unregistered name (the empty one, one with surrounding spaces, ...) yields a
      single warning and nothing else, and the names after it are still processed. */
  lemma UnknownNameSkipped(a: seq<string>, name: string, b: seq<string>)
    requires name !in Registry
    ensures LibraryEvents(a + [name] + b) == LibraryEvents(a) + [LogWarning(NotFoundMessage(name))] + LibraryEvents(b)
  {
    LibraryEventsAppend(a + [name], b);
    LibraryEventsAppend(a, [name]);
    LibraryEventsSingle(name);
  }

  /** The psycopg2 instrumentor is called once per occurrence of "psycopg2": names are
      not de-duplicated. */
  lemma {:induction false} Psycopg2CallCount(names: seq<string>)
    ensures Count(LibraryEvents(names), InstrumentPsycopg2) == Count(names, "psycopg2")
    decreases |names|
  {
    if names != [] {
      var first := names[0];
      Psycopg2CallCount(names[1..]);
      CountAppend(NameEvents(first), LibraryEvents(names[1..]), InstrumentPsycopg2);
      if first in Registry {
        var info := [LogInfo(InstrumentingMessage(first))];
        if Registry[first] == Psycopg2 {
          assert first == "psycopg2";
          CountAppend(info, [InstrumentPsycopg2], InstrumentPsycopg2);
        } else {
          assert first != "psycopg2";
        }
      }
    }
  }

  /** No registry key is empty or starts or ends with a space, so such a name only
      draws a warning. */
  lemma PaddedNameSkipped(name: string)
    requires name == "" || name[0] == ' ' || name[|name| - 1] == ' '
    ensures NameEvents(name) == [LogWarning(NotFoundMessage(name))]
  {
  }

  /** Names are used exactly as `split(",")` gives them: in "a, b" the second name
      is " b", which only draws a warning (so "wsgi, psycopg2" leaves psycopg2
      uninstrumented). */
  lemma SpaceAfterCommaNotTrimmed(a: string, b: string)
    requires ',' !in a && ',' !in b
    ensures Split(a + ", " + b, ',') == [a, " " + b]
    ensures LibraryEvents(Split(a + ", " + b, ',')) == NameEvents(a) + [LogWarning(NotFoundMessage(" " + b))]
  {
    var padded := " " + b;
    assert a + ", " + b == a + [','] + padded;
    SplitAtSeparator(a, padded, ',');
    SplitWithoutSeparator(padded, ',');
    PaddedNameSkipped(padded);
    assert [a, padded][1..] == [padded];
    LibraryEventsSingle(padded);
  }
}
