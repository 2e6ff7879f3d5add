/** The processor over a stream of driver events: `Run` feeds the events to
    `Step` in order. The lemmas state what whole streams do. */
module Scenarios {
  import opened Optional
  import opened MetaCache
  import opened SqlText
  import opened Tracing
  import opened Processor

  function Run(parse: ConnStringParser, st: State, events: seq<Event>): State
    decreases |events|
  {
    if |events| == 0 then st else Run(parse, Step(parse, st, events[0]), events[1..])
  }

  /** The connection ids of the ConnectionOpened events of a stream. */
  function OpenedIds(events: seq<Event>): set<Int64>
    decreases |events|
  {
    if |events| == 0 then {}
    else (if events[0].ConnectionOpened? then {events[0].connId} else {}) + OpenedIds(events[1..])
  }

  /** Running two streams one after the other is running their concatenation. */
  lemma {:induction false} RunAppend(parse: ConnStringParser, st: State, first: seq<Event>, second: seq<Event>)
    ensures Run(parse, st, first + second) == Run(parse, Run(parse, st, first), second)
    decreases |first|
  {
    if |first| > 0 {
      assert (first + second)[0] == first[0];
      assert (first + second)[1..] == first[1..] + second;
      RunAppend(parse, Step(parse, st, first[0]), first[1..], second);
    } else {
      assert first + second == second;
    }
  }

  /** A stream of one event is one step. */
  lemma RunOne(parse: ConnStringParser, st: State, e: Event)
    ensures Run(parse, st, [e]) == Step(parse, st, e)
  {
    assert [e][1..] == [];
  }

  /** A stream of two events is two steps. */
  lemma RunTwo(parse: ConnStringParser, st: State, e1: Event, e2: Event)
    ensures Run(parse, st, [e1, e2]) == Step(parse, Step(parse, st, e1), e2)
  {
    assert [e1, e2][1..] == [e2];
    RunOne(parse, Step(parse, st, e1), e2);
  }

  /** A stream of three events is three steps. */
  lemma RunThree(parse: ConnStringParser, st: State, e1: Event, e2: Event, e3: Event)
    ensures Run(parse, st, [e1, e2, e3]) == Step(parse, Step(parse, Step(parse, st, e1), e2), e3)
  {
    assert [e1, e2, e3][1..] == [e2, e3];
    RunTwo(parse, Step(parse, st, e1), e2, e3);
  }

  /** First-writer-wins over any stream: a cached entry is never replaced or
      evicted, whatever ConnectionOpened or ConnectionClosed events follow. */
  lemma {:induction false} CachedEntriesAreStable(parse: ConnStringParser, st: State, events: seq<Event>, key: Int64)
    requires key in st.cache
    ensures key in Run(parse, st, events).cache
    ensures Run(parse, st, events).cache[key] == st.cache[key]
    decreases |events|
  {
    if |events| > 0 {
      CachedEntriesAreStable(parse, Step(parse, st, events[0]), events[1..], key);
    }
  }

  /** Every cache entry a stream adds comes from one of its ConnectionOpened
      events. */
  lemma {:induction false} CacheKeysComeFromConnectionOpened(parse: ConnStringParser, st: State, events: seq<Event>)
    ensures Run(parse, st, events).cache.Keys <= st.cache.Keys + OpenedIds(events)
    decreases |events|
  {
    if |events| > 0 {
      CacheKeysComeFromConnectionOpened(parse, Step(parse, st, events[0]), events[1..]);
    }
  }

  /** A QueryOpened on a connection id that was never cached and never
      opened in the stream before it opens no span and changes nothing. */
  lemma QueryOnUnopenedConnectionIsNoOp(parse: ConnStringParser, st: State, events: seq<Event>, id: Int64, sql: Option<string>)
    requires id !in st.cache && id !in OpenedIds(events)
    ensures Run(parse, st, events + [QueryOpened(id, sql)]) == Run(parse, st, events)
  {
    RunAppend(parse, st, events, [QueryOpened(id, sql)]);
    CacheKeysComeFromConnectionOpened(parse, st, events);
  }

  /** Released spans stay released: a stream only appends to them. */
  lemma {:induction false} ReleasedOnlyGrows(parse: ConnStringParser, st: State, events: seq<Event>)
    ensures st.ambient.released <= Run(parse, st, events).ambient.released
    decreases |events|
  {
    if |events| > 0 {
      var next := Step(parse, st, events[0]);
      ReleasedOnlyGrows(parse, next, events[1..]);
    }
  }

  /** Only QueryOpened creates spans: a stream without one never adds to the
      number of active plus released spans. */
  lemma {:induction false} NoQueryOpenedNoNewSpan(parse: ConnStringParser, st: State, events: seq<Event>)
    requires forall i :: 0 <= i < |events| ==> !events[i].QueryOpened?
    ensures var r := Run(parse, st, events);
      |r.ambient.active| + |r.ambient.released| == |st.ambient.active| + |st.ambient.released|
    decreases |events|
  {
    if |events| > 0 {
      var next := Step(parse, st, events[0]);
      if events[0].QueryClosed? && |st.ambient.active| > 0 {
        var top := st.ambient.active[|st.ambient.active| - 1];
        assert |next.ambient.active + [top]| == |st.ambient.active|;
      }
      NoQueryOpenedNoNewSpan(parse, next, events[1..]);
    }
  }

  /** A QueryOpened with SQL text on a cached connection pushes one span,
      tagged for that connection and text. */
  lemma StepOpen(parse: ConnStringParser, st: State, id: Int64, sql: string) returns (span: Span)
    requires id in st.cache && |sql| > 0
    ensures TaggedFor(span, st.cache[id], sql)
    ensures Step(parse, st, QueryOpened(id, Some(sql)))
            == State(st.cache, Ambient(st.ambient.active + [span], st.ambient.released))
  {
    var r := Step(parse, st, QueryOpened(id, Some(sql)));
    span := r.ambient.active[|st.ambient.active|];
    assert r.ambient.active == st.ambient.active + [span];
  }

  /** A QueryClosed releases the top of the active stack. */
  lemma StepClose(parse: ConnStringParser, st: State, below: seq<Span>, top: Span)
    requires st.ambient.active == below + [top]
    ensures Step(parse, st, QueryClosed) == State(st.cache, Ambient(below, st.ambient.released + [top]))
  {
    var r := Step(parse, st, QueryClosed);
    assert r.ambient.active + [top] == below + [top];
    assert r.ambient.active == (r.ambient.active + [top])[..|below|];
  }

  /** An Error marks the top of the active stack and releases nothing. */
  lemma StepError(parse: ConnStringParser, st: State, below: seq<Span>, top: Span, message: Option<string>)
    requires st.ambient.active == below + [top]
    ensures Step(parse, st, Error(message))
            == State(st.cache, Ambient(below + [top.ErrorOccurred(message)], st.ambient.released))
  {
    assert below == st.ambient.active[..|below|];
  }

  /** One query: QueryOpened followed by QueryClosed. */
  function QueryRound(id: Int64, sql: string): seq<Event>
  {
    [QueryOpened(id, Some(sql)), QueryClosed]
  }

  /** One query round per SQL text, in order, on the same connection. */
  function QueryRounds(id: Int64, sqls: seq<string>): seq<Event>
    decreases |sqls|
  {
    if |sqls| == 0 then [] else QueryRound(id, sqls[0]) + QueryRounds(id, sqls[1..])
  }

  /** One round on a cached connection releases exactly the one span it
      opened, tagged with that connection's metadata. */
  lemma OneRoundReleasesItsSpan(parse: ConnStringParser, st: State, id: Int64, sql: string) returns (span: Span)
    requires id in st.cache && |sql| > 0
    ensures TaggedFor(span, st.cache[id], sql)
    ensures Run(parse, st, QueryRound(id, sql))
            == State(st.cache, Ambient(st.ambient.active, st.ambient.released + [span]))
  {
    RunTwo(parse, st, QueryOpened(id, Some(sql)), QueryClosed);
    span := StepOpen(parse, st, id, sql);
    StepClose(parse, Step(parse, st, QueryOpened(id, Some(sql))), st.ambient.active, span);
  }

  /** Slicing a sequence after a prefix that was extended by one element. */
  lemma ExtendedPrefix<T>(prefix: seq<T>, x: T, s: seq<T>)
    requires prefix + [x] <= s
    ensures prefix <= s
    ensures s[|prefix|..] == [x] + s[|prefix| + 1..]
  {
    assert s[|prefix|] == x;
  }

  /** The spans `spans` are, one for one, the spans the SQL texts `sqls`
      open on a connection with metadata `meta`. */
  predicate AllTaggedFor(spans: seq<Span>, meta: MetaInfo, sqls: seq<string>)
  {
    |spans| == |sqls| && forall i :: 0 <= i < |spans| ==> TaggedFor(spans[i], meta, sqls[i])
  }

  lemma AllTaggedForCons(span: Span, spans: seq<Span>, meta: MetaInfo, sqls: seq<string>)
    requires |sqls| > 0
    requires TaggedFor(span, meta, sqls[0]) && AllTaggedFor(spans, meta, sqls[1..])
    ensures AllTaggedFor([span] + spans, meta, sqls)
  {
    forall i | 1 <= i < |sqls|
      ensures TaggedFor(([span] + spans)[i], meta, sqls[i])
    {
      assert ([span] + spans)[i] == spans[i - 1];
      assert sqls[1..][i - 1] == sqls[i];
    }
  }

  /** N query rounds on a cached connection with non-empty SQL create and
      release exactly N spans, in order, each tagged with the connection's
      metadata and its own SQL text; the cache and the active stack end as
      they began. */
  lemma {:induction false} QueryRoundsReleaseOneSpanEach(parse: ConnStringParser, st: State, id: Int64, sqls: seq<string>)
    requires id in st.cache
    requires forall i :: 0 <= i < |sqls| ==> |sqls[i]| > 0
    ensures Run(parse, st, QueryRounds(id, sqls)).cache == st.cache
    ensures Run(parse, st, QueryRounds(id, sqls)).ambient.active == st.ambient.active
    ensures st.ambient.released <= Run(parse, st, QueryRounds(id, sqls)).ambient.released
    ensures AllTaggedFor(Run(parse, st, QueryRounds(id, sqls)).ambient.released[|st.ambient.released|..],
                         st.cache[id], sqls)
    decreases |sqls|
  {
    if |sqls| == 0 {
      assert Run(parse, st, []) == st;
    } else {
      var head := QueryRound(id, sqls[0]);
      var tail := QueryRounds(id, sqls[1..]);
      assert QueryRounds(id, sqls) == head + tail;
      RunAppend(parse, st, head, tail);
      var span := OneRoundReleasesItsSpan(parse, st, id, sqls[0]);
      var mid := Run(parse, st, head);
      QueryRoundsReleaseOneSpanEach(parse, mid, id, sqls[1..]);
      var released := Run(parse, mid, tail).ambient.released;
      ExtendedPrefix(st.ambient.released, span, released);
      AllTaggedForCons(span, released[|st.ambient.released| + 1..], st.cache[id], sqls);
    }
  }

  /** An Error and then a QueryClosed release the ambient context exactly
      once, marked failed with the message. */
  lemma ErrorThenCloseReleasesFailedSpanOnce(parse: ConnStringParser, st: State, message: Option<string>)
    requires |st.ambient.active| > 0
    ensures var n := |st.ambient.active|;
      Run(parse, st, [Error(message), QueryClosed])
      == State(st.cache, Ambient(st.ambient.active[..n - 1],
                                 st.ambient.released + [st.ambient.active[n - 1].ErrorOccurred(message)]))
  {
    var n := |st.ambient.active|;
    var below := st.ambient.active[..n - 1];
    var top := st.ambient.active[n - 1];
    assert st.ambient.active == below + [top];
    RunTwo(parse, st, Error(message), QueryClosed);
    StepError(parse, st, below, top, message);
    StepClose(parse, Step(parse, st, Error(message)), below, top.ErrorOccurred(message));
  }

  /** A query that fails: QueryOpened, Error, QueryClosed on a cached
      connection release one span, tagged for the query and marked failed
      with exactly the one error message; the active stack ends as it began. */
  lemma FailedQueryReleasesOneFailedSpan(parse: ConnStringParser, st: State, id: Int64, sql: string, message: Option<string>)
    returns (span: Span)
    requires id in st.cache && |sql| > 0
    ensures span.failed && span.errorLogs == [message]
    ensures TaggedFor(span.(failed := false, errorLogs := []), st.cache[id], sql)
    ensures Run(parse, st, [QueryOpened(id, Some(sql)), Error(message), QueryClosed])
            == State(st.cache, Ambient(st.ambient.active, st.ambient.released + [span]))
  {
    RunThree(parse, st, QueryOpened(id, Some(sql)), Error(message), QueryClosed);
    var newSpan := StepOpen(parse, st, id, sql);
    var s1 := Step(parse, st, QueryOpened(id, Some(sql)));
    StepError(parse, s1, st.ambient.active, newSpan, message);
    span := newSpan.ErrorOccurred(message);
    StepClose(parse, Step(parse, s1, Error(message)), st.ambient.active, span);
  }

  const DeleteSql := "DELETE FROM orders WHERE id=5"

  /** Connection 7 opens, runs one DELETE and closes the query. */
  function DeleteEvents(conStr: string): seq<Event>
  {
    [ConnectionOpened(7, conStr), QueryOpened(7, Some(DeleteSql)), QueryClosed]
  }

  /** The operation name of the scenario's statement. */
  lemma DeleteOperationName()
    ensures OperationName(DeleteSql) == "DELETE"
  {
    assert DeleteSql == "DELETE" + [Space] + "FROM orders WHERE id=5";
    OperationNameOfTokenAndRest("DELETE", "FROM orders WHERE id=5");
  }

  /** The end-to-end scenario: connection 7 opens on server db1, database
      orders; one DELETE runs and closes; one span is released, named
      DELETE, with peer db1, instance orders and the full statement. */
  lemma DeleteScenario(parse: ConnStringParser, conStr: string) returns (span: Span)
    requires parse(conStr) == ConnTarget("db1", "orders")
    ensures Run(parse, Initial, DeleteEvents(conStr)).ambient == Ambient([], [span])
    ensures span.operationName == "DELETE" && span.peer == "db1"
    ensures span.tags == [Tag(DbType, "MySql"), Tag(DbInstance, "orders"), Tag(DbStatement, DeleteSql)]
    ensures !span.failed
  {
    var s1 := Step(parse, Initial, ConnectionOpened(7, conStr));
    RunOne(parse, Initial, ConnectionOpened(7, conStr));
    assert DeleteEvents(conStr) == [ConnectionOpened(7, conStr)] + QueryRound(7, DeleteSql);
    RunAppend(parse, Initial, [ConnectionOpened(7, conStr)], QueryRound(7, DeleteSql));
    assert s1.cache[7] == MetaInfo(conStr, "orders", "db1");
    span := OneRoundReleasesItsSpan(parse, s1, 7, DeleteSql);
    DeleteOperationName();
  }

  /** Two queries, the second opened while the first is still active. */
  function NestedEvents(a: Int64, sqlA: string, b: Int64, sqlB: string): seq<Event>
  {
    [QueryOpened(a, Some(sqlA)), QueryOpened(b, Some(sqlB)), QueryClosed, QueryClosed]
  }

  /** Two QueryOpened events on cached connections push two tagged spans. */
  lemma OpenTwo(parse: ConnStringParser, st: State, a: Int64, sqlA: string, b: Int64, sqlB: string)
    returns (spanA: Span, spanB: Span)
    requires a in st.cache && b in st.cache && |sqlA| > 0 && |sqlB| > 0
    ensures TaggedFor(spanA, st.cache[a], sqlA) && TaggedFor(spanB, st.cache[b], sqlB)
    ensures Run(parse, st, [QueryOpened(a, Some(sqlA)), QueryOpened(b, Some(sqlB))])
            == State(st.cache, Ambient(st.ambient.active + [spanA] + [spanB], st.ambient.released))
  {
    RunTwo(parse, st, QueryOpened(a, Some(sqlA)), QueryOpened(b, Some(sqlB)));
    spanA := StepOpen(parse, st, a, sqlA);
    spanB := StepOpen(parse, Step(parse, st, QueryOpened(a, Some(sqlA))), b, sqlB);
  }

  /** Two QueryClosed events release the two topmost spans, top first. */
  lemma CloseTwo(parse: ConnStringParser, st: State, below: seq<Span>, x: Span, y: Span)
    requires st.ambient.active == below + [x] + [y]
    ensures Run(parse, st, [QueryClosed, QueryClosed])
            == State(st.cache, Ambient(below, st.ambient.released + [y, x]))
  {
    RunTwo(parse, st, QueryClosed, QueryClosed);
    StepClose(parse, st, below + [x], y);
    StepClose(parse, Step(parse, st, QueryClosed), below, x);
    assert st.ambient.released + [y] + [x] == st.ambient.released + [y, x];
  }

  /** Nested queries on two cached connections: the inner one is released
      first, and each span carries the metadata of its own connection. */
  lemma NestedQueriesKeepTheirMetadata(parse: ConnStringParser, st: State, a: Int64, b: Int64, sqlA: string, sqlB: string)
    returns (spanA: Span, spanB: Span)
    requires a in st.cache && b in st.cache && |sqlA| > 0 && |sqlB| > 0
    ensures TaggedFor(spanA, st.cache[a], sqlA) && TaggedFor(spanB, st.cache[b], sqlB)
    ensures Run(parse, st, NestedEvents(a, sqlA, b, sqlB))
            == State(st.cache, Ambient(st.ambient.active, st.ambient.released + [spanB, spanA]))
  {
    var opens := [QueryOpened(a, Some(sqlA)), QueryOpened(b, Some(sqlB))];
    assert NestedEvents(a, sqlA, b, sqlB) == opens + [QueryClosed, QueryClosed];
    RunAppend(parse, st, opens, [QueryClosed, QueryClosed]);
    spanA, spanB := OpenTwo(parse, st, a, sqlA, b, sqlB);
    CloseTwo(parse, Run(parse, st, opens), st.ambient.active, spanA, spanB);
  }

  /** Two connections opened and queried interleaved. */
  function InterleavedEvents(a: Int64, conA: string, sqlA: string, b: Int64, conB: string, sqlB: string): seq<Event>
  {
    [ConnectionOpened(a, conA), ConnectionOpened(b, conB)] + NestedEvents(a, sqlA, b, sqlB)
  }

  /** Two connections open and run interleaved queries: each released span
      carries the metadata of its own connection, never the other's. */
  lemma InterleavedConnectionsDoNotCrossTag(parse: ConnStringParser, a: Int64, b: Int64,
                                             conA: string, conB: string, sqlA: string, sqlB: string)
    returns (spanA: Span, spanB: Span)
    requires a != b && |sqlA| > 0 && |sqlB| > 0
    ensures TaggedFor(spanA, MetaInfoOf(parse, conA), sqlA)
    ensures TaggedFor(spanB, MetaInfoOf(parse, conB), sqlB)
    ensures Run(parse, Initial, InterleavedEvents(a, conA, sqlA, b, conB, sqlB)).ambient == Ambient([], [spanB, spanA])
  {
    var opens := [ConnectionOpened(a, conA), ConnectionOpened(b, conB)];
    RunAppend(parse, Initial, opens, NestedEvents(a, sqlA, b, sqlB));
    RunTwo(parse, Initial, opens[0], opens[1]);
    var s2 := Run(parse, Initial, opens);
    assert s2.cache[a] == MetaInfoOf(parse, conA);
    assert s2.cache[b] == MetaInfoOf(parse, conB);
    assert s2.ambient == EmptyAmbient;
    spanA, spanB := NestedQueriesKeepTheirMetadata(parse, s2, a, b, sqlA, sqlB);
  }

  /** Connection ids are recycled by the driver but the cache never evicts:
      a connection that reopens under an id already used keeps the first
      connection's metadata. */
  lemma RecycledIdKeepsFirstMetadata(parse: ConnStringParser, st: State, id: Int64, first: string, second: string)
    requires id !in st.cache
    ensures var r := Run(parse, st, [ConnectionOpened(id, first), ConnectionClosed, ConnectionOpened(id, second)]);
      id in r.cache && r.cache[id] == MetaInfoOf(parse, first)
  {
    var evs := [ConnectionOpened(id, first), ConnectionClosed, ConnectionOpened(id, second)];
    var s1 := Step(parse, st, evs[0]);
    assert evs[1..] == [ConnectionClosed, ConnectionOpened(id, second)];
    CachedEntriesAreStable(parse, s1, evs[1..], id);
  }
}
