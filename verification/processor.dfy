/** `MySqlTracingDiagnosticProcessor`: the listener that turns MySQL driver
    trace events into tagged exit spans. Events are a typed variant whose
    fields are the positional arguments the source extracts; one event is
    processed by the pure function `Step`. */
module Processor {
  import opened Optional
  import opened MetaCache
  import opened SqlText
  import opened Tracing

  /** What the connection-string builder reports for a connection string. */
  datatype ConnTarget = ConnTarget(server: string, database: string)

  /** The connection-string builder, a foreign library, as a parameter. */
  type ConnStringParser = string -> ConnTarget

  /** A driver trace event. `Unlisted` is an event-type id outside the
      driver's enumeration, which no `case` of the dispatch matches. */
  datatype Event =
    | ConnectionOpened(connId: Int64, connectionString: string)
    | ConnectionClosed
    | QueryOpened(connId: Int64, sql: Option<string>)
    | ResultOpened
    | ResultClosed
    | QueryClosed
    | StatementPrepared
    | StatementExecuted
    | StatementClosed
    | NonQuery
    | UsageAdvisorWarning
    | Warning
    | Error(message: Option<string>)
    | QueryNormalized
    | Unlisted(typeId: int)

  /** The event types the dispatch has an empty case for (or none at all). */
  predicate IsInert(e: Event)
  {
    !(e.ConnectionOpened? || e.QueryOpened? || e.QueryClosed? || e.Error?)
  }

  /** The processor's own cache together with the ambient span state of the
      tracing framework it drives. */
  datatype State = State(cache: Cache, ambient: Ambient)

  const Initial := State(EmptyCache, EmptyAmbient)

  /** `string.IsNullOrEmpty`. */
  predicate IsNullOrEmpty(s: Option<string>)
  {
    s.None? || |s.value| == 0
  }

  /** The metadata built on ConnectionOpened from the connection string. */
  function MetaInfoOf(parse: ConnStringParser, conStr: string): MetaInfo
  {
    var target := parse(conStr);
    MetaInfo(conStr, target.database, target.server)
  }

  /** `s` is the span a query on a connection with metadata `meta` opens
      for the SQL text `sql`, before any error or release. */
  predicate TaggedFor(s: Span, meta: MetaInfo, sql: string)
  {
    && s.operationName == OperationName(sql)
    && s.peer == meta.dbServer
    && s.layer == Some(Db)
    && s.component == Some(MySql)
    && s.tags == [Tag(DbType, "MySql"), Tag(DbInstance, meta.dbName), Tag(DbStatement, sql)]
    && !s.failed
    && s.errorLogs == []
  }

  /** `BeforeSqlExecute`: without metadata or without SQL text nothing
      happens; otherwise one tagged exit span is opened on top of the
      ambient stack. */
  function BeforeSqlExecute(a: Ambient, meta: Option<MetaInfo>, sql: Option<string>): (r: Ambient)
    ensures meta.None? || IsNullOrEmpty(sql) ==> r == a
    ensures meta.Some? && !IsNullOrEmpty(sql) ==>
      && |r.active| == |a.active| + 1
      && r.active[..|a.active|] == a.active
      && TaggedFor(r.active[|a.active|], meta.value, sql.value)
      && r.released == a.released
  {
    if meta.None? || IsNullOrEmpty(sql) then a
    else
      var info := meta.value;
      var text := sql.value;
      var span := NewExitSpan(OperationName(text), info.dbServer)
        .WithLayer(Db)
        .WithComponent(MySql)
        .AddTag(DbType, "MySql")
        .AddTag(DbInstance, info.dbName)
        .AddTag(DbStatement, text);
      Push(a, span)
  }

  /** `AfterSqlExecute`: releases the ambient context, if there is one. */
  function AfterSqlExecute(a: Ambient): (r: Ambient)
    ensures |a.active| == 0 ==> r == a
    ensures |a.active| > 0 ==>
      && r.active + [a.active[|a.active| - 1]] == a.active
      && r.released == a.released + [a.active[|a.active| - 1]]
  {
    match Context(a)
    case None => a
    case Some(_) => Release(a)
  }

  /** `ErrorSqlExecute`: marks the ambient context as failed with the
      message, without releasing it. */
  function ErrorSqlExecute(a: Ambient, message: Option<string>): (r: Ambient)
    ensures |a.active| == 0 ==> r == a
    ensures |a.active| > 0 ==>
      var n := |a.active|;
      && |r.active| == n
      && r.active[..n - 1] == a.active[..n - 1]
      && r.active[n - 1].failed
      && r.active[n - 1].errorLogs == a.active[n - 1].errorLogs + [message]
      && r.active[n - 1].(failed := a.active[n - 1].failed, errorLogs := a.active[n - 1].errorLogs)
         == a.active[n - 1]
      && r.released == a.released
  {
    match Context(a)
    case None => a
    case Some(context) => ReplaceContext(a, context.ErrorOccurred(message))
  }

  /** `TraceEvent`: dispatches one driver event. */
  function Step(parse: ConnStringParser, st: State, ev: Event): (r: State)
    // Only ConnectionOpened touches the cache, and it touches nothing else.
    ensures !ev.ConnectionOpened? ==> r.cache == st.cache
    ensures ev.ConnectionOpened? ==>
      && r.ambient == st.ambient
      && (ev.connId in st.cache ==> r.cache == st.cache)
      && (ev.connId !in st.cache ==>
            var target := parse(ev.connectionString);
            r.cache == st.cache[ev.connId := MetaInfo(ev.connectionString, target.database, target.server)])
    // QueryOpened opens one tagged span, or nothing without metadata or SQL.
    ensures ev.QueryOpened? && (ev.connId !in st.cache || IsNullOrEmpty(ev.sql)) ==> r == st
    ensures ev.QueryOpened? && ev.connId in st.cache && !IsNullOrEmpty(ev.sql) ==>
      && |r.ambient.active| == |st.ambient.active| + 1
      && r.ambient.active[..|st.ambient.active|] == st.ambient.active
      && TaggedFor(r.ambient.active[|st.ambient.active|], st.cache[ev.connId], ev.sql.value)
      && r.ambient.released == st.ambient.released
    // QueryClosed releases the ambient context once, if there is one.
    ensures ev.QueryClosed? && |st.ambient.active| == 0 ==> r == st
    ensures ev.QueryClosed? && |st.ambient.active| > 0 ==>
      var top := st.ambient.active[|st.ambient.active| - 1];
      && r.ambient.active + [top] == st.ambient.active
      && r.ambient.released == st.ambient.released + [top]
    // Error marks the ambient context failed and releases nothing.
    ensures ev.Error? && |st.ambient.active| == 0 ==> r == st
    ensures ev.Error? && |st.ambient.active| > 0 ==>
      var n := |st.ambient.active|;
      && |r.ambient.active| == n
      && r.ambient.active[..n - 1] == st.ambient.active[..n - 1]
      && r.ambient.active[n - 1].failed
      && r.ambient.active[n - 1].errorLogs == st.ambient.active[n - 1].errorLogs + [ev.message]
      && r.ambient.active[n - 1].(failed := st.ambient.active[n - 1].failed,
                                  errorLogs := st.ambient.active[n - 1].errorLogs)
         == st.ambient.active[n - 1]
      && r.ambient.released == st.ambient.released
    // Every other event type changes nothing.
    ensures IsInert(ev) ==> r == st
  {
    match ev
    case ConnectionOpened(id, conStr) =>
      st.(cache := CacheMetaInfo(st.cache, id, MetaInfoOf(parse, conStr)))
    case QueryOpened(id, sql) =>
      st.(ambient := BeforeSqlExecute(st.ambient, GetMetaInfo(st.cache, id), sql))
    case QueryClosed =>
      st.(ambient := AfterSqlExecute(st.ambient))
    case Error(message) =>
      st.(ambient := ErrorSqlExecute(st.ambient, message))
    case _ => st
  }
}
