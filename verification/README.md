# MySQL tracing diagnostic processor — Dafny model

This project models the core of `MySqlTracingDiagnosticProcessor` from SkyApm's
MySQL diagnostics package. The processor is a trace listener that the MySQL
driver calls once per trace event. It correlates the events into tracing spans:

- **ConnectionOpened** parses the connection string. It caches the server and
  database name under the driver's connection id. The first writer wins and
  entries are never evicted.
- **QueryOpened** looks the connection id up in that cache. It opens an exit span
  named after the first space-separated word of the SQL text. The span is tagged
  with the peer, DB layer, MySQL component, database type, database instance and
  the full statement.
- **QueryClosed** releases the ambient exit context.
- **Error** marks the ambient exit context as failed but does not release it.
- Every other event type is inert.

The model is functional:

- `Processor.Step` is a pure function from a state and one typed event to the
  next state.
- The state is the metadata cache (a `map`) plus the tracing framework's ambient
  context. That context is modelled as a stack of active spans (its top is the
  accessor's `Context`) and the list of released spans.
- `Scenarios.Run` folds `Step` over an event stream.

Modules:

- `Optional`: Some/None, for the source's nullable references.
- `MetaCache`: `MySqlMetaInfo`, the cache, `CacheMySqlMetaInfo` and
  `GetMySqlMetaInfo`. Connection ids are the C# `long`, as the `Int64` newtype.
- `SqlText`: `String.Split(char)` (which keeps empty pieces), `Join`, and the
  operation name `Split(' ').First()`.
- `Tracing`: the parts of the tracing framework the processor uses: span
  creation, the span setters, `ErrorOccurred`, the accessor's `Context` and
  `Release`.
- `Processor`: the event variant, `BeforeSqlExecute`, `AfterSqlExecute`,
  `ErrorSqlExecute` and the `TraceEvent` dispatch (`Step`).
- `Scenarios`: event streams and the properties of whole streams.

The connection-string builder (`MySqlConnectionStringBuilder`) is a foreign
library. It is a function parameter, `parse: string -> ConnTarget`, so every
property holds for every parser.

Three consequences of the code that are easy to miss:

- The code does not trim the SQL text. It splits on `' '` and takes the first
  piece (line 38), so SQL that starts with a space gets the empty operation
  name (`SqlText.OperationNameLeadingSpace`).
- Nothing evicts a cache entry, and insertion is first-writer-wins (lines
  126-132). A connection id that the driver reuses after ConnectionClosed
  therefore keeps the metadata of its first connection
  (`Scenarios.RecycledIdKeepsFirstMetadata`).
- There is no exception handler around the connection-string builder (lines
  70-71), so an exception it raises leaves `TraceEvent` (see Left out).

## Model

| member | source | states |
|---|---|---|
| `MetaCache.CacheMetaInfo` | src/SkyApm.Diagnostics.MySql/MySqlTracingDiagnosticProcessor.cs:126-132 | An id that is already cached leaves the map unchanged. Otherwise exactly that key is added with the new metadata, and every existing entry keeps its value. |
| `MetaCache.GetMetaInfo` | src/SkyApm.Diagnostics.MySql/MySqlTracingDiagnosticProcessor.cs:134-141 | The result is present iff the id is cached, and then it is the cached value; absent means null. It is a pure read. |
| `MetaCache.FirstWriterWins` | src/SkyApm.Diagnostics.MySql/MySqlTracingDiagnosticProcessor.cs:126-132 | A second insertion under an id the first insertion added changes nothing, and a lookup returns the first metadata. |
| `MetaCache.GetAfterCache` | src/SkyApm.Diagnostics.MySql/MySqlTracingDiagnosticProcessor.cs:126-141 | After an insertion, a lookup sees the new entry only under its own key and only if that key was free. Every other lookup is as before. |
| `SqlText.Split` | src/SkyApm.Diagnostics.MySql/MySqlTracingDiagnosticProcessor.cs:38 | `Split(' ')` returns one piece more than there are separators. No piece contains the separator. The first piece is a prefix of the text that runs to the end or to the first separator. |
| `SqlText.JoinSplit` | src/SkyApm.Diagnostics.MySql/MySqlTracingDiagnosticProcessor.cs:38 | Joining the pieces of a split with the separator recovers the text. |
| `SqlText.SplitJoin` | src/SkyApm.Diagnostics.MySql/MySqlTracingDiagnosticProcessor.cs:38 | Splitting a join of separator-free pieces gives back the pieces, so split and join are inverses. |
| `SqlText.OperationName` | src/SkyApm.Diagnostics.MySql/MySqlTracingDiagnosticProcessor.cs:38 | The operation name is a prefix of the SQL text and contains no space. It is either the whole text or is followed by a space. |
| `SqlText.OperationNameIsLeadingToken` | src/SkyApm.Diagnostics.MySql/MySqlTracingDiagnosticProcessor.cs:38 | A string is the operation name iff it is a space-free prefix that runs to the end of the text or to a space, so the name is unique. |
| `SqlText.OperationNameSplitsText` | src/SkyApm.Diagnostics.MySql/MySqlTracingDiagnosticProcessor.cs:38 | The operation name followed by the rest of the text is the text, and that rest is empty or starts with a space. |
| `SqlText.OperationNameWithoutSpace` | src/SkyApm.Diagnostics.MySql/MySqlTracingDiagnosticProcessor.cs:38 | SQL text without a space is its own operation name. |
| `SqlText.OperationNameLeadingSpace` | src/SkyApm.Diagnostics.MySql/MySqlTracingDiagnosticProcessor.cs:38 | SQL text that starts with a space has the empty operation name. |
| `SqlText.OperationNameOfTokenAndRest` | src/SkyApm.Diagnostics.MySql/MySqlTracingDiagnosticProcessor.cs:38 | A space-free word followed by a space and anything is named by that word (`SELECT * FROM t` gives `SELECT`). |
| `Tracing.PushThenRelease` | src/SkyApm.Diagnostics.MySql/MySqlTracingDiagnosticProcessor.cs:39-52 | Releasing a context right after creating it leaves the active stack as it was and records exactly that span as released. |
| `Processor.BeforeSqlExecute` | src/SkyApm.Diagnostics.MySql/MySqlTracingDiagnosticProcessor.cs:32-45 | With null metadata or null/empty SQL, nothing changes. Otherwise exactly one span is pushed on the ambient stack and nothing is released. The span has the SQL's operation name, peer = DbServer, layer DB and component MYSQL. Its tags are DB_TYPE "MySql", DB_INSTANCE = DbName and DB_STATEMENT = the SQL verbatim. It is not failed. |
| `Processor.AfterSqlExecute` | src/SkyApm.Diagnostics.MySql/MySqlTracingDiagnosticProcessor.cs:47-54 | With no ambient context, nothing changes. Otherwise the context leaves the stack and is appended once to the released spans. |
| `Processor.ErrorSqlExecute` | src/SkyApm.Diagnostics.MySql/MySqlTracingDiagnosticProcessor.cs:56-63 | With no ambient context, nothing changes. Otherwise only the ambient span changes: it is flagged failed and the message is appended to its error log. Every other field, the rest of the stack and the released spans are unchanged. |
| `Processor.Step` | src/SkyApm.Diagnostics.MySql/MySqlTracingDiagnosticProcessor.cs:65-124 | Only ConnectionOpened changes the cache, first-writer-wins with the parsed server and database, and it changes nothing else. QueryOpened on an uncached id or with null/empty SQL changes nothing; otherwise it pushes one span tagged with that id's metadata. QueryClosed releases the top once, or is a no-op. Error marks the top failed without releasing, or is a no-op. All other events change nothing. |
| `Scenarios.StepOpen` | src/SkyApm.Diagnostics.MySql/MySqlTracingDiagnosticProcessor.cs:84-87 | QueryOpened with SQL on a cached id yields exactly the old state plus one pushed span tagged for that id's metadata and that SQL. |
| `Scenarios.StepClose` | src/SkyApm.Diagnostics.MySql/MySqlTracingDiagnosticProcessor.cs:95-97 | QueryClosed moves the top span to the end of the released spans and leaves the rest of the state unchanged. |
| `Scenarios.StepError` | src/SkyApm.Diagnostics.MySql/MySqlTracingDiagnosticProcessor.cs:117-119 | Error replaces only the top span by its failed version. Nothing is released and the cache is unchanged. |
| `Scenarios.RunAppend` | src/SkyApm.Diagnostics.MySql/MySqlTracingDiagnosticProcessor.cs:65-124 | Processing two event streams one after the other is processing their concatenation. |
| `Scenarios.CachedEntriesAreStable` | src/SkyApm.Diagnostics.MySql/MySqlTracingDiagnosticProcessor.cs:65-132 | Over any event stream, a cached entry is never replaced or removed. This covers repeated ConnectionOpened and ConnectionClosed (no eviction). |
| `Scenarios.CacheKeysComeFromConnectionOpened` | src/SkyApm.Diagnostics.MySql/MySqlTracingDiagnosticProcessor.cs:65-132 | Every key a stream adds to the cache is the id of one of its ConnectionOpened events. |
| `Scenarios.QueryOnUnopenedConnectionIsNoOp` | src/SkyApm.Diagnostics.MySql/MySqlTracingDiagnosticProcessor.cs:84-87 | A QueryOpened on an id that no earlier ConnectionOpened cached opens no span and changes nothing. |
| `Scenarios.ReleasedOnlyGrows` | src/SkyApm.Diagnostics.MySql/MySqlTracingDiagnosticProcessor.cs:47-54 | Over any stream the released spans only grow at the end; released spans are never changed. |
| `Scenarios.NoQueryOpenedNoNewSpan` | src/SkyApm.Diagnostics.MySql/MySqlTracingDiagnosticProcessor.cs:65-124 | A stream without QueryOpened never changes the number of active plus released spans. Only QueryOpened creates spans. |
| `Scenarios.OneRoundReleasesItsSpan` | src/SkyApm.Diagnostics.MySql/MySqlTracingDiagnosticProcessor.cs:84-97 | QueryOpened then QueryClosed on a cached id releases exactly the one span it opened, tagged for that id. The cache and the active stack end as they began. |
| `Scenarios.QueryRoundsReleaseOneSpanEach` | src/SkyApm.Diagnostics.MySql/MySqlTracingDiagnosticProcessor.cs:84-97 | N open/close rounds on a cached id with non-empty SQL release exactly N spans, in order. Span i is tagged with the id's metadata and the i-th SQL text. The cache and the active stack are unchanged. |
| `Scenarios.ErrorThenCloseReleasesFailedSpanOnce` | src/SkyApm.Diagnostics.MySql/MySqlTracingDiagnosticProcessor.cs:47-63 | Error then QueryClosed releases the ambient span exactly once, in its failed version. The rest of the stack and the cache are unchanged. |
| `Scenarios.FailedQueryReleasesOneFailedSpan` | src/SkyApm.Diagnostics.MySql/MySqlTracingDiagnosticProcessor.cs:84-119 | QueryOpened, Error, QueryClosed on a cached id releases one span. Apart from its failure fields it is the query's tagged span; it is failed and logs exactly the one message. |
| `Scenarios.DeleteOperationName` | src/SkyApm.Diagnostics.MySql/MySqlTracingDiagnosticProcessor.cs:38 | `DELETE FROM orders WHERE id=5` is named `DELETE`. |
| `Scenarios.DeleteScenario` | src/SkyApm.Diagnostics.MySql/MySqlTracingDiagnosticProcessor.cs:65-97 | Connection 7 opens on server db1, database orders, and one DELETE runs and closes. Exactly one span is released, named DELETE, with peer db1, instance orders and the full statement, and not failed. |
| `Scenarios.OpenTwo` | src/SkyApm.Diagnostics.MySql/MySqlTracingDiagnosticProcessor.cs:84-87 | Two QueryOpened events on cached ids push two spans, each tagged with its own id's metadata. |
| `Scenarios.CloseTwo` | src/SkyApm.Diagnostics.MySql/MySqlTracingDiagnosticProcessor.cs:95-97 | Two QueryClosed events release the two topmost spans, top first. |
| `Scenarios.NestedQueriesKeepTheirMetadata` | src/SkyApm.Diagnostics.MySql/MySqlTracingDiagnosticProcessor.cs:84-97 | A query opened while another is active is released first. Each span carries its own connection's metadata, and the stack ends as it began. |
| `Scenarios.InterleavedConnectionsDoNotCrossTag` | src/SkyApm.Diagnostics.MySql/MySqlTracingDiagnosticProcessor.cs:65-97 | Two connections opened and queried interleaved give two released spans. Each is tagged with the metadata parsed from its own connection string, never the other's. |
| `Scenarios.RecycledIdKeepsFirstMetadata` | src/SkyApm.Diagnostics.MySql/MySqlTracingDiagnosticProcessor.cs:69-82 | An id opened, closed and opened again with another connection string keeps the first connection's metadata. |

## Left out

- The constructor (lines 19-30) is left out. It clears the driver's global `MySqlTrace` listener list, registers the processor, raises the switch level and enables query analysis. That is global driver configuration with no logic to model.
- `ListenerName` (line 17) and `SkyWalkingBuilderExtensions.cs` are left out. They are dependency-injection registration glue.
- `MySqlConnectionStringBuilder` (lines 70-71) is a foreign library and is not part of this model. It is the parameter `parse`, a total function. The exception it can raise on a malformed connection string is not modelled; the source does not catch it, so it would leave `TraceEvent` before anything is cached.
- Positional argument extraction (lines 70, 78, 85-86, 118) is left out: the `args[...]` indexing, `ToString()` and the `(long)` casts, and the runtime failures they can raise. Events are a typed variant whose fields are already extracted. A null SQL text or error message is kept as `None`.
- The numeric values of the driver's `MySqlTraceEventType` enumeration are not part of this model. An event-type id that no case of the switch matches is the inert `Unlisted` event.
- The string values of SkyApm's `Common.Tags` keys, `Common.Components.MYSQL` and `SpanLayer` are not part of this model. They are enumerations.
- Concurrency is left out: the plain `Dictionary` (line 15) is unsynchronised, and the accessor's context is per execution flow. The model is one sequential stream of events.
- The tracing framework itself is reduced to an ambient stack. Left out are span timing, segment structure, sampling, export, and the construction of the `Exception` object (line 61), whose message is kept as given. The case of a context whose `Span` is null (`context.Span?`, line 61) is not modelled, because every modelled context has a span.
- Scenarios.CloseTwo: assumes the framework's `Release` makes the enclosing context the accessor's `Context` again (restore-on-release). The processor itself only reads `Context` and calls `Release` (lines 49-52); the stack discipline is the model's reading of the framework, which is not part of this model.
- Scenarios.NestedQueriesKeepTheirMetadata: rests on the same restore-on-release assumption about the framework, through `Scenarios.CloseTwo`; with a framework that does not restore the enclosing context, the outer query's QueryClosed would find no context.
- Scenarios.InterleavedConnectionsDoNotCrossTag: rests on the same restore-on-release assumption about the framework for its nested phase.
