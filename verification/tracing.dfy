/** The tracing framework the processor drives, reduced to what the
    processor observes of it: an ambient stack of active exit-span contexts
    (`ITracingContext` creates and pushes, `IExitSegmentContextAccessor.Context`
    reads the top, `Release` pops) and the list of released spans in release
    order. */
module Tracing {
  import opened Optional

  datatype SpanLayer = Db | RpcFramework | Http | Mq | Cache

  datatype Component = MySql

  /** The keys of the tags the processor sets (`Common.Tags.DB_TYPE`,
      `DB_INSTANCE`, `DB_STATEMENT`). */
  datatype TagKey = DbType | DbInstance | DbStatement

  datatype Tag = Tag(key: TagKey, value: string)

  /** A span as the processor shapes it. `failed` and `errorLogs` record
      `ErrorOccurred`: the failure flag and each error message (None for a
      null message) in order. */
  datatype Span = Span(
    operationName: string,
    peer: string,
    layer: Option<SpanLayer>,
    component: Option<Component>,
    tags: seq<Tag>,
    failed: bool,
    errorLogs: seq<Option<string>>)
  {
    function WithLayer(l: SpanLayer): Span { this.(layer := Some(l)) }

    function WithComponent(c: Component): Span { this.(component := Some(c)) }

    /** `Span.AddTag`: appends one tag. */
    function AddTag(key: TagKey, value: string): Span { this.(tags := tags + [Tag(key, value)]) }

    /** `Span.ErrorOccurred`: flags the span as failed and logs the message. */
    function ErrorOccurred(message: Option<string>): Span
    {
      this.(failed := true, errorLogs := errorLogs + [message])
    }
  }

  /** The span a fresh exit context starts with. */
  function NewExitSpan(operationName: string, peer: string): Span
  {
    Span(operationName, peer, None, None, [], false, [])
  }

  /** The ambient span state: `active` is the context stack (its last element
      is the accessor's `Context`), `released` the spans released so far. */
  datatype Ambient = Ambient(active: seq<Span>, released: seq<Span>)

  const EmptyAmbient := Ambient([], [])

  /** `IExitSegmentContextAccessor.Context`: the top of the stack, or null. */
  function Context(a: Ambient): Option<Span>
  {
    if |a.active| == 0 then None else Some(a.active[|a.active| - 1])
  }

  /** `CreateExitSegmentContext` followed by the span setters: the span
      becomes the new ambient context. */
  function Push(a: Ambient, s: Span): (r: Ambient)
    ensures Context(r) == Some(s)
    ensures |r.active| == |a.active| + 1 && r.active[..|a.active|] == a.active
    ensures r.released == a.released
  {
    a.(active := a.active + [s])
  }

  /** Replaces the ambient context by `s`, leaving everything below it. */
  function ReplaceContext(a: Ambient, s: Span): (r: Ambient)
    requires |a.active| > 0
    ensures Context(r) == Some(s)
    ensures |r.active| == |a.active|
    ensures r.active[..|a.active| - 1] == a.active[..|a.active| - 1]
    ensures r.released == a.released
  {
    a.(active := a.active[..|a.active| - 1] + [s])
  }

  /** `ITracingContext.Release` of the ambient context: it leaves the stack
      and is appended to the released spans. */
  function Release(a: Ambient): Ambient
    requires |a.active| > 0
  {
    Ambient(a.active[..|a.active| - 1], a.released + [a.active[|a.active| - 1]])
  }

  /** Releasing a context right after creating it leaves the stack as it was
      and records the span as released. */
  lemma PushThenRelease(a: Ambient, s: Span)
    ensures Release(Push(a, s)) == a.(released := a.released + [s])
  {
  }

  /** Releasing a context that was just replaced releases the replacement
      and leaves what lay below it. */
  lemma ReplaceThenRelease(a: Ambient, s: Span)
    requires |a.active| > 0
    ensures Release(ReplaceContext(a, s)) == Ambient(a.active[..|a.active| - 1], a.released + [s])
  {
  }
}
