/**
 * The trace helpers of sentry.js: reading the SDK's propagation data and
 * formatting a span as a `sentry-trace` header value.
 */
module Sentry {
  import opened Wrappers
  import Strings

  /**
   * What `Sentry.getTraceData` hands back, as a map from header name to
   * value; `None` when the SDK does not expose the function at all.
   */
  type SdkTraceData = Option<map<string, string>>

  /** The `{ sentryTrace, baggage }` pair propagated to the backend. */
  datatype TraceHeaders = TraceHeaders(sentryTrace: string, baggage: string)

  /** The options object handed to `Sentry.startSpan`. */
  datatype SpanOptions = SpanOptions(name: string, op: string, forceTransaction: bool)

  /** The identifiers the SDK minted for a span (`span.spanContext()`). */
  datatype SpanContext = SpanContext(traceId: string, spanId: string)

  /** A span object; `context` is `None` when it has no usable `spanContext()`. */
  datatype Span = Span(context: Option<SpanContext>)

  /** `td[key] || ''` over `(Sentry.getTraceData && Sentry.getTraceData()) || {}`. */
  function TraceField(sdk: SdkTraceData, key: string): (r: string)
    ensures r != "" <==> sdk.Some? && key in sdk.value && sdk.value[key] != ""
    ensures r != "" ==> r == sdk.value[key]
  {
    match sdk
    case None => ""
    case Some(td) => if key in td then td[key] else ""
  }

  /** getTraceData: both fields always present, each '' when the SDK lacks it. */
  function GetTraceData(sdk: SdkTraceData): (r: TraceHeaders)
    ensures sdk.None? ==> r == TraceHeaders("", "")
    ensures r.sentryTrace != "" <==> sdk.Some? && "sentry-trace" in sdk.value && sdk.value["sentry-trace"] != ""
    ensures r.baggage != "" <==> sdk.Some? && "baggage" in sdk.value && sdk.value["baggage"] != ""
    ensures r.sentryTrace != "" ==> r.sentryTrace == sdk.value["sentry-trace"]
    ensures r.baggage != "" ==> r.baggage == sdk.value["baggage"]
  {
    TraceHeaders(TraceField(sdk, "sentry-trace"), TraceField(sdk, "baggage"))
  }

  /** The header layout `traceId-spanId-1`: the sampled flag is always "1". */
  function TraceHeader(traceId: string, spanId: string): (r: string)
    ensures |r| == |traceId| + |spanId| + 3
    ensures r[..|traceId|] == traceId && r[|r| - 2..] == "-1"
  {
    traceId + "-" + spanId + "-1"
  }

  /** spanToSentryTrace: '' unless the span has a context with both ids non-empty. */
  function SpanToSentryTrace(span: Option<Span>): (r: string)
    ensures r == "" <==>
      span.None? || span.value.context.None? ||
      span.value.context.value.traceId == "" || span.value.context.value.spanId == ""
    ensures r != "" ==>
      r == TraceHeader(span.value.context.value.traceId, span.value.context.value.spanId)
  {
    match span
    case None => ""
    case Some(Span(None)) => ""
    case Some(Span(Some(ctx))) =>
      if ctx.traceId == "" || ctx.spanId == "" then "" else TraceHeader(ctx.traceId, ctx.spanId)
  }

  /** With dash-free ids, splitting the header on '-' recovers the ids and the flag. */
  lemma {:induction false} TraceHeaderSplits(traceId: string, spanId: string)
    requires '-' !in traceId && '-' !in spanId
    ensures Strings.Split(TraceHeader(traceId, spanId), '-') == [traceId, spanId, "1"]
  {
    Strings.SplitAtFirstDelimiter(traceId, '-', spanId + "-1");
    Strings.SplitAtFirstDelimiter(spanId, '-', "1");
    Strings.SplitWithoutDelimiter("1", '-');
    assert TraceHeader(traceId, spanId) == traceId + ['-'] + (spanId + "-1");
    assert spanId + "-1" == spanId + ['-'] + "1";
  }

  /** Dash-free id pairs are told apart by their headers. */
  lemma TraceHeaderInjective(t1: string, s1: string, t2: string, s2: string)
    requires '-' !in t1 && '-' !in s1 && '-' !in t2 && '-' !in s2
    requires TraceHeader(t1, s1) == TraceHeader(t2, s2)
    ensures t1 == t2 && s1 == s2
  {
    TraceHeaderSplits(t1, s1);
    TraceHeaderSplits(t2, s2);
  }

  /** For a span with dash-free, non-empty ids the output splits into `[traceId, spanId, "1"]`. */
  lemma SpanToSentryTraceSplits(ctx: SpanContext)
    requires ctx.traceId != "" && ctx.spanId != ""
    requires '-' !in ctx.traceId && '-' !in ctx.spanId
    ensures Strings.Split(SpanToSentryTrace(Some(Span(Some(ctx)))), '-') == [ctx.traceId, ctx.spanId, "1"]
  {
    TraceHeaderSplits(ctx.traceId, ctx.spanId);
  }
}
