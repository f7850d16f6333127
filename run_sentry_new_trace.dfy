/**
 * helpers/run-sentry-new-trace.js: both helpers start a new trace and a
 * span in it; the only thing they compute is the span options.  Starting
 * the trace and the span is the SDK's work: here it is the parameter
 * `startSpan`, which receives the options and returns the callback's result.
 */
module NewTrace {
  import opened Wrappers
  import Sentry

  const Prefix := "frontend."
  const UnknownOperation := "unknown_operation"

  /** `frontend.${op || 'unknown_operation'}`; `None` stands for null or undefined. */
  function FrontendOp(op: Option<string>): (r: string)
    ensures op.Some? && op.value != "" ==> r == Prefix + op.value
    ensures op.None? || op.value == "" ==> r == Prefix + UnknownOperation
  {
    Prefix + if op.Some? && op.value != "" then op.value else UnknownOperation
  }

  /** The part after `frontend.`; the inverse of FrontendOp on non-empty operations. */
  function OperationOf(spanOp: string): (r: Option<string>)
    ensures r.Some? ==> Prefix + r.value == spanOp
  {
    if |spanOp| > |Prefix| && spanOp[..|Prefix|] == Prefix then Some(spanOp[|Prefix|..]) else None
  }

  /** Every span op carries the prefix and a non-empty operation after it. */
  lemma FrontendOpRecoverable(op: Option<string>)
    ensures OperationOf(FrontendOp(op)) == Some(if op.Some? && op.value != "" then op.value else UnknownOperation)
  {
  }

  /** Distinct non-empty operations give distinct span ops. */
  lemma FrontendOpInjective(a: string, b: string)
    requires a != "" && b != ""
    requires FrontendOp(Some(a)) == FrontendOp(Some(b))
    ensures a == b
  {
    FrontendOpRecoverable(Some(a));
    FrontendOpRecoverable(Some(b));
  }

  /** The options built by runSentryNewTrace. */
  function NewTraceSpanOptions(name: string, op: Option<string>): (o: Sentry.SpanOptions)
    ensures o.name == name && o.forceTransaction
    ensures o.op == FrontendOp(op)
  {
    Sentry.SpanOptions(name, FrontendOp(op), true)
  }

  /** The options built by runSentryNewTraceSync. */
  function NewTraceSyncSpanOptions(name: string, op: Option<string>): (o: Sentry.SpanOptions)
    ensures o.name == name && o.forceTransaction
    ensures o.op == FrontendOp(op)
  {
    Sentry.SpanOptions(name, FrontendOp(op), true)
  }

  /** runSentryNewTrace(name, op, fn), with the SDK and `fn` folded into `startSpan`. */
  function RunSentryNewTrace<R>(name: string, op: Option<string>, startSpan: Sentry.SpanOptions -> R): (r: R)
    ensures r == startSpan(Sentry.SpanOptions(name, FrontendOp(op), true))
  {
    startSpan(NewTraceSpanOptions(name, op))
  }

  /** runSentryNewTraceSync(name, op, fn), with the SDK and `fn` folded into `startSpan`. */
  function RunSentryNewTraceSync<R>(name: string, op: Option<string>, startSpan: Sentry.SpanOptions -> R): (r: R)
    ensures r == startSpan(Sentry.SpanOptions(name, FrontendOp(op), true))
  {
    startSpan(NewTraceSyncSpanOptions(name, op))
  }

  /** The two helpers hand the SDK identical options for the same name and op. */
  lemma VariantsAgree<R>(name: string, op: Option<string>, startSpan: Sentry.SpanOptions -> R)
    ensures NewTraceSpanOptions(name, op) == NewTraceSyncSpanOptions(name, op)
    ensures RunSentryNewTrace(name, op, startSpan) == RunSentryNewTraceSync(name, op, startSpan)
  {
  }
}
