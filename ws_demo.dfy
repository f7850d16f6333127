/**
 * WsDemo.jsx: the WebSocket panel.  It keeps a reference to the current
 * socket, a `connected` flag and an append-only log; Connect opens a socket
 * whose URL carries the trace headers and the auth token, and Send wraps
 * every message in an envelope carrying a trace of its own.  The browser's
 * part (the socket's ready state, event delivery) is the class Socket and
 * the event methods; encodeURIComponent and JSON.stringify are the
 * parameters `enc` and `stringify`; the ids of each new span are inputs.
 */
module WsDemo {
  import opened Wrappers
  import opened JsValues
  import Strings
  import Sentry
  import NewTrace
  import AuthStorage

  /** `WebSocket.readyState`. */
  datatype ReadyState = Connecting | Open | Closing | Closed

  /** A browser WebSocket: its URL, its ready state and the frames it was asked to send. */
  class Socket {
    const url: string
    var readyState: ReadyState
    var sent: seq<string>

    /** `new WebSocket(url)`. */
    constructor (url: string)
      ensures this.url == url && readyState == Connecting && sent == []
    {
      this.url := url;
      readyState := Connecting;
      sent := [];
    }

    /** `ws.send(data)`: queued when open, discarded once closing or closed. */
    method Send(data: string)
      requires readyState != Connecting
      modifies this`sent
      ensures sent == if readyState == Open then old(sent) + [data] else old(sent)
    {
      if readyState == Open {
        sent := sent + [data];
      }
    }

    /** `ws.close()`: a connecting or open socket starts closing; otherwise nothing happens. */
    method Close()
      modifies this`readyState
      ensures old(readyState) == Connecting || old(readyState) == Open ==> readyState == Closing
      ensures old(readyState) == Closing || old(readyState) == Closed ==> readyState == old(readyState)
    {
      if readyState == Connecting || readyState == Open {
        readyState := Closing;
      }
    }
  }

  /** getSentryHeadersForWs: the same defaulting as getTraceData in sentry.js. */
  function GetSentryHeadersForWs(sdk: Sentry.SdkTraceData): (r: Sentry.TraceHeaders)
    ensures sdk.None? ==> r == Sentry.TraceHeaders("", "")
    ensures r == Sentry.GetTraceData(sdk)
  {
    Sentry.TraceHeaders(Sentry.TraceField(sdk, "sentry-trace"), Sentry.TraceField(sdk, "baggage"))
  }

  /** The query string of the connect URL. */
  function ConnectQuery(sentryTrace: string, baggage: string, token: string, enc: string -> string): (q: string)
    ensures |q| >= 12 && q[..12] == "sentryTrace="
  {
    "sentryTrace=" + enc(sentryTrace) + "&baggage=" + enc(baggage) + "&token=" + enc(token)
  }

  /** The connect URL: `<wsUrl>/demo?sentryTrace=…&baggage=…&token=…`. */
  function ConnectUrl(wsUrl: string, sentryTrace: string, baggage: string, token: string, enc: string -> string): (r: string)
    ensures r == wsUrl + "/demo?" + ConnectQuery(sentryTrace, baggage, token, enc)
  {
    wsUrl + "/demo" + "?sentryTrace=" + enc(sentryTrace) + "&baggage=" + enc(baggage) + "&token=" + enc(token)
  }

  /**
   * When the encoder never emits '&' (encodeURIComponent escapes it), the
   * query holds exactly the three parameters, in order, with the encoded values.
   */
  lemma ConnectQueryParams(sentryTrace: string, baggage: string, token: string, enc: string -> string)
    requires '&' !in enc(sentryTrace) && '&' !in enc(baggage) && '&' !in enc(token)
    ensures Strings.Split(ConnectQuery(sentryTrace, baggage, token, enc), '&')
         == ["sentryTrace=" + enc(sentryTrace), "baggage=" + enc(baggage), "token=" + enc(token)]
  {
    var p1, p2, p3 := "sentryTrace=" + enc(sentryTrace), "baggage=" + enc(baggage), "token=" + enc(token);
    assert ConnectQuery(sentryTrace, baggage, token, enc) == p1 + ['&'] + (p2 + ['&'] + p3);
    Strings.SplitAtFirstDelimiter(p1, '&', p2 + ['&'] + p3);
    Strings.SplitAtFirstDelimiter(p2, '&', p3);
    Strings.SplitWithoutDelimiter(p3, '&');
  }

  /** The `sentry-trace` value send() writes inline: `traceId-spanId-1`, with no empty-id guard. */
  function MessageTrace(ctx: Sentry.SpanContext): (r: string)
    ensures r != ""
    ensures ctx.traceId != "" && ctx.spanId != "" ==> r == Sentry.SpanToSentryTrace(Some(Sentry.Span(Some(ctx))))
  {
    Sentry.TraceHeader(ctx.traceId, ctx.spanId)
  }

  /** Where the inline format and spanToSentryTrace part ways: an empty id. */
  lemma MessageTraceUnguarded(ctx: Sentry.SpanContext)
    requires ctx.traceId == "" || ctx.spanId == ""
    ensures Sentry.SpanToSentryTrace(Some(Sentry.Span(Some(ctx)))) == "" && MessageTrace(ctx) != ""
  {
  }

  /** `{type, payload, _trace: {sentryTrace, baggage: ''}}`. */
  function Envelope(msgType: string, payload: JsValue, ctx: Sentry.SpanContext): (e: JsValue)
    ensures e.Obj? && e.fields.Keys == {"type", "payload", "_trace"}
    ensures e.fields["type"] == Str(msgType) && e.fields["payload"] == payload
    ensures e.fields["_trace"].Obj? && e.fields["_trace"].fields.Keys == {"sentryTrace", "baggage"}
    ensures e.fields["_trace"].fields["sentryTrace"] == Str(MessageTrace(ctx))
    ensures e.fields["_trace"].fields["baggage"] == Str("")
  {
    Obj(map[
      "type" := Str(msgType),
      "payload" := payload,
      "_trace" := Obj(map["sentryTrace" := Str(MessageTrace(ctx)), "baggage" := Str("")])])
  }

  /** Messages sent under spans with different (dash-free) ids carry different traces. */
  lemma DistinctSpansDistinctEnvelopes(t1: string, p1: JsValue, c1: Sentry.SpanContext,
                                       t2: string, p2: JsValue, c2: Sentry.SpanContext)
    requires '-' !in c1.traceId && '-' !in c1.spanId && '-' !in c2.traceId && '-' !in c2.spanId
    requires c1 != c2
    ensures Envelope(t1, p1, c1) != Envelope(t2, p2, c2)
  {
    if Envelope(t1, p1, c1) == Envelope(t2, p2, c2) {
      assert MessageTrace(c1) == MessageTrace(c2);
      Sentry.TraceHeaderInjective(c1.traceId, c1.spanId, c2.traceId, c2.spanId);
    }
  }

  /** One log entry: the arguments' string forms joined by single spaces, then '\n'. */
  function LogLine(args: seq<JsValue>): (r: string)
    ensures |r| >= 1 && r[|r| - 1] == '\n'
  {
    Strings.Join(seq(|args|, i requires 0 <= i < |args| => ToJsString(args[i])), " ") + "\n"
  }

  /** Arguments free of line breaks make exactly one line. */
  lemma LogLineIsOneLine(args: seq<JsValue>)
    requires forall i :: 0 <= i < |args| ==> '\n' !in ToJsString(args[i])
    ensures '\n' !in LogLine(args)[..|LogLine(args)| - 1]
  {
    var parts := seq(|args|, i requires 0 <= i < |args| => ToJsString(args[i]));
    Strings.JoinAvoids(parts, " ", '\n');
    assert LogLine(args)[..|LogLine(args)| - 1] == Strings.Join(parts, " ");
  }

  const InitialLog := "Open this app in browser, click Connect.\n"

  /** The panel's state: the socket reference, the connected flag and the log. */
  class WsPanel {
    /** `config.wsUrl`. */
    const wsUrl: string
    var socket: Socket?
    var connected: bool
    var logText: string
    var onLogoutCalls: nat

    constructor (wsUrl: string)
      ensures this.wsUrl == wsUrl && socket == null && !connected && logText == InitialLog && onLogoutCalls == 0
    {
      this.wsUrl := wsUrl;
      socket := null;
      connected := false;
      logText := InitialLog;
      onLogoutCalls := 0;
    }

    /** log(...args): appends one entry; earlier text is never altered. */
    method Log(args: seq<JsValue>)
      modifies this`logText
      ensures logText == old(logText) + LogLine(args)
      ensures old(logText) <= logText
    {
      logText := logText + LogLine(args);
    }

    /**
     * connect(): does nothing but log while the current socket is open or
     * connecting; otherwise opens a new socket and makes it the current one.
     */
    method Connect(store: AuthStorage.TokenStore, storageThrows: bool, sdk: Sentry.SdkTraceData, enc: string -> string)
      modifies this`socket, this`logText
      ensures old(socket) != null && (old(socket.readyState) == Open || old(socket.readyState) == Connecting) ==>
        && socket == old(socket)
        && logText == old(logText) + LogLine([Str("[info] already connected/connecting")])
      ensures !(old(socket) != null && (old(socket.readyState) == Open || old(socket.readyState) == Connecting)) ==>
        var token := if storageThrows then "" else AuthStorage.StoredToken(store.items, store.storageKey);
        var headers := GetSentryHeadersForWs(sdk);
        && socket != null && fresh(socket)
        && socket.url == ConnectUrl(wsUrl, headers.sentryTrace, headers.baggage, token, enc)
        && socket.readyState == Connecting && socket.sent == []
        && logText == old(logText) + LogLine([Str("[connect]"), Str(socket.url)])
    {
      var ws := socket;
      if ws != null && (ws.readyState == Open || ws.readyState == Connecting) {
        Log([Str("[info] already connected/connecting")]);
        return;
      }
      var token := store.GetToken(storageThrows);
      // inside the `ws connect` span
      var headers := GetSentryHeadersForWs(sdk);
      var url := ConnectUrl(wsUrl, headers.sentryTrace, headers.baggage, if token != "" then token else "", enc);
      Log([Str("[connect]"), Str(url)]);
      var next := new Socket(url);
      socket := next;
    }

    /** disconnect(): closes the current socket, if any. */
    method Disconnect()
      modifies socket
      ensures socket != null && (old(socket.readyState) == Connecting || old(socket.readyState) == Open) ==>
        socket.readyState == Closing
      ensures socket != null && (old(socket.readyState) == Closing || old(socket.readyState) == Closed) ==>
        socket.readyState == old(socket.readyState)
      ensures socket != null ==> socket.sent == old(socket.sent)
    {
      if socket != null {
        socket.Close();
      }
    }

    /**
     * send(type, payload): refuses unless the current socket is open;
     * otherwise sends the envelope under a new trace (span `ws.send.<type>`,
     * op `frontend.ws.send`) whose ids are `minted`.
     */
    method Send(msgType: string, payload: JsValue, minted: Sentry.SpanContext, stringify: JsValue -> string)
      returns (span: Option<Sentry.SpanOptions>)
      modifies this`logText, socket
      ensures socket == null || old(socket.readyState) != Open ==>
        && span.None?
        && (socket != null ==> socket.sent == old(socket.sent))
        && logText == old(logText) + LogLine([Str("[warn] ws not open")])
      ensures socket != null && old(socket.readyState) == Open ==>
        && span == Some(NewTrace.NewTraceSyncSpanOptions("ws.send." + msgType, Some("ws.send")))
        && socket.sent == old(socket.sent) + [stringify(Envelope(msgType, payload, minted))]
        && logText == old(logText) + LogLine([Str("[sent]"), Str(msgType), Str("(trace=" + MessageTrace(minted) + ")")])
      ensures socket != null ==> socket.readyState == old(socket.readyState)
    {
      var ws := socket;
      if ws == null || ws.readyState != Open {
        Log([Str("[warn] ws not open")]);
        span := None;
        return;
      }
      span := Some(NewTrace.NewTraceSyncSpanOptions("ws.send." + msgType, Some("ws.send")));
      var sentryTrace := MessageTrace(minted);
      ws.Send(stringify(Envelope(msgType, payload, minted)));
      Log([Str("[sent]"), Str(msgType), Str(if sentryTrace != "" then "(trace=" + sentryTrace + ")" else "")]);
    }

    /** The browser opens `s` and runs its onopen handler. */
    method OnOpen(s: Socket)
      requires s.readyState == Connecting
      modifies s`readyState, this`connected, this`logText
      ensures s.readyState == Open && connected
      ensures logText == old(logText) + LogLine([Str("[open]")])
    {
      s.readyState := Open;
      Log([Str("[open]")]);
      connected := true;
    }

    /** The browser delivers a message on a socket and runs its onmessage handler. */
    method OnMessage(data: JsValue)
      modifies this`logText
      ensures logText == old(logText) + LogLine([Str("[message]"), data])
    {
      Log([Str("[message]"), data]);
    }

    /** The browser reports an error on a socket and runs its onerror handler. */
    method OnError()
      modifies this`logText
      ensures logText == old(logText) + LogLine([Str("[error]")])
    {
      Log([Str("[error]")]);
    }

    /**
     * The browser closes `s` and runs its onclose handler, which clears the
     * flag and the socket reference whichever socket it was.
     */
    method OnClose(s: Socket, code: int, reason: string)
      requires s.readyState != Closed
      modifies s`readyState, this`connected, this`socket, this`logText
      ensures s.readyState == Closed && !connected && socket == null
      ensures logText == old(logText) + LogLine([Str("[close]"), Str("code="), Num(code), Str("reason="), Str(reason)])
    {
      s.readyState := Closed;
      Log([Str("[close]"), Str("code="), Num(code), Str("reason="), Str(if reason != "" then reason else "")]);
      connected := false;
      socket := null;
    }

    /** logout(): close the socket, clear the stored token, call onLogout. */
    method Logout(store: AuthStorage.TokenStore, storageThrows: bool)
      modifies socket, store, this`onLogoutCalls
      ensures socket != null && (old(socket.readyState) == Connecting || old(socket.readyState) == Open) ==>
        socket.readyState == Closing
      ensures socket != null && (old(socket.readyState) == Closing || old(socket.readyState) == Closed) ==>
        socket.readyState == old(socket.readyState)
      ensures socket != null ==> socket.sent == old(socket.sent)
      ensures storageThrows ==> store.items == old(store.items)
      ensures !storageThrows ==> store.items == AuthStorage.AfterSetToken(old(store.items), store.storageKey, "")
      ensures onLogoutCalls == old(onLogoutCalls) + 1
    {
      if socket != null {
        socket.Close();
      }
      store.ClearToken(storageThrows);
      onLogoutCalls := onLogoutCalls + 1;
    }

    /** The unmount cleanup: close the socket and drop the reference. */
    method Unmount()
      modifies socket, this`socket
      ensures socket == null
      ensures old(socket) != null && (old(socket.readyState) == Connecting || old(socket.readyState) == Open) ==>
        old(socket).readyState == Closing
      ensures old(socket) != null && (old(socket.readyState) == Closing || old(socket.readyState) == Closed) ==>
        old(socket).readyState == old(socket.readyState)
      ensures old(socket) != null ==> old(socket).sent == old(socket.sent)
    {
      if socket != null {
        socket.Close();
      }
      socket := null;
    }
  }
}
