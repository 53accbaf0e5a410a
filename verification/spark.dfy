/**
 * The Spark (iFLYTEK) WebSocket adapter: the signed connection URL, the
 * request frame sent on open, and the callback trace produced by the
 * socket's open, message, close and error handlers.
 */
module Spark {
  import opened Wrappers
  import opened JsString
  import opened ChatTypes
  import opened Callbacks

  /** spark-api.xf-yun.com */
  const SparkHost: string := "spark-api" + ".xf-yun" + ".com"

  /** wss://spark-api.xf-yun.com/ */
  const EndpointPrefix: string := "wss://" + SparkHost + "/"

  /** `getSparkHostUrl`: the WebSocket endpoint of one model version. */
  function HostUrl(model: string): (r: string)
    ensures |r| == |EndpointPrefix| + |model| + 5
    ensures r[..|EndpointPrefix|] == EndpointPrefix
    ensures r[|EndpointPrefix|..|r| - 5] == model
    ensures r[|r| - 5..] == "/chat"
  {
    EndpointPrefix + model + "/chat"
  }

  /** The host and pathname a `wss:` URL parser reports. */
  datatype UrlParts = UrlParts(host: string, pathname: string)

  /**
   * `new URL(url)` for a `wss:` URL: the host runs up to the first `/` after
   * the scheme and the pathname is the rest (or `/` when there is no path).
   */
  function ParseWss(url: string): UrlParts
    requires |url| >= 6 && url[..6] == "wss://"
  {
    var rest := url[6..];
    match IndexOf(rest, '/')
    case None => UrlParts(rest, "/")
    case Some(i) => UrlParts(rest[..i], rest[i..])
  }

  /** The host URL parses to the fixed Spark host and the path `/<model>/chat`. */
  lemma HostUrlParts(model: string)
    ensures ParseWss(HostUrl(model)) == UrlParts(SparkHost, "/" + model + "/chat")
  {
    var rest := HostUrl(model)[6..];
    assert rest == SparkHost + ("/" + model + "/chat");
    assert '/' !in "spark-api" && '/' !in ".xf-yun" && '/' !in ".com";
    IndexOfAfter(SparkHost, "/" + model + "/chat", '/');
    assert rest[..|SparkHost|] == SparkHost;
    assert rest[|SparkHost|..] == "/" + model + "/chat";
  }

  /** The three lines of the canonical string: host, date and request line. */
  function SigningLines(host: string, date: string, path: string): seq<string> {
    ["host: " + host, "date: " + date, "GET " + path + " HTTP/1.1"]
  }

  /** The canonical string signed with the API secret: its lines joined by newlines. */
  function SigningString(host: string, date: string, path: string): string {
    Join(SigningLines(host, date, path), '\n')
  }

  /** The signing string reads `host: H`, `date: D`, `GET P HTTP/1.1` with a newline between each. */
  lemma SigningStringLayout(host: string, date: string, path: string)
    ensures SigningString(host, date, path) ==
      "host: " + host + "\n" + "date: " + date + "\n" + "GET " + path + " HTTP/1.1"
  {
    Join3("host: " + host, "date: " + date, "GET " + path + " HTTP/1.1", '\n');
  }

  /** Split at its newlines, the signing string gives back its three lines whenever no field holds a newline. */
  lemma SigningStringLines(host: string, date: string, path: string)
    requires '\n' !in host && '\n' !in date && '\n' !in path
    ensures Split(SigningString(host, date, path), '\n') == SigningLines(host, date, path)
  {
    SplitJoin(SigningLines(host, date, path), '\n');
  }

  /** ` algorithm="hmac-sha256"` */
  const AlgorithmField: string := " algorithm=" + "\"hmac" + "-sha256" + "\""

  /** ` headers="host date request-line"` */
  const HeadersField: string := " headers=" + "\"host" + " date" + " request" + "-line\""

  /** The four `name="value"` fields of the authorization value. */
  function AuthorizationFields(apiKey: string, signature: string): seq<string> {
    ["api_key=\"" + apiKey + "\"", AlgorithmField, HeadersField, " signature=\"" + signature + "\""]
  }

  /** The authorization value before Base64 encoding: its fields joined by commas. */
  function AuthorizationOrigin(apiKey: string, signature: string): string {
    Join(AuthorizationFields(apiKey, signature), ',')
  }

  /** Split at its commas, the authorization origin gives back its four fields whenever key and signature hold no comma. */
  lemma AuthorizationOriginFields(apiKey: string, signature: string)
    requires ',' !in apiKey && ',' !in signature
    ensures Split(AuthorizationOrigin(apiKey, signature), ',') == AuthorizationFields(apiKey, signature)
  {
    SplitJoin(AuthorizationFields(apiKey, signature), ',');
  }

  /** The cryptographic and encoding primitives, left uninterpreted. */
  datatype Codec = Codec(
    hmacSha256Base64: (string, string) -> string,   // Base64(HMAC-SHA256(message, secret))
    btoa: string -> string)                          // Base64 of a Latin-1 string

  /** `btoa` accepts only strings whose characters fit in one byte; otherwise it throws. */
  predicate IsLatin1(s: string) {
    forall c :: c in s ==> c <= '\U{FF}'
  }

  /** A joined string is Latin-1 exactly when all its pieces are (the separator being Latin-1). */
  lemma {:induction false} Latin1Join(parts: seq<string>, sep: char)
    requires |parts| >= 1 && sep <= '\U{FF}'
    ensures IsLatin1(Join(parts, sep)) <==> forall i :: 0 <= i < |parts| ==> IsLatin1(parts[i])
    decreases |parts|
  {
    if |parts| > 1 {
      var rest := Join(parts[1..], sep);
      Latin1Join(parts[1..], sep);
      assert Join(parts, sep) == parts[0] + [sep] + rest;
      assert forall c :: c in parts[0] + [sep] + rest <==> c in parts[0] || c == sep || c in rest;
      assert forall i :: 1 <= i < |parts| ==> parts[i] == parts[1..][i - 1];
    }
  }

  /** The fixed parts of the authorization origin are ASCII, so `btoa` throws exactly when the key or the signature is not Latin-1. */
  lemma OriginLatin1(apiKey: string, signature: string)
    ensures IsLatin1(AuthorizationOrigin(apiKey, signature)) <==> IsLatin1(apiKey) && IsLatin1(signature)
  {
    var fields := AuthorizationFields(apiKey, signature);
    Latin1Join(fields, ',');
    Latin1Concat("api_key=\"" + apiKey, "\"");
    Latin1Concat("api_key=\"", apiKey);
    Latin1Concat(" signature=\"" + signature, "\"");
    Latin1Concat(" signature=\"", signature);
    LiteralFieldsAreLatin1();
    assert IsLatin1(AuthorizationOrigin(apiKey, signature)) <==>
      IsLatin1(fields[0]) && IsLatin1(fields[1]) && IsLatin1(fields[2]) && IsLatin1(fields[3]);
  }

  lemma Latin1Concat(a: string, b: string)
    ensures IsLatin1(a + b) <==> IsLatin1(a) && IsLatin1(b)
  {
    assert forall c :: c in a + b <==> c in a || c in b;
  }

  lemma LiteralFieldsAreLatin1()
    ensures IsLatin1("api_key=\"") && IsLatin1("\"") && IsLatin1(" signature=\"")
    ensures IsLatin1(AlgorithmField) && IsLatin1(HeadersField)
  {
    QuoteLatin1();
    AlgorithmFieldLatin1();
    HeadersFieldLatin1();
  }

  lemma QuoteLatin1()
    ensures IsLatin1("api_key=\"") && IsLatin1("\"") && IsLatin1(" signature=\"")
  {
    Latin1Concat("api_key", "=\"");
    Latin1Concat(" signature", "=\"");
  }

  lemma AlgorithmFieldLatin1()
    ensures IsLatin1(AlgorithmField)
  {
    Latin1Concat(" algorithm=", "\"hmac");
    Latin1Concat(" algorithm=" + "\"hmac", "-sha256");
    Latin1Concat(" algorithm=" + "\"hmac" + "-sha256", "\"");
  }

  lemma HeadersFieldLatin1()
    ensures IsLatin1(HeadersField)
  {
    Latin1Concat(" headers=", "\"host");
    Latin1Concat(" headers=" + "\"host", " date");
    Latin1Concat(" headers=" + "\"host" + " date", " request");
    Latin1Concat(" headers=" + "\"host" + " date" + " request", "-line\"");
  }

  /** The Base64 signature of the signing string for one model and date. */
  function Signature(model: string, secret: string, date: string, codec: Codec): string {
    codec.hmacSha256Base64(SigningString(SparkHost, date, "/" + model + "/chat"), secret)
  }

  /** The query fields of the socket URL: authorization, date and host, in that order. */
  function QueryFieldsOf(authorization: string, date: string, host: string): seq<string> {
    ["authorization=" + authorization, "date=" + date, "host=" + host]
  }

  /** The socket URL: the host URL, a `?`, and the query fields joined by `&`. */
  function SignedUrl(url: string, authorization: string, date: string, host: string): string {
    url + "?" + Join(QueryFieldsOf(authorization, date, host), '&')
  }

  /**
   * `getSparkWsUrl`, with the GMT date passed in. None when `btoa` throws,
   * which it does when the API key or the signature holds a character above U+00FF.
   */
  function WsUrl(model: string, secret: string, apiKey: string, date: string, codec: Codec): (r: Option<string>)
    ensures r.None? <==> !(IsLatin1(apiKey) && IsLatin1(Signature(model, secret, date, codec)))
    ensures r.Some? ==>
      r.value == SignedUrl(HostUrl(model), codec.btoa(AuthorizationOrigin(apiKey, Signature(model, secret, date, codec))),
                           date, SparkHost)
  {
    var url := HostUrl(model);
    var parts := ParseWss(url);
    HostUrlParts(model);
    var signature := codec.hmacSha256Base64(SigningString(parts.host, date, parts.pathname), secret);
    var origin := AuthorizationOrigin(apiKey, signature);
    OriginLatin1(apiKey, signature);
    if !IsLatin1(origin) then None
    else Some(SignedUrl(url, codec.btoa(origin), date, parts.host))
  }

  /** The socket URL reads `<host url>?authorization=A&date=D&host=H`. */
  lemma SignedUrlLayout(url: string, authorization: string, date: string, host: string)
    ensures SignedUrl(url, authorization, date, host) ==
      url + "?" + "authorization=" + authorization + "&" + "date=" + date + "&" + "host=" + host
  {
    Join3("authorization=" + authorization, "date=" + date, "host=" + host, '&');
  }

  /**
   * The query of the socket URL reads back as authorization, date and host,
   * in that order, whenever the encoded authorization and the date hold no `&`.
   */
  lemma WsUrlQuery(model: string, authorization: string, date: string)
    requires '?' !in model
    requires '&' !in authorization && '&' !in date
    ensures QueryFields(SignedUrl(HostUrl(model), authorization, date, SparkHost)) ==
      QueryFieldsOf(authorization, date, SparkHost)
  {
    var base := HostUrl(model);
    assert '?' !in base by {
      assert base == EndpointPrefix + model + "/chat";
    }
    QueryFieldsOfBuiltUrl(base, QueryFieldsOf(authorization, date, SparkHost));
  }

  /** The JSON frame sent on open, before serialisation. */
  datatype RequestFrame<M> = RequestFrame(
    appId: string, uid: string, domain: string, temperature: real, maxTokens: int, text: seq<M>)

  /** `"generalv" + model.substring(1, 2)`: the model's second character, if any, after "generalv". */
  function Domain(model: string): (r: string)
    ensures |r| == (if |model| >= 2 then 9 else 8) && r[..8] == "generalv"
    ensures |model| >= 2 ==> r == "generalv" + [model[1]]
    ensures |model| < 2 ==> r == "generalv"
  {
    "generalv" + Substring(model, 1, 2)
  }

  /** `getSparkWsRequestParam`: fixed uid and sampling parameters around the unchanged message list. */
  function RequestParam<M>(appId: string, model: string, messages: seq<M>): (f: RequestFrame<M>)
    ensures f.appId == appId && f.text == messages
    ensures f.uid == "123456" && f.maxTokens == 4096 && f.temperature == 0.5
    ensures 8 <= |f.domain| <= 9 && f.domain[..8] == "generalv"
    ensures |model| >= 2 ==> |f.domain| == 9 && f.domain[8] == model[1]
    ensures |model| < 2 ==> f.domain == "generalv"
  {
    RequestFrame(appId, "123456", Domain(model), 0.5, 4096, messages)
  }

  /** The payload of one inbound frame. */
  datatype Frame =
    | Parsed(content: Option<string>)   // JSON with `payload.choices.text[0].content` present or absent
    | Malformed                         // JSON.parse or the field access throws

  /**
   * One socket event, tagged with what the session predicate returned when
   * its handler ran (true when the caller gave no predicate).
   */
  datatype SocketEvent =
    | Open(live: bool)
    | Message(live: bool, frame: Frame)
    | Close(live: bool)
    | Error(live: bool)

  datatype SparkOption = SparkOption(
    appId: string, secret: string, key: string, model: string, messages: seq<BaseMessage>)

  /** What one call did: the socket it opened, the frames it sent, the callbacks it invoked. */
  datatype Outcome = Outcome(socketUrl: Option<string>, sent: seq<RequestFrame<BaseMessage>>, trace: seq<Callback>)

  /** The `waitAnswer` flag after a handler ran: only an accepted message clears it. */
  function WaitingAfter(waiting: bool, e: SocketEvent): bool {
    if e.Message? && e.live then false else waiting
  }

  /** The callbacks one handler invokes. */
  function CallsOf(waiting: bool, e: SocketEvent, sinks: Sinks): seq<Callback> {
    if !e.live then []
    else
      match e
      case Open(_) => []
      case Message(_, frame) =>
        Emit(waiting && sinks.start, Start(""))
        + (if sinks.append && frame.Parsed? then [Append(OrEmpty(frame.content))] else [])
      case Close(_) => Emit(sinks.end, End(None))
      case Error(_) => Emit(sinks.end, End(None))
  }

  /** The frames one handler sends. */
  function SentBy<M>(e: SocketEvent, frame: RequestFrame<M>): seq<RequestFrame<M>> {
    if e.Open? && e.live then [frame] else []
  }

  /** The handlers run over a sequence of socket events, starting from the given `waitAnswer` flag. */
  function Handle(waiting: bool, events: seq<SocketEvent>, frame: RequestFrame<BaseMessage>, sinks: Sinks)
    : (sentAndCalls: (seq<RequestFrame<BaseMessage>>, seq<Callback>))
    decreases |events|
  {
    if |events| == 0 then ([], [])
    else
      var rest := Handle(WaitingAfter(waiting, events[0]), events[1..], frame, sinks);
      (SentBy(events[0], frame) + rest.0, CallsOf(waiting, events[0], sinks) + rest.1)
  }

  // Reference measures over the event sequence.

  function LiveOpens(events: seq<SocketEvent>): nat {
    if |events| == 0 then 0
    else (if events[0].Open? && events[0].live then 1 else 0) + LiveOpens(events[1..])
  }

  function LiveMessages(events: seq<SocketEvent>): nat {
    if |events| == 0 then 0
    else (if events[0].Message? && events[0].live then 1 else 0) + LiveMessages(events[1..])
  }

  /** The text of every accepted, well-formed message, `''` when the field is absent. */
  function LiveFragments(events: seq<SocketEvent>): seq<string> {
    if |events| == 0 then []
    else
      (if events[0].Message? && events[0].live && events[0].frame.Parsed?
       then [OrEmpty(events[0].frame.content)] else [])
      + LiveFragments(events[1..])
  }

  /** One bare `end()` per close or error seen while the session held. */
  function LiveEndArgs(events: seq<SocketEvent>): seq<Option<ErrorValue>> {
    if |events| == 0 then []
    else (if (events[0].Close? || events[0].Error?) && events[0].live then [None] else []) + LiveEndArgs(events[1..])
  }

  /** The events seen while the session held. */
  function LiveOnly(events: seq<SocketEvent>): seq<SocketEvent> {
    if |events| == 0 then []
    else (if events[0].live then [events[0]] else []) + LiveOnly(events[1..])
  }

  /** What one handler contributes to each measure of the trace. */
  lemma CallsMeasures(waiting: bool, e: SocketEvent, sinks: Sinks)
    ensures Starts(CallsOf(waiting, e, sinks)) == (if waiting && sinks.start && e.Message? && e.live then 1 else 0)
    ensures Fragments(CallsOf(waiting, e, sinks)) ==
      (if sinks.append && e.Message? && e.live && e.frame.Parsed? then [OrEmpty(e.frame.content)] else [])
    ensures EndArgs(CallsOf(waiting, e, sinks)) == (if sinks.end && (e.Close? || e.Error?) && e.live then [None] else [])
  {
    MeasuresOfOne(Start(""));
    MeasuresOfOne(End(None));
    if e.Message? && e.live {
      var frameCalls := if sinks.append && e.frame.Parsed? then [Append(OrEmpty(e.frame.content))] else [];
      if sinks.append && e.frame.Parsed? {
        MeasuresOfOne(Append(OrEmpty(e.frame.content)));
      }
      MeasuresOfConcat(Emit(waiting && sinks.start, Start("")), frameCalls);
    }
  }

  /** One request frame goes out per open seen while the session held, and no other. */
  lemma {:induction false} HandleSends(waiting: bool, events: seq<SocketEvent>, frame: RequestFrame<BaseMessage>, sinks: Sinks)
    ensures |Handle(waiting, events, frame, sinks).0| == LiveOpens(events)
    ensures forall i :: 0 <= i < |Handle(waiting, events, frame, sinks).0| ==> Handle(waiting, events, frame, sinks).0[i] == frame
    decreases |events|
  {
    if |events| > 0 {
      HandleSends(WaitingAfter(waiting, events[0]), events[1..], frame, sinks);
    }
  }

  /** `startAnswer` fires once if the flag was still set and some message was accepted, and otherwise never. */
  lemma {:induction false} HandleStarts(waiting: bool, events: seq<SocketEvent>, frame: RequestFrame<BaseMessage>, sinks: Sinks)
    ensures Starts(Handle(waiting, events, frame, sinks).1) ==
      (if waiting && sinks.start && LiveMessages(events) > 0 then 1 else 0)
    decreases |events|
  {
    if |events| > 0 {
      var e := events[0];
      var rest := Handle(WaitingAfter(waiting, e), events[1..], frame, sinks);
      MeasuresOfConcat(CallsOf(waiting, e, sinks), rest.1);
      HandleStarts(WaitingAfter(waiting, e), events[1..], frame, sinks);
      CallsMeasures(waiting, e, sinks);
    }
  }

  /** With the flag set and a start callback present, no append comes before the start. */
  lemma {:induction false} HandleStartLeads(events: seq<SocketEvent>, frame: RequestFrame<BaseMessage>, sinks: Sinks)
    ensures sinks.start ==> StartLeads(Handle(true, events, frame, sinks).1)
    decreases |events|
  {
    if sinks.start && |events| > 0 {
      var e := events[0];
      var rest := Handle(WaitingAfter(true, e), events[1..], frame, sinks);
      if e.Message? && e.live {
        assert CallsOf(true, e, sinks)[0] == Start("");
        assert (CallsOf(true, e, sinks) + rest.1)[0] == Start("");
      } else {
        HandleStartLeads(events[1..], frame, sinks);
        StartLeadsAfterQuiet(CallsOf(true, e, sinks), rest.1);
      }
    }
  }

  /** Each accepted well-formed message appends its text, in order; nothing else appends. */
  lemma {:induction false} HandleFragments(waiting: bool, events: seq<SocketEvent>, frame: RequestFrame<BaseMessage>, sinks: Sinks)
    ensures Fragments(Handle(waiting, events, frame, sinks).1) == (if sinks.append then LiveFragments(events) else [])
    decreases |events|
  {
    if |events| > 0 {
      var e := events[0];
      var rest := Handle(WaitingAfter(waiting, e), events[1..], frame, sinks);
      MeasuresOfConcat(CallsOf(waiting, e, sinks), rest.1);
      HandleFragments(WaitingAfter(waiting, e), events[1..], frame, sinks);
      CallsMeasures(waiting, e, sinks);
    }
  }

  /** `end()` fires, without an argument, once per close or error seen while the session held. */
  lemma {:induction false} HandleEnds(waiting: bool, events: seq<SocketEvent>, frame: RequestFrame<BaseMessage>, sinks: Sinks)
    ensures EndArgs(Handle(waiting, events, frame, sinks).1) == (if sinks.end then LiveEndArgs(events) else [])
    decreases |events|
  {
    if |events| > 0 {
      var e := events[0];
      var rest := Handle(WaitingAfter(waiting, e), events[1..], frame, sinks);
      MeasuresOfConcat(CallsOf(waiting, e, sinks), rest.1);
      HandleEnds(WaitingAfter(waiting, e), events[1..], frame, sinks);
      CallsMeasures(waiting, e, sinks);
    }
  }

  /**
   * Events seen while the session failed leave no trace at all: they neither
   * send, call back, nor consume the `waitAnswer` flag.
   */
  lemma {:induction false} HandleIgnoresRejected(waiting: bool, events: seq<SocketEvent>, frame: RequestFrame<BaseMessage>, sinks: Sinks)
    ensures Handle(waiting, events, frame, sinks) == Handle(waiting, LiveOnly(events), frame, sinks)
    decreases |events|
  {
    if |events| > 0 {
      var e := events[0];
      HandleIgnoresRejected(WaitingAfter(waiting, e), events[1..], frame, sinks);
      var rest := Handle(WaitingAfter(waiting, e), events[1..], frame, sinks);
      if e.live {
        assert LiveOnly(events) == [e] + LiveOnly(events[1..]);
        assert LiveOnly(events)[0] == e;
        assert LiveOnly(events)[1..] == LiveOnly(events[1..]);
      } else {
        assert LiveOnly(events) == LiveOnly(events[1..]);
        assert WaitingAfter(waiting, e) == waiting;
        assert Handle(waiting, events, frame, sinks) == ([] + rest.0, [] + rest.1);
        assert [] + rest.0 == rest.0 && [] + rest.1 == rest.1;
      }
    }
  }

  /** `chat2spark`, with the date, the primitives and the socket's events given. */
  function Chat2Spark(option: SparkOption, date: string, codec: Codec, sinks: Sinks, events: seq<SocketEvent>)
    : (o: Outcome)
    ensures o.socketUrl == WsUrl(option.model, option.secret, option.key, date, codec)
    ensures o.socketUrl.None? ==> o.sent == [] && o.trace == []
    ensures o.socketUrl.Some? ==>
      && |o.sent| == LiveOpens(events)
      && (forall i :: 0 <= i < |o.sent| ==> o.sent[i] == RequestParam(option.appId, option.model, option.messages))
      && Starts(o.trace) == (if sinks.start && LiveMessages(events) > 0 then 1 else 0)
      && (sinks.start ==> StartLeads(o.trace))
      && Fragments(o.trace) == (if sinks.append then LiveFragments(events) else [])
      && EndArgs(o.trace) == (if sinks.end then LiveEndArgs(events) else [])
  {
    var url := WsUrl(option.model, option.secret, option.key, date, codec);
    if url.None? then Outcome(None, [], [])
    else
      var frame := RequestParam(option.appId, option.model, option.messages);
      HandleSends(true, events, frame, sinks);
      HandleStarts(true, events, frame, sinks);
      HandleStartLeads(events, frame, sinks);
      HandleFragments(true, events, frame, sinks);
      HandleEnds(true, events, frame, sinks);
      var run := Handle(true, events, frame, sinks);
      Outcome(url, run.0, run.1)
  }
}
