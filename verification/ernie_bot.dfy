/**
 * The ERNIE Bot (Baidu) adapter: the model-to-endpoint table, the OAuth
 * token and stream URLs, the session gate after the token arrives, and the
 * callback trace produced by the event-stream handlers.
 */
module ErnieBot {
  import opened Wrappers
  import opened JsString
  import opened ChatTypes
  import opened Callbacks

  /** https://aip.baidubce.com/rpc/2.0/ai_custom/v1/wenxinworkshop/chat/ */
  const ChatUrlPrefix: string :=
    "https://" + "aip.baidubce.com" + "/rpc/2.0" + "/ai_custom" + "/v1" + "/wenxinworkshop" + "/chat/"

  /** The four model names the endpoint table knows. */
  predicate IsKnownModel(model: string) {
    model == "ERNIE-Bot 4.0" || model == "ERNIE-Bot-8K" || model == "ERNIE-Bot" || model == "ERNIE-Bot-turbo"
  }

  /** `getErnieBotChatUrl`: the chat endpoint of a model, or `''` for a model the table does not know. */
  function ChatUrl(model: string): (r: string)
    ensures r != "" <==> IsKnownModel(model)
    ensures r != "" ==> |r| > |ChatUrlPrefix| && r[..|ChatUrlPrefix|] == ChatUrlPrefix
  {
    match model
    case "ERNIE-Bot 4.0" => ChatUrlPrefix + "completions_pro"
    case "ERNIE-Bot-8K" => ChatUrlPrefix + "ernie_bot_8k"
    case "ERNIE-Bot" => ChatUrlPrefix + "completions"
    case "ERNIE-Bot-turbo" => ChatUrlPrefix + "eb-instant"
    case _ => ""
  }

  /** No endpoint holds a `?`, so the query the stream URL appends is the only one. */
  lemma ChatUrlHasNoQuery(model: string)
    ensures '?' !in ChatUrl(model)
  {
    PrefixHasNoQuery();
    assert '?' !in "completions_pro" && '?' !in "ernie_bot_8k" && '?' !in "completions" && '?' !in "eb-instant";
  }

  lemma PrefixHasNoQuery()
    ensures '?' !in ChatUrlPrefix
  {
    assert '?' !in "https://" && '?' !in "aip.baidubce.com" && '?' !in "/rpc/2.0" && '?' !in "/ai_custom";
    assert '?' !in "/v1" && '?' !in "/wenxinworkshop" && '?' !in "/chat/";
  }

  /** Distinct known models reach distinct endpoints. */
  lemma ChatUrlInjective(a: string, b: string)
    requires IsKnownModel(a) && IsKnownModel(b) && a != b
    ensures ChatUrl(a) != ChatUrl(b)
  {
  }

  const TokenEndpoint: string := "https://aip.baidubce.com/oauth/2.0/token"

  /** The query fields of the token request: grant type, client id and client secret. */
  function TokenQueryFields(apiKey: string, secretKey: string): seq<string> {
    ["grant_type=client_credentials", "client_id=" + apiKey, "client_secret=" + secretKey]
  }

  /** The OAuth token request URL. */
  function TokenUrl(apiKey: string, secretKey: string): string {
    TokenEndpoint + "?" + Join(TokenQueryFields(apiKey, secretKey), '&')
  }

  /** The token URL reads `<endpoint>?grant_type=client_credentials&client_id=K&client_secret=S`. */
  lemma TokenUrlLayout(apiKey: string, secretKey: string)
    ensures TokenUrl(apiKey, secretKey) ==
      TokenEndpoint + "?" + "grant_type=client_credentials" + "&" + "client_id=" + apiKey + "&" + "client_secret=" + secretKey
  {
    Join3("grant_type=client_credentials", "client_id=" + apiKey, "client_secret=" + secretKey, '&');
  }

  /** Read back, the token URL's query carries exactly the grant type, the API key and the secret key, whenever the keys hold no `&`. */
  lemma TokenUrlQuery(apiKey: string, secretKey: string)
    requires '&' !in apiKey && '&' !in secretKey
    ensures QueryFields(TokenUrl(apiKey, secretKey)) == TokenQueryFields(apiKey, secretKey)
  {
    QueryFieldsOfBuiltUrl(TokenEndpoint, TokenQueryFields(apiKey, secretKey));
  }

  /** The token as a template literal renders it: a missing `access_token` prints as "undefined". */
  function TokenText(accessToken: Option<string>): string {
    accessToken.GetOr("undefined")
  }

  /** The event-stream URL: the model's endpoint with the access token as its only query field. */
  function StreamUrl(model: string, accessToken: Option<string>): string {
    ChatUrl(model) + "?" + "access_token=" + TokenText(accessToken)
  }

  /** The stream URL is the model's endpoint, and its query is the single `access_token` field. */
  lemma StreamUrlQuery(model: string, accessToken: Option<string>)
    requires '&' !in TokenText(accessToken)
    ensures StreamUrl(model, accessToken)[..|ChatUrl(model)|] == ChatUrl(model)
    ensures QueryFields(StreamUrl(model, accessToken)) == ["access_token=" + TokenText(accessToken)]
  {
    var field := "access_token=" + TokenText(accessToken);
    assert Join([field], '&') == field;
    assert StreamUrl(model, accessToken) == ChatUrl(model) + "?" + Join([field], '&');
    ChatUrlHasNoQuery(model);
    QueryFieldsOfBuiltUrl(ChatUrl(model), [field]);
  }

  /** The JSON body of the stream request, before serialisation. */
  datatype StreamBody = StreamBody(messages: seq<BaseMessage>, stream: bool)

  datatype StreamRequest = StreamRequest(url: string, httpMethod: string, body: StreamBody)

  /** What the token fetch produced: a rejection, or the parsed JSON with or without `access_token`. */
  datatype TokenResponse = FetchFailed | TokenJson(accessToken: Option<string>)

  /** The data of one server-sent message. */
  datatype Data =
    | Json(result: Option<string>)   // parsed, with `result` present or absent
    | Unparsable(reason: string)     // JSON.parse, or reading `result` from its value, throws

  /** What the handler throws for unparsable data: a SyntaxError or TypeError, both `Error` instances. */
  function Thrown(reason: string): ErrorValue {
    ErrorValue(true, reason)
  }

  /**
   * One event of the stream, tagged with what the session predicate returns
   * at that moment (true when the caller gave no predicate). The close and
   * error handlers do not consult it.
   */
  datatype StreamEvent =
    | Message(live: bool, data: Data)
    | Close(live: bool)
    | Error(live: bool, err: ErrorValue)
    | Aborted                         // the abort controller fired: no handler runs

  /**
   * The message handler parses the data only when `appendAnswer` is given;
   * a throw there reaches the stream's error handler, which rethrows it.
   */
  predicate ParseThrows(e: StreamEvent, sinks: Sinks) {
    e.Message? && e.live && sinks.append && e.data.Unparsable?
  }

  /**
   * After this event the stream delivers nothing more: it closed, was
   * aborted, or its error handler rethrew (an `Error` instance, including
   * the one the message handler threw).
   */
  predicate Stops(e: StreamEvent, sinks: Sinks) {
    e.Close? || e.Aborted? || (e.Error? && e.err.isErrorInstance) || ParseThrows(e, sinks)
  }

  /** The events the handlers actually see: everything up to and including the first stopping event. */
  function Delivered(events: seq<StreamEvent>, sinks: Sinks): (d: seq<StreamEvent>)
    ensures |d| <= |events|
  {
    if |events| == 0 then []
    else if Stops(events[0], sinks) then [events[0]]
    else [events[0]] + Delivered(events[1..], sinks)
  }

  datatype ErnieOption = ErnieOption(apiKey: string, secretKey: string, model: string, messages: seq<BaseMessage>)

  /** What one call did: the token request, the stream it opened (if any), the callbacks it invoked. */
  datatype Outcome = Outcome(tokenRequest: string, stream: Option<StreamRequest>, trace: seq<Callback>)

  function WaitingAfter(waiting: bool, e: StreamEvent): bool {
    if e.Message? && e.live then false else waiting
  }

  /**
   * The callbacks an accepted message's data leads to after the start: its
   * `result` appended, or, when parsing throws, the error handler's `end(err)`.
   */
  function DataCalls(data: Data, sinks: Sinks): seq<Callback> {
    if !sinks.append then []
    else
      match data
      case Json(result) => [Append(OrEmpty(result))]
      case Unparsable(reason) => Emit(sinks.end, End(Some(Thrown(reason))))
  }

  /** The callbacks one handler invokes. */
  function CallsOf(waiting: bool, e: StreamEvent, sinks: Sinks): seq<Callback> {
    match e
    case Message(live, data) =>
      if !live then []
      else Emit(waiting && sinks.start, Start("")) + DataCalls(data, sinks)
    case Close(_) => Emit(sinks.end, End(None))
    case Error(_, err) => Emit(sinks.end, End(Some(err)))
    case Aborted => []
  }

  /** The handlers run over the stream's events, from the given `waitAnswer` flag. */
  function Handle(waiting: bool, events: seq<StreamEvent>, sinks: Sinks): seq<Callback>
    decreases |events|
  {
    if |events| == 0 then []
    else if Stops(events[0], sinks) then CallsOf(waiting, events[0], sinks)
    else CallsOf(waiting, events[0], sinks) + Handle(WaitingAfter(waiting, events[0]), events[1..], sinks)
  }

  // Reference measures over the delivered events.

  function LiveMessages(events: seq<StreamEvent>): nat {
    if |events| == 0 then 0
    else (if events[0].Message? && events[0].live then 1 else 0) + LiveMessages(events[1..])
  }

  /** The `result` of every accepted, parsable message, `''` when absent. */
  function LiveResults(events: seq<StreamEvent>): seq<string> {
    if |events| == 0 then []
    else
      (if events[0].Message? && events[0].live && events[0].data.Json?
       then [OrEmpty(events[0].data.result)] else [])
      + LiveResults(events[1..])
  }

  /** What `end` is called with when this event stops the stream with an end. */
  function StopArg(e: StreamEvent): Option<ErrorValue> {
    match e
    case Error(_, err) => Some(err)
    case Message(_, data) => if data.Unparsable? then Some(Thrown(data.reason)) else None
    case _ => None
  }

  /**
   * `end()` for each close and `end(err)` for each error, whatever the
   * session says, and for each accepted message whose parse threw when
   * `appendAnswer` is given.
   */
  function EndArgsOf(events: seq<StreamEvent>, append: bool): seq<Option<ErrorValue>> {
    if |events| == 0 then [] else EndArgOf(events[0], append) + EndArgsOf(events[1..], append)
  }

  /** The `end` argument one event leads to, if any. */
  function EndArgOf(e: StreamEvent, append: bool): seq<Option<ErrorValue>> {
    match e
    case Close(_) => [None]
    case Error(_, err) => [Some(err)]
    case Message(live, data) => if live && append && data.Unparsable? then [Some(Thrown(data.reason))] else []
    case Aborted => []
  }

  /** The events without the messages the session rejected. */
  function DropRejected(events: seq<StreamEvent>): seq<StreamEvent> {
    if |events| == 0 then []
    else (if events[0].Message? && !events[0].live then [] else [events[0]]) + DropRejected(events[1..])
  }

  /** Splitting a non-empty event sequence into its head and tail. */
  lemma Unfold(e: StreamEvent, rest: seq<StreamEvent>)
    ensures ([e] + rest)[0] == e && ([e] + rest)[1..] == rest
  {
  }

  /** The counting measures of the calls a message's data leads to. */
  lemma DataCallsMeasures(data: Data, sinks: Sinks)
    ensures Starts(DataCalls(data, sinks)) == 0 && Images(DataCalls(data, sinks)) == []
    ensures Fragments(DataCalls(data, sinks)) == (if sinks.append && data.Json? then [OrEmpty(data.result)] else [])
    ensures EndArgs(DataCalls(data, sinks)) ==
      (if sinks.append && sinks.end && data.Unparsable? then [Some(Thrown(data.reason))] else [])
  {
    if sinks.append {
      match data
      case Json(result) => MeasuresOfOne(Append(OrEmpty(result)));
      case Unparsable(reason) => MeasuresOfOne(End(Some(Thrown(reason))));
    }
  }

  /** What one handler contributes to each measure of the trace. */
  lemma CallsMeasures(waiting: bool, e: StreamEvent, sinks: Sinks)
    ensures Starts(CallsOf(waiting, e, sinks)) == (if waiting && sinks.start && e.Message? && e.live then 1 else 0)
    ensures Fragments(CallsOf(waiting, e, sinks)) ==
      (if sinks.append && e.Message? && e.live && e.data.Json? then [OrEmpty(e.data.result)] else [])
    ensures EndArgs(CallsOf(waiting, e, sinks)) == (if sinks.end then EndArgOf(e, sinks.append) else [])
  {
    MeasuresOfOne(Start(""));
    MeasuresOfOne(End(None));
    match e
    case Message(live, data) =>
      if live {
        DataCallsMeasures(data, sinks);
        MeasuresOfConcat(Emit(waiting && sinks.start, Start("")), DataCalls(data, sinks));
      }
    case Error(_, err) => MeasuresOfOne(End(Some(err)));
    case _ =>
  }

  lemma {:induction false} HandleStarts(waiting: bool, events: seq<StreamEvent>, sinks: Sinks)
    ensures Starts(Handle(waiting, events, sinks)) ==
      (if waiting && sinks.start && LiveMessages(Delivered(events, sinks)) > 0 then 1 else 0)
    decreases |events|
  {
    if |events| > 0 {
      var e := events[0];
      var calls := CallsOf(waiting, e, sinks);
      CallsMeasures(waiting, e, sinks);
      if Stops(e, sinks) {
        assert Delivered(events, sinks) == [e];
        Unfold(e, []);
      } else {
        var rest := Handle(WaitingAfter(waiting, e), events[1..], sinks);
        MeasuresOfConcat(calls, rest);
        HandleStarts(WaitingAfter(waiting, e), events[1..], sinks);
        Unfold(e, Delivered(events[1..], sinks));
      }
    }
  }

  lemma {:induction false} HandleStartLeads(events: seq<StreamEvent>, sinks: Sinks)
    ensures sinks.start ==> StartLeads(Handle(true, events, sinks))
    decreases |events|
  {
    if sinks.start && |events| > 0 {
      var e := events[0];
      var calls := CallsOf(true, e, sinks);
      if e.Message? && e.live {
        assert calls[0] == Start("");
        if !Stops(e, sinks) {
          assert (calls + Handle(false, events[1..], sinks))[0] == Start("");
        }
      } else if Stops(e, sinks) {
        assert Fragments(calls) == [];
        StartLeadsAfterQuiet(calls, []);
        assert calls + [] == calls;
      } else {
        HandleStartLeads(events[1..], sinks);
        assert Fragments(calls) == [];
        StartLeadsAfterQuiet(calls, Handle(WaitingAfter(true, e), events[1..], sinks));
      }
    }
  }

  lemma {:induction false} HandleFragments(waiting: bool, events: seq<StreamEvent>, sinks: Sinks)
    ensures Fragments(Handle(waiting, events, sinks)) == (if sinks.append then LiveResults(Delivered(events, sinks)) else [])
    decreases |events|
  {
    if |events| > 0 {
      var e := events[0];
      var calls := CallsOf(waiting, e, sinks);
      CallsMeasures(waiting, e, sinks);
      if Stops(e, sinks) {
        assert Delivered(events, sinks) == [e];
        Unfold(e, []);
      } else {
        var rest := Handle(WaitingAfter(waiting, e), events[1..], sinks);
        MeasuresOfConcat(calls, rest);
        HandleFragments(WaitingAfter(waiting, e), events[1..], sinks);
        Unfold(e, Delivered(events[1..], sinks));
      }
    }
  }

  lemma {:induction false} HandleEnds(waiting: bool, events: seq<StreamEvent>, sinks: Sinks)
    ensures EndArgs(Handle(waiting, events, sinks)) == (if sinks.end then EndArgsOf(Delivered(events, sinks), sinks.append) else [])
    decreases |events|
  {
    if |events| > 0 {
      var e := events[0];
      var calls := CallsOf(waiting, e, sinks);
      CallsMeasures(waiting, e, sinks);
      if Stops(e, sinks) {
        assert Delivered(events, sinks) == [e];
        Unfold(e, []);
      } else {
        var rest := Handle(WaitingAfter(waiting, e), events[1..], sinks);
        MeasuresOfConcat(calls, rest);
        HandleEnds(WaitingAfter(waiting, e), events[1..], sinks);
        Unfold(e, Delivered(events[1..], sinks));
      }
    }
  }

  /** A close, a rethrown error or a parse that threw ends the trace: its `end` call is the last callback. */
  lemma {:induction false} HandleStopsAtEnd(waiting: bool, events: seq<StreamEvent>, sinks: Sinks, k: nat)
    requires k < |events| && sinks.end
    requires forall j :: 0 <= j < k ==> !Stops(events[j], sinks)
    requires Stops(events[k], sinks) && !events[k].Aborted?
    ensures |Handle(waiting, events, sinks)| > 0
    ensures Handle(waiting, events, sinks)[|Handle(waiting, events, sinks)| - 1] == End(StopArg(events[k]))
    decreases k
  {
    if k > 0 {
      assert !Stops(events[0], sinks);
      HandleStopsAtEnd(WaitingAfter(waiting, events[0]), events[1..], sinks, k - 1);
    }
  }

  /** Messages the session rejected leave no trace: they neither call back nor consume the `waitAnswer` flag. */
  lemma {:induction false} HandleIgnoresRejected(waiting: bool, events: seq<StreamEvent>, sinks: Sinks)
    ensures Handle(waiting, events, sinks) == Handle(waiting, DropRejected(events), sinks)
    decreases |events|
  {
    if |events| > 0 {
      var e := events[0];
      HandleIgnoresRejected(WaitingAfter(waiting, e), events[1..], sinks);
      if e.Message? && !e.live {
        assert DropRejected(events) == DropRejected(events[1..]);
        assert Handle(waiting, events, sinks) == [] + Handle(waiting, events[1..], sinks);
      } else {
        assert DropRejected(events) == [e] + DropRejected(events[1..]);
        HandleCons(waiting, e, DropRejected(events[1..]), sinks);
      }
    }
  }

  /** Running the handlers over one event and then the rest. */
  lemma HandleCons(waiting: bool, e: StreamEvent, rest: seq<StreamEvent>, sinks: Sinks)
    ensures Handle(waiting, [e] + rest, sinks) ==
      if Stops(e, sinks) then CallsOf(waiting, e, sinks)
      else CallsOf(waiting, e, sinks) + Handle(WaitingAfter(waiting, e), rest, sinks)
  {
    Unfold(e, rest);
  }

  /** No handler runs after the event that stops the stream: the run over all events is the run over the delivered ones. */
  lemma {:induction false} HandleOnlyDelivered(waiting: bool, events: seq<StreamEvent>, sinks: Sinks)
    ensures Handle(waiting, events, sinks) == Handle(waiting, Delivered(events, sinks), sinks)
    decreases |events|
  {
    if |events| > 0 {
      var e := events[0];
      if Stops(e, sinks) {
        assert Delivered(events, sinks) == [e] + [];
        HandleCons(waiting, e, [], sinks);
      } else {
        assert Delivered(events, sinks) == [e] + Delivered(events[1..], sinks);
        HandleOnlyDelivered(WaitingAfter(waiting, e), events[1..], sinks);
        HandleCons(waiting, e, Delivered(events[1..], sinks), sinks);
      }
    }
  }

  /** `chat2ernieBot`, with the token response, the session after it, and the stream's events given. */
  function Chat2ErnieBot(option: ErnieOption, token: TokenResponse, liveAfterToken: bool, sinks: Sinks,
                         events: seq<StreamEvent>): (o: Outcome)
    ensures o.tokenRequest == TokenUrl(option.apiKey, option.secretKey)
    ensures o.stream.None? <==> token.FetchFailed? || !liveAfterToken
    ensures o.stream.None? ==> o.trace == []
    ensures o.stream.Some? ==>
      && o.stream.value.url == StreamUrl(option.model, token.accessToken)
      && o.stream.value.httpMethod == "POST"
      && o.stream.value.body.messages == option.messages
      && o.stream.value.body.stream
    ensures o.stream.Some? ==>
      && Starts(o.trace) == (if sinks.start && LiveMessages(Delivered(events, sinks)) > 0 then 1 else 0)
      && (sinks.start ==> StartLeads(o.trace))
      && Fragments(o.trace) == (if sinks.append then LiveResults(Delivered(events, sinks)) else [])
      && EndArgs(o.trace) == (if sinks.end then EndArgsOf(Delivered(events, sinks), sinks.append) else [])
  {
    var tokenRequest := TokenUrl(option.apiKey, option.secretKey);
    match token
    case FetchFailed => Outcome(tokenRequest, None, [])
    case TokenJson(accessToken) =>
      if !liveAfterToken then Outcome(tokenRequest, None, [])
      else
        HandleStarts(true, events, sinks);
        HandleStartLeads(events, sinks);
        HandleFragments(true, events, sinks);
        HandleEnds(true, events, sinks);
        var request := StreamRequest(StreamUrl(option.model, accessToken), "POST", StreamBody(option.messages, true));
        Outcome(tokenRequest, Some(request), Handle(true, events, sinks))
  }
}
