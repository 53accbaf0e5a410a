/**
 * The OpenAI adapter: which branch a call takes, the request it makes, and
 * the callback trace of the chat stream and of the drawing path.
 */
module OpenAI {
  import opened Wrappers
  import opened JsString
  import opened ChatTypes
  import opened Callbacks

  /** The option's `type`. */
  datatype Mode = Chat | Drawing

  datatype OpenAIOption = OpenAIOption(
    apiKey: string, baseURL: string, mode: Mode, model: string, maxTokens: int,
    messages: Option<seq<BaseMessage>>, imagePrompt: Option<string>, imageSize: Option<string>)

  datatype Branch = ChatBranch | DrawingBranch | NoBranch

  /** The branch `chat2openai` takes: an empty prompt is falsy, an empty message list is not. */
  function BranchOf(option: OpenAIOption): (b: Branch)
    ensures b == ChatBranch <==> option.mode == Chat && option.messages.Some?
    ensures b == DrawingBranch <==>
      option.mode == Drawing && option.imagePrompt.Some? && Truthy(option.imagePrompt.value)
  {
    if option.mode == Chat && option.messages.Some? then ChatBranch
    else if option.mode == Drawing && option.imagePrompt.Some? && Truthy(option.imagePrompt.value) then DrawingBranch
    else NoBranch
  }

  /** The SDK request a call makes. */
  datatype Request =
    | NoRequest
    | ChatCompletion(messages: seq<BaseMessage>, model: string, stream: bool, maxTokens: int)
    | ImageGeneration(prompt: string, model: string, size: Option<string>, responseFormat: string)

  /** One streamed chunk, tagged with what the session predicate returned when it arrived. */
  datatype Chunk =
    | Delta(live: bool, content: Option<string>)   // `choices[0].delta.content`, present or absent
    | NoChoice(live: bool)                         // `choices[0]` is missing, so reading its delta throws

  /** What the chat-completion call produced. */
  datatype StreamResult =
    | CreateFailed                                                   // the create call rejects
    | Created(liveAfterCreate: bool, chunks: seq<Chunk>, completes: bool)   // completes: false when iteration throws after the chunks

  /** What the image call and the file save produced. */
  datatype ImageResult =
    | GenerateFailed                                                 // the generate call rejects, or its `data` is empty
    | Generated(liveAfterGenerate: bool, url: Option<string>, saved: Option<string>)   // saved: the local path, None when the save rejects

  /** What the vendor and the file saver answer, whichever branch asks. */
  datatype Backend = Backend(stream: StreamResult, image: ImageResult)

  /** What one call did: its request, the vendor URL it asked to save (if any), the callbacks it invoked. */
  datatype Outcome = Outcome(request: Request, savedFrom: Option<string>, trace: seq<Callback>)

  /** The `for await` loop: the calls it makes, and whether it ran to the end of the chunks. */
  function ChunkLoop(chunks: seq<Chunk>, sinks: Sinks): (r: (seq<Callback>, bool))
    decreases |chunks|
  {
    if |chunks| == 0 then ([], true)
    else
      var c := chunks[0];
      if !c.live then ([], false)
      else if c.NoChoice? && sinks.append then ([], false)
      else
        var rest := ChunkLoop(chunks[1..], sinks);
        ((if sinks.append then [Append(OrEmpty(c.content))] else []) + rest.0, rest.1)
  }

  /** How many chunks pass the loop's checks before the first that returns or throws. */
  function Processed(chunks: seq<Chunk>, appendPresent: bool): (k: nat)
    ensures k <= |chunks|
  {
    if |chunks| == 0 then 0
    else if !chunks[0].live || (chunks[0].NoChoice? && appendPresent) then 0
    else 1 + Processed(chunks[1..], appendPresent)
  }

  /** The delta text of each chunk that has one, `''` when the field is absent. */
  function DeltaTexts(chunks: seq<Chunk>): seq<string> {
    if |chunks| == 0 then []
    else (if chunks[0].Delta? then [OrEmpty(chunks[0].content)] else []) + DeltaTexts(chunks[1..])
  }

  /** The loop appends the delta of every chunk up to the first failing check, and nothing else; it finishes iff no check failed. */
  lemma {:induction false} ChunkLoopSpec(chunks: seq<Chunk>, sinks: Sinks)
    ensures Starts(ChunkLoop(chunks, sinks).0) == 0
    ensures Images(ChunkLoop(chunks, sinks).0) == [] && EndArgs(ChunkLoop(chunks, sinks).0) == []
    ensures Fragments(ChunkLoop(chunks, sinks).0) ==
      (if sinks.append then DeltaTexts(chunks[..Processed(chunks, sinks.append)]) else [])
    ensures ChunkLoop(chunks, sinks).1 <==> Processed(chunks, sinks.append) == |chunks|
    decreases |chunks|
  {
    if |chunks| > 0 {
      var c := chunks[0];
      if c.live && !(c.NoChoice? && sinks.append) {
        var rest := ChunkLoop(chunks[1..], sinks);
        var head := if sinks.append then [Append(OrEmpty(c.content))] else [];
        ChunkLoopSpec(chunks[1..], sinks);
        MeasuresOfConcat(head, rest.0);
        var k := Processed(chunks[1..], sinks.append);
        assert chunks[..k + 1] == [c] + chunks[1..][..k];
        assert ([c] + chunks[1..][..k])[0] == c;
        assert ([c] + chunks[1..][..k])[1..] == chunks[1..][..k];
      }
    }
  }

  /** The trace without `end`, and whether control reaches the final `end` call. */
  function ChatBody(stream: StreamResult, sinks: Sinks): (seq<Callback>, bool) {
    match stream
    case CreateFailed => ([], false)
    case Created(live, chunks, completes) =>
      if !live then ([], false)
      else
        var loop := ChunkLoop(chunks, sinks);
        (Emit(sinks.start, Start("")) + loop.0, loop.1 && completes)
  }

  /** The trace of the chat path, `end` included when control reaches it. */
  function ChatTraceOf(stream: StreamResult, sinks: Sinks): seq<Callback> {
    var body := ChatBody(stream, sinks);
    body.0 + (if body.1 then Emit(sinks.end, End(None)) else [])
  }

  /** The drawing path: the trace without `end`, whether control reaches `end`, and the URL handed to the file saver. */
  function DrawingBody(image: ImageResult, sinks: Sinks): (seq<Callback>, bool, Option<string>) {
    match image
    case GenerateFailed => ([], false, None)
    case Generated(live, url, saved) =>
      if !live then ([], false, None)
      else
        var vendorUrl := OrEmpty(url);
        if Truthy(vendorUrl) then
          match saved
          case None => ([], false, Some(vendorUrl))
          case Some(path) => (Emit(sinks.image, Image(path)), true, Some(vendorUrl))
        else (Emit(sinks.image, Image("")), true, None)
  }

  /** The trace of the drawing path, `end` included when control reaches it. */
  function DrawingTraceOf(image: ImageResult, sinks: Sinks): seq<Callback> {
    var body := DrawingBody(image, sinks);
    body.0 + (if body.1 then Emit(sinks.end, End(None)) else [])
  }

  /** `chat2openai`, with the vendor's and the file saver's answers given. */
  function Chat2OpenAI(option: OpenAIOption, backend: Backend, sinks: Sinks): (o: Outcome)
    ensures BranchOf(option) == NoBranch ==>
      o.request == NoRequest && o.savedFrom.None? && o.trace == Emit(sinks.end, End(None))
    ensures BranchOf(option) == ChatBranch ==>
      && o.request == ChatCompletion(option.messages.value, option.model, true, option.maxTokens)
      && o.savedFrom.None?
      && o.trace == ChatTraceOf(backend.stream, sinks)
    ensures BranchOf(option) == DrawingBranch ==>
      && o.request == ImageGeneration(option.imagePrompt.value, option.model, option.imageSize, "url")
      && o.savedFrom == DrawingBody(backend.image, sinks).2
      && o.trace == DrawingTraceOf(backend.image, sinks)
  {
    match BranchOf(option)
    case NoBranch =>
      Outcome(NoRequest, None, Emit(sinks.end, End(None)))
    case ChatBranch =>
      Outcome(ChatCompletion(option.messages.value, option.model, true, option.maxTokens), None,
              ChatTraceOf(backend.stream, sinks))
    case DrawingBranch =>
      Outcome(ImageGeneration(option.imagePrompt.value, option.model, option.imageSize, "url"),
              DrawingBody(backend.image, sinks).2, DrawingTraceOf(backend.image, sinks))
  }

  /** On the chat path, `end` fires at most once and nothing follows it; no image is reported. */
  lemma ChatEndIsLast(stream: StreamResult, sinks: Sinks)
    ensures |EndArgs(ChatTraceOf(stream, sinks))| <= 1
    ensures |EndArgs(ChatTraceOf(stream, sinks))| == 1 ==>
      ChatTraceOf(stream, sinks)[|ChatTraceOf(stream, sinks)| - 1] == End(None)
    ensures Images(ChatTraceOf(stream, sinks)) == []
  {
    var body := ChatBody(stream, sinks);
    var tail := if body.1 then Emit(sinks.end, End(None)) else [];
    assert EndArgs(body.0) == [] && Images(body.0) == [] by {
      if stream.Created? && stream.liveAfterCreate {
        var loop := ChunkLoop(stream.chunks, sinks);
        ChunkLoopSpec(stream.chunks, sinks);
        MeasuresOfConcat(Emit(sinks.start, Start("")), loop.0);
        MeasuresOfOne(Start(""));
      }
    }
    MeasuresOfOne(End(None));
    MeasuresOfConcat(body.0, tail);
  }

  /** On the drawing path, `end` fires at most once and nothing follows it; nothing is appended. */
  lemma DrawingEndIsLast(image: ImageResult, sinks: Sinks)
    ensures |EndArgs(DrawingTraceOf(image, sinks))| <= 1
    ensures |EndArgs(DrawingTraceOf(image, sinks))| == 1 ==>
      DrawingTraceOf(image, sinks)[|DrawingTraceOf(image, sinks)| - 1] == End(None)
    ensures Fragments(DrawingTraceOf(image, sinks)) == []
  {
    var body := DrawingBody(image, sinks);
    var tail := if body.1 then Emit(sinks.end, End(None)) else [];
    MeasuresOfOne(End(None));
    MeasuresOfOne(Image(""));
    if image.Generated? && image.saved.Some? {
      MeasuresOfOne(Image(image.saved.value));
    }
    MeasuresOfConcat(body.0, tail);
  }

  /**
   * Whatever branch a call takes, `end()` fires at most once and is then the
   * last callback; appends come only from the chat path and images only from
   * the drawing path.
   */
  lemma EndAtMostOnceAndLast(option: OpenAIOption, backend: Backend, sinks: Sinks)
    ensures |EndArgs(Chat2OpenAI(option, backend, sinks).trace)| <= 1
    ensures |EndArgs(Chat2OpenAI(option, backend, sinks).trace)| == 1 ==>
      Chat2OpenAI(option, backend, sinks).trace[|Chat2OpenAI(option, backend, sinks).trace| - 1] == End(None)
    ensures Fragments(Chat2OpenAI(option, backend, sinks).trace) != [] ==> BranchOf(option) == ChatBranch
    ensures Images(Chat2OpenAI(option, backend, sinks).trace) != [] ==> BranchOf(option) == DrawingBranch
  {
    match BranchOf(option)
    case NoBranch => MeasuresOfOne(End(None));
    case ChatBranch => ChatEndIsLast(backend.stream, sinks);
    case DrawingBranch => DrawingEndIsLast(backend.image, sinks);
  }

  /** When the session fails right after the stream is created, nothing at all is called, not even `end`. */
  lemma ChatRejectedAfterCreate(chunks: seq<Chunk>, completes: bool, sinks: Sinks)
    ensures ChatTraceOf(Created(false, chunks, completes), sinks) == []
  {
  }

  /** On the chat path, once the session holds after creation, `startAnswer('')` comes first and exactly once, even with no chunks. */
  lemma ChatStartsOnce(chunks: seq<Chunk>, completes: bool, sinks: Sinks)
    ensures Starts(ChatTraceOf(Created(true, chunks, completes), sinks)) == (if sinks.start then 1 else 0)
    ensures sinks.start ==> ChatTraceOf(Created(true, chunks, completes), sinks)[0] == Start("")
  {
    var loop := ChunkLoop(chunks, sinks);
    ChunkLoopSpec(chunks, sinks);
    var body := ChatBody(Created(true, chunks, completes), sinks);
    var tail := if body.1 then Emit(sinks.end, End(None)) else [];
    MeasuresOfConcat(Emit(sinks.start, Start("")), loop.0);
    MeasuresOfConcat(body.0, tail);
    if sinks.start {
      assert body.0[0] == Start("");
      assert (body.0 + tail)[0] == Start("");
    }
  }

  /** On the chat path, the appends are the chunks' delta texts, in order, up to the first chunk that fails a check. */
  lemma ChatFragments(chunks: seq<Chunk>, completes: bool, sinks: Sinks)
    ensures Fragments(ChatTraceOf(Created(true, chunks, completes), sinks)) ==
      (if sinks.append then DeltaTexts(chunks[..Processed(chunks, sinks.append)]) else [])
  {
    var loop := ChunkLoop(chunks, sinks);
    ChunkLoopSpec(chunks, sinks);
    var body := ChatBody(Created(true, chunks, completes), sinks);
    var tail := if body.1 then Emit(sinks.end, End(None)) else [];
    MeasuresOfConcat(Emit(sinks.start, Start("")), loop.0);
    MeasuresOfConcat(body.0, tail);
  }

  /** On the chat path, `end()` fires only when every chunk passed its checks and the stream completed. */
  lemma ChatEnds(chunks: seq<Chunk>, completes: bool, sinks: Sinks)
    ensures |EndArgs(ChatTraceOf(Created(true, chunks, completes), sinks))| ==
      (if sinks.end && Processed(chunks, sinks.append) == |chunks| && completes then 1 else 0)
  {
    var loop := ChunkLoop(chunks, sinks);
    ChunkLoopSpec(chunks, sinks);
    var body := ChatBody(Created(true, chunks, completes), sinks);
    var tail := if body.1 then Emit(sinks.end, End(None)) else [];
    MeasuresOfConcat(Emit(sinks.start, Start("")), loop.0);
    MeasuresOfConcat(body.0, tail);
  }

  /** On the drawing path: `imageGenerated` fires once, with the saved local path or `''`, unless the session failed or a call rejected. */
  lemma DrawingTrace(url: Option<string>, saved: Option<string>, sinks: Sinks)
    ensures DrawingTraceOf(Generated(false, url, saved), sinks) == []
    ensures DrawingBody(Generated(false, url, saved), sinks).2.None?
    ensures !Truthy(OrEmpty(url)) ==>
      && DrawingBody(Generated(true, url, saved), sinks).2.None?
      && Images(DrawingTraceOf(Generated(true, url, saved), sinks)) == (if sinks.image then [""] else [])
      && |EndArgs(DrawingTraceOf(Generated(true, url, saved), sinks))| == (if sinks.end then 1 else 0)
    ensures Truthy(OrEmpty(url)) ==>
      && DrawingBody(Generated(true, url, saved), sinks).2 == Some(url.value)
      && Images(DrawingTraceOf(Generated(true, url, saved), sinks)) ==
         (if sinks.image && saved.Some? then [saved.value] else [])
      && |EndArgs(DrawingTraceOf(Generated(true, url, saved), sinks))| == (if sinks.end && saved.Some? then 1 else 0)
  {
    var body := DrawingBody(Generated(true, url, saved), sinks);
    MeasuresOfOne(End(None));
    MeasuresOfOne(Image(""));
    if saved.Some? {
      MeasuresOfOne(Image(saved.value));
    }
    MeasuresOfConcat(body.0, if body.1 then Emit(sinks.end, End(None)) else []);
  }
}
