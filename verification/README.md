# Chat2Assistant provider adapters, in Dafny

Chat2Assistant is a desktop chat client. It forwards a conversation to one of
several hosted language models: OpenAI, iFLYTEK Spark, Baidu ERNIE Bot and
Alibaba Tongyi. Each provider's answer is streamed back through four optional
callbacks: `startAnswer`, `appendAnswer`, `imageGenerated` and `end`. This
project models the part of the client that talks to the providers:

- **the wire-string builders**:
  - the Spark WebSocket URL, with its HMAC signing string and Base64
    authorization string, and the JSON request frame;
  - the ERNIE OAuth token URL and event-stream URL, and the stream request;
- **the model-to-endpoint tables** for ERNIE and Tongyi, and the provider
  dispatcher `chat2bigModel`;
- **the adapters** `chat2spark`, `chat2ernieBot` and `chat2openai`, as
  functions from what the transport delivers to the sequence of callback
  invocations they make (a *trace*);
- **`renderMarkdown`'s streaming cursor**, spliced in before the last closing
  tag of the rendered HTML;
- **the older snapshots** of the Spark and ERNIE builders.

How the model represents the runtime:

- **Callbacks.** Which optional callbacks the caller supplied is a `Sinks`
  record.
- **Session predicate.** The `checkSession` predicate is the `live` flag on
  each transport event: the value the predicate returns when that event's
  handler runs. An absent predicate is always live.
- **Opaque primitives.** The cryptographic primitives (HMAC-SHA256 then
  Base64, and `btoa`) are function-valued parameters. `btoa` throwing on a
  character above U+00FF is modelled explicitly, as a `None` URL.
- **JavaScript string behaviour** is written out, because the code depends on
  it:
  - `substring` clamps and swaps its bounds;
  - `lastIndexOf` returns -1 when nothing is found;
  - `??` and falsy empty strings;
  - a template literal prints a missing value as `undefined`.

Modules:

| file | module | what |
|---|---|---|
| wrappers.dfy | Wrappers | `Option` |
| js_string.dfy | JsString | JavaScript `substring`, `lastIndexOf`, `??` and truthiness as the code uses them, and split-and-join readers that take the built URLs apart |
| chat_types.dfy | ChatTypes | stored and forwarded messages |
| callbacks.dfy | Callbacks | callback invocations, traces and their measures |
| spark.dfy | Spark | `big-model/spark-util.ts` |
| ernie_bot.dfy | ErnieBot | `big-model/ernie-bot-util.ts` |
| openai.dfy | OpenAI | `big-model/openai-util.ts` |
| tongyi.dfy | Tongyi | `big-model/tongyi-util.ts` |
| big_model.dfy | BigModel | `big-model/index.ts` |
| markdown.dfy | Markdown | `markdown-util.ts` |

The older snapshots `utils/spark-util.ts` and `utils/ernie-bot-util.ts` have
the same URL, signing, frame and endpoint-table code as the `big-model/`
versions, and the same members model both. The one difference is the Spark
frame's message type: the older frame forwards stored `ChatMessage` records,
with their ids and creation times, instead of role-and-content pairs.
`Spark.RequestParam` is generic in the message type, so
`RequestParam<ChatMessage>` is the older frame and `RequestParam<BaseMessage>`
the newer one. `ErnieBot.ChatUrl` is the endpoint table of both ERNIE files.

`JsString.Split`, `Join` and the query readers model no call in the code,
which never splits or joins a string. They are read-back tools: they take a
built URL or signing string apart into its fields, so that each builder's
layout can be stated as a round trip. Their rows cite the line whose output
they read back.

## Model

| member | source | states |
|---|---|---|
| JsString.SubstringSplit | src/renderer/src/utils/markdown-util.ts:23-26 | `substring(0, k)` followed by `substring(k)` is the whole string for every index, including -1 and indices past the end, so the splice loses and repeats nothing |
| JsString.SubstringInRange | src/renderer/src/utils/markdown-util.ts:24 | bounds inside the string and in order select exactly that slice |
| JsString.SubstringFrom | src/renderer/src/utils/markdown-util.ts:26 | `substring(k)` is the suffix from `k` clamped into the string, the whole string for `k = -1` |
| JsString.LastIndexAtOrBelow | src/renderer/src/utils/markdown-util.ts:21 | the result is -1 or an occurrence at or below the start bound, and no occurrence lies between it and the bound |
| JsString.LastIndexOf | src/renderer/src/utils/markdown-util.ts:21 | `lastIndexOf` is -1 exactly when the needle occurs nowhere; otherwise it is an occurrence with none after it |
| JsString.IndexOf | src/renderer/src/utils/markdown-util.ts:12 | the search for the `>` that ends a `[^>]+>` run finds a position inside the string |
| JsString.IndexOfSpec | src/renderer/src/utils/markdown-util.ts:12 | the `>` that ends a `[^>]+>` run is the first one: none exactly when there is none, otherwise a position holding it with none before it |
| JsString.IndexOfAfter | src/renderer/src/utils/big-model/spark-util.ts:8-10 | a separator absent from a prefix is first found in what follows the prefix, which is how the host is read off the endpoint URL |
| JsString.Split | src/renderer/src/utils/big-model/spark-util.ts:19 | read-back tool, no call in the code: cutting a built string at one character gives at least one part |
| JsString.SplitPartsFree | src/renderer/src/utils/big-model/spark-util.ts:19 | read-back tool: no part of a cut string holds the separator |
| JsString.SplitCons | src/renderer/src/utils/big-model/spark-util.ts:19 | read-back tool: a separator-free head, the separator and a rest are cut into the head followed by the rest's parts |
| JsString.Join3 | src/renderer/src/utils/big-model/spark-util.ts:14 | the three-line template reads as the first piece, the separator, the second, the separator, the third |
| JsString.SplitJoin | src/renderer/src/utils/big-model/spark-util.ts:17-19 | read-back tool: separator-free fields, put together by a template and cut apart again, come back unchanged |
| JsString.JoinSplit | src/renderer/src/utils/big-model/spark-util.ts:17-19 | read-back tool: cutting a string apart and putting it back together restores it |
| JsString.QueryFieldsOfBuiltUrl | src/renderer/src/utils/big-model/spark-util.ts:19 | read-back tool: a URL built as base `?` fields separated by `&` (no `?` in the base, no `&` in a field) reads back as exactly those fields |
| Callbacks.StartLeadsMeans | src/renderer/src/utils/big-model/spark-util.ts:76-84 | the "start leads" property of a trace holds exactly when every `appendAnswer` call has a `startAnswer` call before it |
| Spark.HostUrl | src/renderer/src/utils/big-model/spark-util.ts:3-5 | the endpoint is the fixed `wss://spark-api.xf-yun.com/` prefix, then the model name verbatim, then `/chat` |
| Spark.HostUrlParts | src/renderer/src/utils/big-model/spark-util.ts:8-10 | reading the endpoint back gives host `spark-api.xf-yun.com` and path `/<model>/chat` |
| Spark.SigningStringLayout | src/renderer/src/utils/big-model/spark-util.ts:14 | the signing string is exactly `host: H`, newline, `date: D`, newline, `GET P HTTP/1.1` |
| Spark.SigningStringLines | src/renderer/src/utils/big-model/spark-util.ts:14 | when host, date and path hold no newline, the signing string splits back into exactly its three lines |
| Spark.AuthorizationOriginFields | src/renderer/src/utils/big-model/spark-util.ts:17 | when key and signature hold no comma, the authorization string splits back into its four fields: api key, algorithm, headers, signature |
| Spark.Latin1Join | src/renderer/src/utils/big-model/spark-util.ts:18 | a joined string is one `btoa` accepts exactly when every part is |
| Spark.OriginLatin1 | src/renderer/src/utils/big-model/spark-util.ts:17-18 | `btoa` accepts the authorization string exactly when the API key and the signature are Latin-1 |
| Spark.WsUrl | src/renderer/src/utils/big-model/spark-util.ts:7-20 | no URL exactly when `btoa` would throw; otherwise the endpoint followed by the authorization, date and host fields, with the authorization being the Base64 of the signed authorization string |
| Spark.SignedUrlLayout | src/renderer/src/utils/big-model/spark-util.ts:19 | the socket URL reads `<endpoint>?authorization=A&date=D&host=H` |
| Spark.WsUrlQuery | src/renderer/src/utils/big-model/spark-util.ts:19 | for a model without `?` and `&`-free authorization and date, the URL's query reads back as exactly the authorization, date and host fields |
| Spark.Domain | src/renderer/src/utils/big-model/spark-util.ts:34 | the domain is `generalv` followed by the model's second character, or `generalv` alone for a name shorter than two |
| Spark.RequestParam | src/renderer/src/utils/big-model/spark-util.ts:22-45 | the frame carries the app id, uid `123456`, temperature 0.5, max tokens 4096, the messages unchanged, and the domain `generalv` followed by the model's second character, or exactly `generalv` for a name shorter than two characters |
| Spark.CallsMeasures | src/renderer/src/utils/big-model/spark-util.ts:64-103 | one handler starts only for an accepted message while waiting, appends only an accepted well-formed message's text, and ends only on an accepted close or error |
| Spark.HandleSends | src/renderer/src/utils/big-model/spark-util.ts:64-70 | exactly one request frame goes out per open the session accepted, each the same frame |
| Spark.HandleStarts | src/renderer/src/utils/big-model/spark-util.ts:71-81 | `startAnswer('')` fires once if any message is accepted while still waiting, otherwise never |
| Spark.HandleStartLeads | src/renderer/src/utils/big-model/spark-util.ts:76-84 | with a start callback, no append precedes the start |
| Spark.HandleFragments | src/renderer/src/utils/big-model/spark-util.ts:82-84 | the appends are the content field of every accepted well-formed message, in order, `''` when absent |
| Spark.HandleEnds | src/renderer/src/utils/big-model/spark-util.ts:86-103 | `end()` fires with no argument once per close or error the session accepted, so possibly twice or not at all |
| Spark.HandleIgnoresRejected | src/renderer/src/utils/big-model/spark-util.ts:64-103 | events the session rejected change nothing: the run equals the run over the accepted events alone |
| Spark.Chat2Spark | src/renderer/src/utils/big-model/spark-util.ts:47-104 | the socket URL is `WsUrl`'s; if `btoa` throws, nothing is sent or called; otherwise the sends, starts, start order, appends and ends are as above |
| ErnieBot.ChatUrl | src/renderer/src/utils/big-model/ernie-bot-util.ts:3-21 | a non-empty endpoint exactly for the four known models, each under the shared `wenxinworkshop/chat/` prefix; `''` for any other name |
| ErnieBot.ChatUrlHasNoQuery | src/renderer/src/utils/big-model/ernie-bot-util.ts:3-21 | no endpoint holds a `?` |
| ErnieBot.ChatUrlInjective | src/renderer/src/utils/big-model/ernie-bot-util.ts:4-16 | distinct known models reach distinct endpoints |
| ErnieBot.TokenUrlLayout | src/renderer/src/utils/big-model/ernie-bot-util.ts:50-52 | the token URL reads `https://aip.baidubce.com/oauth/2.0/token?grant_type=client_credentials&client_id=K&client_secret=S` |
| ErnieBot.TokenUrlQuery | src/renderer/src/utils/big-model/ernie-bot-util.ts:51 | for `&`-free keys the token URL's query reads back as the grant type, the API key and the secret key |
| ErnieBot.StreamUrlQuery | src/renderer/src/utils/big-model/ernie-bot-util.ts:60 | the stream URL starts with the model's endpoint, and its query is the single `access_token` field, `undefined` when the token is missing |
| ErnieBot.DataCallsMeasures | src/renderer/src/utils/big-model/ernie-bot-util.ts:78-80 | with `appendAnswer` given, parsed data is appended (`''` for a missing `result`) and unparsable data calls `end(err)`; without it, the data causes nothing |
| ErnieBot.CallsMeasures | src/renderer/src/utils/big-model/ernie-bot-util.ts:67-97 | one handler starts only for an accepted message while waiting, appends only an accepted parsable message's result, and ends on every close and error, and on a thrown parse |
| ErnieBot.HandleOnlyDelivered | src/renderer/src/utils/big-model/ernie-bot-util.ts:82-97 | no handler runs after a close, a rethrown `Error` or a thrown parse: the callbacks over all events are the callbacks over those delivered up to the stop |
| ErnieBot.HandleStarts | src/renderer/src/utils/big-model/ernie-bot-util.ts:67-77 | `startAnswer('')` fires once if the delivered events hold an accepted message, otherwise never |
| ErnieBot.HandleStartLeads | src/renderer/src/utils/big-model/ernie-bot-util.ts:72-80 | with a start callback, no append precedes the start |
| ErnieBot.HandleFragments | src/renderer/src/utils/big-model/ernie-bot-util.ts:78-80 | the appends are the `result` of each accepted parsable message delivered before the stream stops, in order |
| ErnieBot.HandleEnds | src/renderer/src/utils/big-model/ernie-bot-util.ts:82-97 | `end()` per close and `end(err)` per error, whatever the session says, plus `end(err)` for a parse that threw; all counted only up to the stream's stop |
| ErnieBot.HandleStopsAtEnd | src/renderer/src/utils/big-model/ernie-bot-util.ts:82-97 | when a close, a rethrown `Error` or a thrown parse stops the stream, its `end` call is the last callback |
| ErnieBot.HandleIgnoresRejected | src/renderer/src/utils/big-model/ernie-bot-util.ts:67-70 | messages the session rejected change nothing, not even the waiting flag |
| ErnieBot.Chat2ErnieBot | src/renderer/src/utils/big-model/ernie-bot-util.ts:35-99 | the token URL is always requested; the stream opens exactly when the token fetch succeeds and the session still holds, as a POST to the stream URL with the messages and `stream: true`; with no stream there are no callbacks; the starts, appends and ends are as above |
| OpenAI.BranchOf | src/renderer/src/utils/big-model/openai-util.ts:44-67 | chat exactly when the type is chat and messages are given (even an empty list); drawing exactly when the type is drawing and the prompt is non-empty |
| OpenAI.ChunkLoopSpec | src/renderer/src/utils/big-model/openai-util.ts:58-66 | the loop appends each chunk's delta (`''` when absent) up to the first chunk the session rejects or that lacks a choice while appending, and it finishes exactly when no chunk stopped it |
| OpenAI.Chat2OpenAI | src/renderer/src/utils/big-model/openai-util.ts:22-89 | on each branch, the request made (a streamed completion with the max tokens, an image generation asking for a URL, or none) and the trace; with neither branch only `end()` fires |
| OpenAI.ChatEndIsLast | src/renderer/src/utils/big-model/openai-util.ts:44-88 | on the chat path `end` fires at most once, is then the last callback, and no image is reported |
| OpenAI.DrawingEndIsLast | src/renderer/src/utils/big-model/openai-util.ts:67-88 | on the drawing path `end` fires at most once, is then the last callback, and nothing is appended |
| OpenAI.EndAtMostOnceAndLast | src/renderer/src/utils/big-model/openai-util.ts:44-88 | for any option and any backend, `end` fires at most once and last; appends only on the chat path, images only on the drawing path |
| OpenAI.ChatRejectedAfterCreate | src/renderer/src/utils/big-model/openai-util.ts:52-54 | when the session fails right after the stream is created, nothing is called, not even `end` |
| OpenAI.ChatStartsOnce | src/renderer/src/utils/big-model/openai-util.ts:52-57 | once the session holds after creation, `startAnswer('')` is the first callback and fires once, even for an empty stream |
| OpenAI.ChatFragments | src/renderer/src/utils/big-model/openai-util.ts:58-66 | the chat path's appends are the delta texts of the chunks processed, in order |
| OpenAI.ChatEnds | src/renderer/src/utils/big-model/openai-util.ts:58-88 | `end()` fires on the chat path exactly when every chunk was processed and the stream completed |
| OpenAI.DrawingTrace | src/renderer/src/utils/big-model/openai-util.ts:74-84 | a failed session gives nothing; an empty vendor URL reports `''` and ends without a save; a vendor URL is saved and reports the local path, and a failed save leaves neither image nor end |
| Tongyi.ChatUrl | src/renderer/src/utils/big-model/tongyi-util.ts:1-15 | the three text models share the text-generation endpoint, `qwen-vl-plus` gets the multimodal one, and only unknown names get `''` |
| Tongyi.EndpointsDiffer | src/renderer/src/utils/big-model/tongyi-util.ts:3-9 | text and multimodal models get different endpoints |
| BigModel.Route | src/renderer/src/utils/big-model/index.ts:10-23 | a provider name selects the case of that name, and none exactly when no case has it |
| BigModel.RouteByName | src/renderer/src/utils/big-model/index.ts:10-23 | each provider's name selects that provider, and no two providers share a name |
| BigModel.Dispatch | src/renderer/src/utils/big-model/index.ts:6-24 | at most one adapter is called, the one named, with the option passed on unchanged |
| BigModel.Chat2BigModel | src/renderer/src/utils/big-model/index.ts:6-24 | the dispatcher's trace is that of the selected adapter, and empty for an unknown name |
| BigModel.UnknownProviderIsSilent | src/renderer/src/utils/big-model/index.ts:10-23 | an unknown provider runs no adapter and calls nothing back |
| BigModel.KnownProviderRunsItsAdapter | src/renderer/src/utils/big-model/index.ts:10-23 | each provider name yields exactly its adapter's trace |
| Markdown.MatchAt | src/renderer/src/utils/markdown-util.ts:12 | a match of `<\/[^>]+>` starting at a position is a closing-tag token, and when none is found no closing tag starts there |
| Markdown.NoCloseTagAfterEarlyGt | src/renderer/src/utils/markdown-util.ts:12 | `</>` starts no match, because the tag name must be non-empty |
| Markdown.NoCloseTagWithoutGt | src/renderer/src/utils/markdown-util.ts:12 | without a later `>`, `</` starts no match |
| Markdown.ScanFrom | src/renderer/src/utils/markdown-util.ts:12 | every match found lies inside the HTML, at or after the scan's start, and is at least four characters long |
| Markdown.ScanFromSound | src/renderer/src/utils/markdown-util.ts:12 | every match found is a closing tag, and the matches come left to right without overlap |
| Markdown.CoveringMatch | src/renderer/src/utils/markdown-util.ts:12 | for any position where a closing tag starts, names the match found that covers it |
| Markdown.ScanFromComplete | src/renderer/src/utils/markdown-util.ts:12 | every position where a match could start lies inside a token found, so no closing tag is missed |
| Markdown.Tokens | src/renderer/src/utils/markdown-util.ts:12-13 | there is one token per match of the closing-tag pattern |
| Markdown.TokenAt | src/renderer/src/utils/markdown-util.ts:12-13 | each token is the text of its match, and that text is a closing tag |
| Markdown.NoTokensMeansNoMatch | src/renderer/src/utils/markdown-util.ts:12-13 | the match result is empty exactly when no position starts a closing tag |
| Markdown.RenderMarkdown | src/renderer/src/utils/markdown-util.ts:7-30 | when not loading, or when the HTML has no closing tag, the HTML is returned unchanged |
| Markdown.CursorIndex | src/renderer/src/utils/markdown-util.ts:21 | the cursor position lies within the HTML |
| Markdown.CursorSplice | src/renderer/src/utils/markdown-util.ts:21-26 | while loading, the output is the HTML with the cursor span inserted at the cursor position |
| Markdown.CursorRemovable | src/renderer/src/utils/markdown-util.ts:23-26 | the output is longer by the span's length, holds the span at the cursor position, and cutting it out restores the HTML |
| Markdown.CursorBeforeChosenTag | src/renderer/src/utils/markdown-util.ts:15-21 | when a tag is chosen, the cursor sits right before its last occurrence in the HTML |
| Markdown.TokenOccurs | src/renderer/src/utils/markdown-util.ts:12 | each token occurs in the HTML where it was matched |
| Markdown.LastIndexOfAtLeast | src/renderer/src/utils/markdown-util.ts:21 | `lastIndexOf` finds an occurrence no earlier than any known one |
| Markdown.CursorForLoneSkippedTag | src/renderer/src/utils/markdown-util.ts:17-21 | when the only token is `</pre>`, `</ol>` or `</ul>`, the search is for the text `undefined`; if the HTML lacks it, the cursor goes at the very start |
| Markdown.CursorBeforeLastTag | src/renderer/src/utils/markdown-util.ts:15-21 | the cursor sits right before the last occurrence in the HTML of the last closing tag, or of the one before it when the last is `</pre>`, `</ol>` or `</ul>` |

## Left out

- Network transports: the WebSocket, `fetch`, fetch-event-source and the OpenAI SDK are not modelled. Each is a sequence of events or results the caller supplies.
- HMAC-SHA256 and Base64 are opaque functions, and the clock (`toGMTString`) is a parameter. Their actual values are not modelled.
- `JSON.stringify` and `JSON.parse` are not modelled. Frames and bodies are records, and parse results are datatype cases (`Parsed`/`Malformed`, `Json`/`Unparsable`).
- Spark.HostUrl: `new URL(...)` normalisation is not modelled. Percent-encoding of unusual characters, dot-segment removal and case-folding of the host are out, because the URL parser is not part of this model. The model name is taken verbatim.
- JavaScript strings are UTF-16, but the model uses sequences of characters. A non-BMP character in the HTML would shift `substring` indices by one code unit.
- `markdown-it` rendering and highlighting are not modelled. `renderMarkdown` starts from the rendered HTML.
- `chat2tongyi` is not part of this model, because its body is not in the repository files. The dispatcher takes its trace as given. `getTongyiChatUrl` is modelled.
- The `randomUUID()` file name and `saveFileByUrl` are not modelled. The save is an input giving the local path or a failure.
- `abortCtr` appears only as the `Aborted` stream event, after which no handler runs.
- The retry timer of fetch-event-source after a non-`Error` failure is not modelled. The model lets the stream go on delivering events.
- The `temperature: 0.5` literal is modelled as the real 0.5. JavaScript number precision is not modelled.
- `console.log` calls are left out.
- Errors thrown back to the caller are not modelled, so those paths show no further callbacks. This covers a rejected token fetch or SDK call and `btoa`'s exception.
- A throw in the Spark message handler (malformed JSON) is not propagated anywhere in the model. It skips that message's append; the waiting flag is already consumed, and later socket events are handled as usual.

Facts about the code that a reader might not expect, all modelled as written:

- `end` is not called exactly once. Spark calls `end()` for every accepted close and error, which can mean twice or never. ERNIE calls `end` for every close and error, whatever the session says. OpenAI skips `end` when the session fails or a call rejects.
- No provider name is validated and no error is raised for an unsupported one. An unknown name selects no case, and `chat2bigModel` returns without calling anything.
- The `BigModelProvider` type lists only `OpenAI` and `Spark`, but the switch handles four names. The model follows the switch.
