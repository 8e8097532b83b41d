# News summarizer: a verified model of its sequential core

The news summarizer is a Next.js chat application. A user pastes a news
article URL. The server route asks a language model for a streamed reply and
lets the model call a `fetch_article` tool. The tool fetches the article
through a readability service and normalises it. The client page streams the
reply into the transcript and can read a reply aloud through a text-to-speech
endpoint.

This project models the five pieces of sequential logic behind those network
calls and proves what each promises.

- `chat_route.dfy` (module `ChatRoute`): the tool-augmented completion loop of
  `POST /api/chat`.
  - The conversation is seeded with the system prompt and the client
    history.
  - Each round forwards the non-empty text deltas.
  - On `response.completed`, the loop acts on the first function call: it
    runs the tool and appends the call and its output.
  - The loop requests another round exactly when a call was acted on.
  - The language model is a *script*: one sequence of events per round.
    The methods `HandleEvent`, `ConsumeRound`, `RunRounds` and `Respond`
    are the loop.
    Left folds over the script (`Chunks`, `Calls`, `Pairs`) specify them.
- `fetch_article.dfy` (module `FetchArticle`): `fetchArticle` once the HTTP
  reply is in.
  - A non-OK response gives the status error.
  - Content shorter than 50 characters gives the "could not extract" error.
  - Content over 15000 characters is cut with a marker.
  - The title and subtitle get defaults, and the author is always absent.
- `audio_context.dfy` (module `AudioContext`): the class `AudioProvider`.
  - Its fields are the current audio (status and message id), the cache of
    generated audio urls and the loaded audio element.
  - Its transitions are `requestTTS`, `playFromUrl`, `togglePlayPause`,
    `discard`, the element's `ended` event and the listen button's guard.
  - Every transition keeps `Valid()`: an element is loaded exactly when
    audio is playing or paused, and it holds the current message's cached
    url.
- `chat.dfy` (module `ChatTranscript`): the class `Chat` and `handleSend`.
  - The transcript gains the user's message and an empty placeholder.
  - Chunks are appended to the placeholder by id.
  - Any failure replaces the placeholder with a fixed apology.
  - `isLoading` is false again on every path.
- `chat_input.dfy` (module `ChatInput`): the class `ChatInputBox` and
  `handleSubmit`.
  - It trims the input with the white space of `String.prototype.trim`.
  - It refuses a blank message or a submit while a reply is loading.
  - Otherwise it sends the trimmed text and clears the box.
  - The send button's `disabled` expression is the same condition.
- Shared modules: `Wrappers` (`Option`, `Result`), `Messages` (roles and
  role/content messages) and `Strings` (joining chunks, decimal rendering of
  a status code).

The HTTP requests, the language model, JSON parsing and the tool's thrown
values are inputs to the model:

- The script of rounds stands in for the language model.
- The `Collaborators` functions stand in for `JSON.parse(arguments).url` and
  the readability request made for each tool call.
- `ReaderResponse` stands in for the readability reply.
- `ChatReply` stands in for the reply `handleSend` reads.
- `TtsReply` stands in for the speech endpoint's reply.

## Model

| member | source | states |
|---|---|---|
| FetchArticle.Normalize | my-app/app/api/helpers/fetch-article.ts:24-48 | an article comes back exactly when the response is OK and its content has at least 50 characters; a non-OK response gives the status error; short or empty content gives the "could not extract" error |
| FetchArticle.Truncate | my-app/app/api/helpers/fetch-article.ts:37-41 | the result is at most the cap plus the marker; it fits the cap exactly when the content did; it starts with the content's first min(length, 15000) characters |
| FetchArticle.TruncateIdempotent | my-app/app/api/helpers/fetch-article.ts:37-41 | truncating an already truncated text changes nothing |
| FetchArticle.NormalizedContent | my-app/app/api/helpers/fetch-article.ts:31-41 | a returned article's content keeps at least the first 50 input characters; it is the input itself up to 15000 characters, and otherwise the first 15000 plus the marker, of exactly 15000 + marker length |
| FetchArticle.NormalizedHeadings | my-app/app/api/helpers/fetch-article.ts:43-48 | the title is the given one when non-empty and "Untitled" otherwise; the subtitle is present exactly when the description is non-empty and is then the description; the author is always absent |
| FetchArticle.StatusError | my-app/app/api/helpers/fetch-article.ts:25 | the non-OK message starts with "Failed to fetch article: HTTP " and carries more after it |
| FetchArticle.StatusErrorNamesStatus | my-app/app/api/helpers/fetch-article.ts:24-26 | the status error is the fixed prefix followed by digits whose decimal value is the status |
| FetchArticle.StatusErrorInjective | my-app/app/api/helpers/fetch-article.ts:25 | different statuses give different error messages |
| Strings.NatToDecimal | my-app/app/api/helpers/fetch-article.ts:25 | the rendering of a status is a non-empty digit string with no leading zero |
| Strings.DecimalRoundTrip | my-app/app/api/helpers/fetch-article.ts:25 | reading the rendered digits back gives the number |
| ChatRoute.Seed | my-app/app/api/chat/route.ts:50-59 | the first conversation is the system prompt followed by every client message, in order, with its role and content |
| ChatRoute.AsInput | my-app/app/api/chat/route.ts:55-58 | the client messages map one-to-one, in order, to input messages with the same role and content |
| ChatRoute.ErrorMessage | my-app/app/api/chat/route.ts:99-104 | the `error` text of a failed tool call: an `Error`'s message, otherwise the fixed fallback; its use is stated by `ToolOutcomes` |
| ChatRoute.RunTool | my-app/app/api/chat/route.ts:90-105 | the tool's output for one call: the argument text is parsed, the readability service is asked for that call, and the reply is normalised; every case is stated by `ToolOutcomes` |
| ChatRoute.ToolOutcomes | my-app/app/api/chat/route.ts:90-105 | an argument parse failure or a thrown fetch gives an error output with the thrown message (or "Failed to fetch article" for a non-Error); an unusable article gives an error output with its message; only a normalised article gives an article output, with bounded content |
| ChatRoute.RetryCanSucceed | my-app/app/api/helpers/fetch-article.ts:18-26 | each call makes its own request: there are collaborators under which a call fails with HTTP 503 and a second call with the same arguments returns an article |
| ChatRoute.FirstCall | my-app/app/api/chat/route.ts:82-84 | nothing is found exactly when no output item is a function call; otherwise the call found is at some index with no function call before it |
| ChatRoute.FirstCallOfAppend | my-app/app/api/chat/route.ts:82-89 | items after the first function call never change the call acted on; items before any call are skipped |
| ChatRoute.HandleEvent | my-app/app/api/chat/route.ts:74-118 | one event forwards its delta only when it is a non-empty text delta; a completed response with a call appends the call and its output; the flag is set exactly when a call was appended |
| ChatRoute.ConsumeRound | my-app/app/api/chat/route.ts:73-120 | a round forwards its chunks in order and appends the pairs of the calls it acted on, keeping the old conversation as a prefix; the loop flag is set exactly when the round acted on a call |
| ChatRoute.RunRounds | my-app/app/api/chat/route.ts:61-121 | from a given seed: the stream is the chunks of the rounds run, in order; the conversation is the seed then the pairs of every call acted on; every round but the last acted on a call; the loop ended by itself exactly when the last round run acted on none; requests stop only then or when the script is exhausted |
| ChatRoute.Respond | my-app/app/api/chat/route.ts:50-123 | the stream is the chunks of the rounds run, in order; the conversation is the seed then the pairs of every call acted on; every round but the last acted on a call; the stream is closed exactly when the last round run acted on none; requests stop only when the loop ends or the script is exhausted |
| ChatRoute.RoundTextIsDeltaText | my-app/app/api/chat/route.ts:73-79 | a round's forwarded text is exactly the joined text of its delta events, no other event kind contributes, and no forwarded chunk is empty |
| ChatRoute.StreamIsDeltaText | my-app/app/api/chat/route.ts:63-79 | the whole response body is the text of the deltas of all rounds run, in round order, with no empty chunk |
| ChatRoute.PairsShape | my-app/app/api/chat/route.ts:107-115 | the appended items are two per call: the call, then an output with the call's `call_id` and the tool's result |
| ChatRoute.ConversationPaired | my-app/app/api/chat/route.ts:107-115 | in every conversation the loop builds, each tool output directly follows the call with its `call_id`, and each call is directly followed by its output |
| ChatRoute.ConversationGrows | my-app/app/api/chat/route.ts:107-115 | the conversation after fewer rounds is a prefix of the conversation after more, and the seed is a prefix of both |
| ChatRoute.RoundsAndPairs | my-app/app/api/chat/route.ts:63-121 | with at most one completed response per round, a loop that stopped after N requests has acted on N-1 calls and sends a conversation of the history plus 1 + 2(N-1) items |
| AudioContext.AudioProvider.constructor | my-app/app/components/audio-context.tsx:27-31 | nothing is current, the cache is empty and no element is loaded |
| AudioContext.AudioProvider.Cleanup | my-app/app/components/audio-context.tsx:33-39 | the element is dropped and nothing else changes |
| AudioContext.AudioProvider.Discard | my-app/app/components/audio-context.tsx:41-44 | no audio is current and no element is loaded afterwards; the cache is kept |
| AudioContext.AudioProvider.Ended | my-app/app/components/audio-context.tsx:51-54 | the end of playback resets to no current audio and no element, keeping the cache |
| AudioContext.AudioProvider.PlayFromUrl | my-app/app/components/audio-context.tsx:46-60 | the message's cached url is loaded and the message is playing; the cache is kept |
| AudioContext.AudioProvider.RequestTTS | my-app/app/components/audio-context.tsx:62-72 | a message with a cached url goes straight to playing it with no request; any other message becomes generating, and its text is what is posted |
| AudioContext.AudioProvider.TtsSettled | my-app/app/components/audio-context.tsx:81-94 | an audio reply adds exactly the message's entry to the cache and plays it; a non-OK reply or a thrown request leaves no current audio and the cache unchanged |
| AudioContext.AudioProvider.TogglePlayPause | my-app/app/components/audio-context.tsx:99-113 | playing and paused swap, keeping the message; with no element, no current audio, or generating, nothing changes |
| AudioContext.AudioProvider.Listen | my-app/app/components/chat-message.tsx:20-28 | while some audio is current the button changes nothing and sends nothing; otherwise a cached message plays its cached url at once with no request, and any other message becomes generating with no element loaded and posts the message's content |
| AudioContext.AudioProvider.IsGenerating | my-app/app/components/chat-message.tsx:30-32 | a message shown as generating has no element loaded |
| ChatTranscript.Payload | my-app/app/components/chat.tsx:34-37 | the payload has one entry per message, in order, with its role and content |
| ChatTranscript.AppendChunk | my-app/app/components/chat.tsx:63-69 | the length and every id and role are kept; the message with the id gets the chunk appended, and every other message is unchanged |
| ChatTranscript.ReplaceContent | my-app/app/components/chat.tsx:71-78 | the length and every id and role are kept; the message with the id now reads the given text, and every other message is unchanged |
| ChatTranscript.AppendChunkToLast | my-app/app/components/chat.tsx:63-69 | when only the placeholder has its id, a chunk leaves the earlier messages as they were and extends the placeholder |
| ChatTranscript.ReplaceContentOfLast | my-app/app/components/chat.tsx:71-78 | when only the placeholder has its id, the failure text replaces the placeholder alone |
| ChatTranscript.Chat.constructor | my-app/app/components/chat.tsx:12-13 | the transcript starts empty and not loading |
| ChatTranscript.Chat.ReadStream | my-app/app/components/chat.tsx:58-70 | after the reader loop the placeholder holds all chunks joined in arrival order, the earlier messages are untouched, and loading is still on |
| ChatTranscript.Chat.ShowError | my-app/app/components/chat.tsx:71-78 | after a failure the placeholder reads the apology, the earlier messages are untouched and loading is unchanged |
| ChatTranscript.Chat.HandleSend | my-app/app/components/chat.tsx:20-82 | the payload is the old transcript plus the user's message as role and content; the transcript grows by exactly the user's message and the assistant's message, which holds the joined chunks after a complete stream and the apology after a non-OK reply or any throw; loading is off on every path |
| ChatInput.LeadingSpace | my-app/app/components/chat-input.tsx:25 | the count covers only white space and stops at the first other character |
| ChatInput.TrailingSpace | my-app/app/components/chat-input.tsx:25 | everything from the returned index on is white space, and the character before it is not |
| ChatInput.Trim | my-app/app/components/chat-input.tsx:25 | the trimmed text is no longer than the input and, when non-empty, neither starts nor ends with white space |
| ChatInput.TrimIsInnerSlice | my-app/app/components/chat-input.tsx:25 | the trimmed text is the slice of the input between its leading and trailing white space, and starts and ends with other characters when non-empty |
| ChatInput.TrimEmptyIffBlank | my-app/app/components/chat-input.tsx:25-26 | the trimmed text is empty exactly when every input character is white space |
| ChatInput.TrimIdempotent | my-app/app/components/chat-input.tsx:25 | trimming the trimmed text changes nothing |
| ChatInput.SendDisabled | my-app/app/components/chat-input.tsx:50 | the button is disabled when the trimmed input is empty or a reply is loading; `Submission` states that a submit is accepted exactly when it is not |
| ChatInput.Submission | my-app/app/components/chat-input.tsx:23-30 | something is sent exactly when the send button is enabled (line 50); what is sent is the trimmed input and is never empty |
| ChatInput.NothingSentWhenBlankOrLoading | my-app/app/components/chat-input.tsx:25-26 | an all-white-space input is never sent, and nothing is sent while loading |
| ChatInput.ChatInputBox.constructor | my-app/app/components/chat-input.tsx:14 | the box starts empty |
| ChatInput.ChatInputBox.SetInput | my-app/app/components/chat-input.tsx:41 | typing replaces the box's text |
| ChatInput.ChatInputBox.HandleSubmit | my-app/app/components/chat-input.tsx:23-30 | the sent value is the submission decision on the text as it was; an accepted submit clears the box and a refused one leaves it unchanged |

## Left out

- The OpenAI SDK (`openai.responses.create`, the speech API): foreign network clients. A script of event rounds replaces the completion stream. The speech reply is the `TtsReply` input.
- Stream plumbing (`ReadableStream`, `TextEncoder`/`TextDecoder`, `for await`, `reader.read()`): streams are sequences of strings, and encoding and decoding are the identity.
- `JSON.parse` and `JSON.stringify`: parsing the tool arguments is the abstract `parseUrl` function. The serialised tool result is the `ToolOutput` datatype itself, so the text layout of the JSON is not modelled. An argument object without `url` is whatever `parseUrl` returns.
- The readability request in `fetchArticle` is I/O. Its outcome is the input `ReaderResponse`, or a thrown value from `fetchReader`. An absent or null JSON field reads as "".
- ChatRoute.RunTool: the readability reply is a function of the tool call and the url, so different calls may get different replies (`RetryCanSucceed`). Only a second request for the very same call, which the loop never makes, would be forced to repeat the first reply.
- `my-app/app/api/tts/route.ts` (the speech endpoint) and the rendering components are not part of this model. Only the listen button's guard and generating indicator from `chat-message.tsx` are.
- Browser audio objects (`HTMLAudioElement`, `play`/`pause`, `URL.createObjectURL`): the element is represented by the url it plays. Whether it is actually sounding is not modelled.
- React state batching and stale closures: each handler reads and writes the fields directly, one at a time. The whole of `requestTTS` sees the cache as it was when it began.
- Scroll, focus and `setTimeout` effects are not modelled. Message ids from `crypto.randomUUID` are parameters.
- Concurrency: a client that disconnects mid-stream, overlapping `requestTTS` calls and overlapping sends are not modelled. Every operation is atomic and sequential. The await in `requestTTS` is modelled by splitting it into `RequestTTS` (up to the request) and `TtsSettled` (after it settles). A `Discard` between the two does not cancel the pending request, as in the source.
- ChatRoute.Respond: a failing completion request is not modelled. In the source, a rejected `openai.responses.create` or an error thrown by the event stream in the middle of a round makes the stream's `start` reject. The deltas already sent stay sent, no further round is requested and the stream is never closed. In the model every request yields a whole round of events.
- The `POST` handler's outer `try`/`catch` and its 500 response are not modelled: only a failure in building the stream object reaches it.
- ChatRoute.RunRounds: the loop has no bound of its own. In the model it also stops when the script has no round for the next request. That stop is reported as `closed == false` rather than as an unending request.
- ChatRoute.HandleEvent: the tool call's `name` is not checked, because the source does not check it either.
- ChatRoute.RoundsAndPairs: the N-1 count assumes at most one `response.completed` event per round. The loop itself acts on every completed event, as the source does.
- FetchArticle.Normalize: JavaScript measures `content.length` and `slice` in UTF-16 code units. The model counts Dafny characters (Unicode scalar values), so the two limits agree only on text without astral characters.
- ChatInput.LeadingSpace: white space is the ECMAScript WhiteSpace and LineTerminator set written out by code point. The `Zs` category is taken as of current Unicode.
- ChatTranscript.Chat.HandleSend: it requires the assistant id to be fresh and different from the user id, which `crypto.randomUUID` provides in practice. A transport failure part way through a stream is the `broken` flag of `ChatReply`.
- AudioContext.AudioProvider.PlayFromUrl: it requires that its url is the message's cached url. Both of its callers pass that url, and the requirement is what lets `Valid()` relate the element to the cache.
