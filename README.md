# Streaming chat: a verified model

This project models the two pieces of logic in a small chat application that
streams a model's reply to the browser as it is generated.

- **Frontend (`chat.dfy`, module `Chat`).** The chat component keeps a
  transcript of turns (`user` or `assistant`, each with text content), the
  text-box contents and a loading flag. Submitting does the following:
  - It ignores a blank input, or any submission while a reply is loading.
  - It appends the user turn, clears the box and raises the loading flag.
  - It POSTs the prompt with a fixed model id.
  - It appends an empty assistant turn.
  - For each chunk of the reply body, it decodes the chunk, adds the text to
    an accumulator and replaces the last turn with a copy of the grown turn.
  - Any failure appends the fixed turn "Error: Failed to get response.".
  - The loading flag always comes down at the end.

  The component is the class `ChatSession`. `Submit` is the submission
  handler: its guard, then `Send` for the rest of the handler. `Receive` is the
  try/catch around the reply, and `ReadStream` is its read loop. `Submit` is
  proved against two functions:
  - `Settled`: the transcript once the submission has finished.
  - `Frames`: every transcript the handler publishes, in order.

  Lemmas about these two functions prove that:
  - each publication appends one turn or grows the open turn;
  - earlier turns are never touched;
  - the final assistant text is the in-order concatenation of the decoded
    chunks;
  - the transcript grows by exactly 2 or 3 turns, depending on the exit path.
- **Backend (`backend.dfy`, module `Backend`).** The streaming generator does
  the following:
  - It replaces an empty model id with the default Claude id.
  - It picks the model family by substring test: "claude" first, then
    "llama", otherwise Titan.
  - It builds that family's request body and invokes the model.
  - For each stream event, it extracts the text by the family's rule:
    - Claude: `delta.text` of `content_block_delta` events only.
    - llama: `generation`.
    - Titan: `outputText`.
  - It skips events without a chunk and texts that are false in Python (empty
    text included).
  - Any exception ends the output with one item `"Error: " + message`.

  `GenerateStream` is the generator as a loop that builds the list of yielded
  items. It is proved equal to the specification function `Generated`. Lemmas
  give the output on each path:
  - exactly the truthy texts, in event order;
  - those texts and then one error item;
  - only the error item;
  - nothing.

Both sides take the outside world as parameters:
- The frontend takes the HTTP call as a function from the request to a
  scripted `Response`: the call fails, there is no body, or a body gives chunks
  and then ends or fails.
- The frontend takes the TextDecoder as an arbitrary function from one chunk's
  bytes to text.
- The backend takes the model service as a function from the model id and the
  body to an `Invocation`: the call raises, there is no body stream, or a
  stream gives events and then ends or raises.

The component decodes each chunk with `decoder.decode(value)`, without the
streaming option (frontend/src/components/Chat.tsx:55). A multi-byte character
split across two chunks is therefore decoded in two separate pieces. The model
decodes every chunk independently in the same way, and claims nothing about
split characters. The user turn keeps the input exactly as typed; the trim only
tests for a blank input. The error turn is appended after any partial reply.

## Model

| member | source | states |
|---|---|---|
| Chat.TrimStart | frontend/src/components/Chat.tsx:26 | The leading-whitespace removal of `trim` returns a suffix of the input, everything it drops is whitespace, and what it keeps is empty or starts with a non-whitespace character. |
| Chat.TrimEnd | frontend/src/components/Chat.tsx:26 | The trailing-whitespace removal of `trim` returns a prefix of the input, everything it drops is whitespace, and what it keeps is empty or ends with a non-whitespace character. |
| Chat.Trim | frontend/src/components/Chat.tsx:26 | `input.trim()` is empty, or starts and ends with a non-whitespace character. |
| Chat.TrimEmptyIffBlank | frontend/src/components/Chat.tsx:26 | The guard `!input.trim()` is true exactly when the input consists only of ECMAScript whitespace and line terminators, including the empty input. |
| Chat.DecodeAll | frontend/src/components/Chat.tsx:55-56 | The accumulated `assistantMessage.content`: each chunk decoded on its own, the pieces joined in arrival order. Its properties are the lemmas below. |
| Chat.DecodeAllAppend | frontend/src/components/Chat.tsx:55-56 | Decoding and joining chunk by chunk is a homomorphism: the text of `a + b` is the text of `a` followed by the text of `b`. |
| Chat.DecodeAllFromFront | frontend/src/components/Chat.tsx:55-56 | The accumulated text is the first chunk's decoding followed by the rest's: the chunks are joined in arrival order, without loss. |
| Chat.DecodeAllGrows | frontend/src/components/Chat.tsx:56 | The text after `i` chunks is a prefix of the text after `j >= i` chunks: the open turn never shrinks or is rewritten. |
| Chat.DecodeAllExample | frontend/src/components/Chat.tsx:55-56 | Chunks decoding to "Hel", "lo, " and "world" accumulate to "Hello, world". |
| Chat.Answered | frontend/src/components/Chat.tsx:33-67 | From the transcript with the user turn, handling the reply adds one turn, or two when a read fails mid-stream, and keeps what was there. With a body, the first added turn is the assistant turn with the decoded chunks. On a failed call, a missing body or a failed read, the last turn is the fixed error turn. |
| Chat.Settled | frontend/src/components/Chat.tsx:28-70 | The final transcript keeps the old transcript as a prefix and then has the raw user turn. After that comes the assistant turn holding the concatenated decoded chunks (when there is a body), and the fixed error turn last on every failure path. It grows by 2 turns, or by 3 when a read fails mid-stream. |
| Chat.StreamFrames | frontend/src/components/Chat.tsx:47-62 | The read loop publishes one more snapshot than there are chunks, and the first is the empty placeholder. |
| Chat.ReplyFrames | frontend/src/components/Chat.tsx:33-67 | Handling the reply publishes one snapshot on a failed call or a missing body, chunks+1 on a completed stream and chunks+2 on a failed read. The last snapshot is the transcript of `Answered`. |
| Chat.Frames | frontend/src/components/Chat.tsx:29-67 | The published snapshots are the user turn, then the placeholder before any chunk is read (when there is a body), and so on. There are 2 snapshots on a failed call, chunks+2 on success and chunks+3 on a failed read. The last one is the settled transcript. |
| Chat.ChainExtends | frontend/src/components/Chat.tsx:58-62 | Along any chain of append-or-grow publications, the last transcript keeps every earlier turn in place and only lets the open turn's content grow. |
| Chat.StreamFramesGrow | frontend/src/components/Chat.tsx:51-62 | Each streaming step keeps the length of the previous snapshot and every turn but the last, and replaces the last with an assistant turn whose text extends the previous one. |
| Chat.ReplyFramesAppendOnly | frontend/src/components/Chat.tsx:33-67 | Starting from the transcript with the user turn, every snapshot published while the reply is handled appends one turn or grows the open one. |
| Chat.FramesAppendOnly | frontend/src/components/Chat.tsx:29-67 | Each snapshot a submission publishes either appends exactly one turn to the previous one, or keeps its length, keeps all but the last turn, and extends the last turn's content with the same role. |
| Chat.FramesKeepEarlierTurns | frontend/src/components/Chat.tsx:28-67 | Every snapshot a submission publishes, the final one included, starts with the earlier transcript and the user turn, both unchanged: later turns are only added or grown after them. |
| Chat.HelloScenario | frontend/src/components/Chat.tsx:28-63 | Input "Hi" answered by "He" and "llo" publishes `[user Hi]`, then `[..., assistant ""]`, then `[..., assistant "He"]`, then `[..., assistant "Hello"]`. |
| Chat.WithLastReplaced | frontend/src/components/Chat.tsx:58-62 | The streaming updater keeps the length and every turn but the last, and sets the last to the given copy. |
| Chat.ChatSession.constructor | frontend/src/components/Chat.tsx:10-12 | A new session has an empty transcript, an empty input and is not loading. |
| Chat.ChatSession.SetInput | frontend/src/components/Chat.tsx:304 | Typing sets the input and changes nothing else. |
| Chat.ChatSession.ReadStream | frontend/src/components/Chat.tsx:45-63 | The read loop runs only while loading with the input cleared, and leaves both so. It ends with the old transcript plus one assistant turn holding the concatenation of the decoded chunks. The snapshots it publishes are exactly `StreamFrames`. |
| Chat.ChatSession.Receive | frontend/src/components/Chat.tsx:33-67 | The reply is handled only while loading with the input cleared, and both stay so throughout. Handling it appends the error turn on a failed call or a missing body. Otherwise it appends the streamed assistant turn, then the error turn if a read failed. It publishes exactly the snapshots of that path. |
| Chat.ChatSession.Send | frontend/src/components/Chat.tsx:28-70 | Past the guard, the handler clears the input and raises the loading flag before the reply is handled (a precondition of `Receive`). It sends `{prompt: input before clearing, modelId: the fixed id}` and publishes exactly `Frames`. It ends with the transcript of `Settled`, the input cleared and loading false on every exit path. |
| Chat.ChatSession.Submit | frontend/src/components/Chat.tsx:24-71 | A blank input, or a submission while loading, changes nothing and sends nothing. Otherwise the submission is a `Send`, with the same request, snapshots and final state. |
| Backend.Contains | backend/main.py:40 | Python's `sub in s`: the empty string is in every string, and a string that is found is no longer than the one searched. |
| Backend.OccurrenceIsFound | backend/main.py:40 | If `sub` occurs at some position of `s`, the substring test `sub in s` is true. |
| Backend.FoundIsOccurrence | backend/main.py:40 | If `sub in s` is true, the lemma returns a position at which `sub` occurs. |
| Backend.ContainsIffOccurs | backend/main.py:40 | Python's substring test `sub in s` holds exactly when `sub` occurs at some position of `s`. |
| Backend.EffectiveModelId | backend/main.py:35-36 | An empty model id becomes the default Claude id. A non-empty one is kept as given. The result is never empty. |
| Backend.FamilyOf | backend/main.py:40-65 | The family is Claude iff the id contains "claude". It is llama iff the id contains "llama" and not "claude". Otherwise it is Titan. |
| Backend.FamilyByOccurrence | backend/main.py:40-47 | The same ordered family choice, stated by the positions where "claude" and "llama" occur in the id. |
| Backend.DefaultModelIsClaude | backend/main.py:35-40 | A request with an empty model id is served with the Claude body and extraction. |
| Backend.BuildBody | backend/main.py:40-65 | The body has the shape of the chosen family. It carries the prompt unchanged (as Claude's single user message, llama's `prompt`, or Titan's `inputText`) and carries the token limit. |
| Backend.Truthy | backend/main.py:92 | Python's truth value of a decoded JSON value: false for null, false, zero, the empty string, list and dict. |
| Backend.NoGetMessage | backend/main.py:84-90 | The message of the AttributeError raised by `.get` on a value that is not a dict, naming its Python type. |
| Backend.Get | backend/main.py:84-90 | `dict.get(key, default)` is the key's value when the key is present, and the default otherwise. |
| Backend.ExtractText | backend/main.py:82-90 | Extraction raises exactly when the chunk is not an object, or for Claude when a `content_block_delta` chunk has no `delta` or a non-object `delta`. The message is the AttributeError naming the type, or `'delta'` for the missing key. Otherwise the text is the field's value, or "" when it is absent: `delta.text` for Claude, `generation` for llama and `outputText` for Titan. A Claude chunk of any other `type` gives "". Truthy text comes only from these fields. |
| Backend.Step | backend/main.py:77-93 | An event raises exactly when its bytes failed to decode or extraction raised, and the exception's message is kept. An event that raises nothing yields its extracted text exactly when that text is truthy, and yields nothing when it has no chunk or its text is falsy. For Claude, a chunk object of any other `type` yields nothing. |
| Backend.Consume | backend/main.py:76-93 | Every item the event loop yields is truthy, and there are at most as many items as events. |
| Backend.ConsumeAppend | backend/main.py:76-93 | The loop over `a + b` is the loop over `a`, then, only if nothing was raised, the loop over `b`: items come out in event order. |
| Backend.ConsumeFirstRaise | backend/main.py:76-96 | When the event at `j` is the first to raise, the loop yields the truthy texts of the events before it and stops with that event's exception. |
| Backend.ConsumeStopsAtRaise | backend/main.py:76-96 | Once an event raises, later events are never read and yield nothing. |
| Backend.SilentEventChangesNothing | backend/main.py:77-93 | Removing an event that yields nothing (no chunk, or empty text) does not change the output. |
| Backend.TextOf | backend/main.py:77-90 | The text an event's chunk offers, read by the family's rule; the definition the loop is compared against. |
| Backend.Texts | backend/main.py:76-90 | The texts of the events, one per event, in event order. |
| Backend.KeepTruthy | backend/main.py:92-93 | The filter `if text_chunk`: keeps only truthy values, each taken from the input, and never more than there are. |
| Backend.KeepTruthyAppend | backend/main.py:92-93 | Filtering `a + b` is filtering `a` and then `b`: the filter keeps the order. |
| Backend.ConsumeOneMore | backend/main.py:76-93 | One more event that raises nothing adds its text to the output when that text is truthy, and nothing otherwise. |
| Backend.ConsumeKeepsTruthyTexts | backend/main.py:76-93 | When no event raises, the loop yields exactly the truthy extracted texts of the events, in event order. |
| Backend.Invoke | backend/main.py:67-72 | The model is invoked with the effective model id and the body built for that id's family. |
| Backend.Outcome | backend/main.py:67-96 | Every text the generator yields before any error is truthy. |
| Backend.Generated | backend/main.py:38-96 | The output is the yielded texts, then exactly one `"Error: " + message` item if an exception occurred, and nothing after it. If invoking the model raises, the error item is the only output. A response without a body stream yields nothing. |
| Backend.GenerateStream | backend/main.py:34-96 | The generator's loop yields exactly `Generated` for the request and the model service. |
| Backend.CleanStreamYieldsTexts | backend/main.py:74-93 | With no exception, the output is exactly the truthy texts of the events, read by the family of the effective model id, in order. |
| Backend.RaisingEventEndsStream | backend/main.py:76-96 | When the event at `j` is the first to raise, the output is the truthy texts of the events before `j`, then one error item carrying the exception's message. |
| Backend.StreamFailureEndsStream | backend/main.py:76-96 | When reading the stream raises after its events, the texts of all events are kept and one error item follows them. |

## Left out

- Rendering, styles, animations, the "Thinking..." indicator, viewport breakpoints, scrolling and refs (frontend/src/components/Chat.tsx:14-22, 73-368): presentation only.
- `fetch`, `ReadableStream` and `TextDecoder` internals: they are parameters. The server is a function from the request to a scripted response, and the decoder is an arbitrary function from one chunk's bytes to text.
- HTTP status codes: a response with an error status still has a body, and its text is streamed like any other reply. The model's `Body` covers that case.
- Split multi-byte characters: the component does not carry bytes across chunks, so a character split between chunks is decoded as two pieces. The model does the same and proves nothing about split characters.
- Chat.ChatSession.ReadStream / Chat.StreamFrames: the component appends the accumulator object `assistantMessage` itself as the placeholder (Chat.tsx:49) and then grows its `content` in place (Chat.tsx:56), so the placeholder already handed to `setMessages` grows too before the copy at line 60 replaces it. The model keeps the accumulator as a separate value and records each snapshot as the value it holds when published; this in-place growth through the shared object is not captured.
- React's asynchronous batching of `setMessages` updaters, and the `isLoading` value captured by the handler's closure: the model runs a submission as one atomic sequential method. Each updater is applied to the current transcript at once. Typing while a reply streams is therefore not modelled.
- `console.error` logging on failure: output only.
- Strings are sequences of Unicode characters rather than UTF-16 code units. This matters only for characters outside the Basic Multilingual Plane, none of which is whitespace for `trim`.
- The `temperature` field (a float) in the request and in every body: it is only passed through.
- `json.dumps` of the bodies, and `json.loads`/`.decode()` of event bytes: bodies are records per family. An event's chunk arrives as a decoded JSON value, or as the message of the exception decoding raised.
- JSON numbers are integers. Floats behave the same way for truthiness (zero is false) and are not otherwise inspected.
- The boto3 client, FastAPI routing, the CORS middleware and `StreamingResponse` (backend/main.py:10-26, 98-100): network and framework plumbing. If an extracted value is truthy but not a string, the generator yields it as is (the model's items are JSON values). What `StreamingResponse` then does with it is outside this model.
- The mutation of `request.modelId` (backend/main.py:36): modelled as a local value. Nothing reads the request object after the generator.
- `list_models` (backend/main.py:102-111): a constant list with no logic.
