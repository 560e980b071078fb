# Streaming chat session store and citation links, in Dafny

This project models the client side of a chat front-end. The front-end streams an assistant's answer over a server-sent-event connection.

- `types.dfy` (module `Types`) holds the value shapes: `Source` and `ChatMessage`. `ChatMessage` is a user turn or an assistant turn, and an assistant turn has an optional trace step.
- `conversation.dfy` (module `Conversation`) holds the pure core of the store's `updateAssistantMessage`. That is a `map` over the history that patches only the assistant turn whose id was captured when the stream started. It also has lemmas about what a run of events does to the history.
- `chat_store.dfy` (module `Store`) holds the store as a class `ChatStore`. Its fields are `history`, `isLoading`, `error`, `eventSource` and `isClosing`. There is one method per action (`StartStream`, `StopStream`) and one per connection callback: the `trace`, `sources`, `chunk`, `error` and `done` listeners, and the transport's `onerror`.
  - The connection is an opaque `Handle`.
  - `es.close()` is `Close`. It records in a ghost log which handle was closed and whether `isClosing` was already set at that moment.
  - The class invariant `Valid()` has three parts. A connection is held exactly while loading. A held connection is never marked closing. Every close was issued after `isClosing` was set. The last part is the property that lets the `error` listener and `onerror` tell the echo of an intentional close from a network failure.
  - Five session methods drive a fresh store through whole sessions and state the outcome for all payloads: a completed answer followed by the close echo, a stop followed by the close echo, a network failure, a server-sent `error` event, and a superseded session.
- `answer_card.dfy` (module `AnswerCard`) holds the answer renderer's link resolution. An href that contains `#citation-` followed by digits is read as a source id, and the first source with that id becomes a citation popover. Every other link stays an external link with its href unchanged. An empty answer renders nothing.

The model follows the code where a cleaner design would differ:

- A `chunk` does not clear the trace step.
- The `error` event does not clear the trace step.
- An empty query is not rejected. `StartStream` has no precondition on `query`.
- A malformed `sources` payload is not caught, because `JSON.parse` has no handler around it.

## Model

| member | source | states |
|---|---|---|
| `Conversation.ApplyPatch` | src/store/chatStore.ts:87-105 | Each updater changes exactly the one field it names. `trace` and `done` replace `traceStep`, `sources` replaces `sources` wholesale, and `chunk` and `error` append to `content`. The id and the assistant role are kept. |
| `Conversation.UpdateAssistantMessage` | src/store/chatStore.ts:75-85 | The history keeps its length and order. Every entry whose id is the captured id and whose role is assistant is patched. Every other entry is kept as it was. |
| `Conversation.UpdateKeepsIds` | src/store/chatStore.ts:78-84 | An update never adds, drops, reorders or renames a turn: the sequence of ids is unchanged. |
| `Conversation.StaleTargetIsNoOp` | src/store/chatStore.ts:79-83 | An event whose captured id matches no assistant turn leaves the history unchanged. |
| `Conversation.FreshTargetIsUnique` | src/store/chatStore.ts:38-58 | After a user turn and an assistant turn with a fresh id are appended, that assistant turn is the only entry an update with its id can touch. |
| `Conversation.UpdateFreshTurn` | src/store/chatStore.ts:75-85 | Every event of a session patches the session's fresh assistant turn and leaves all earlier turns and the user turn alone. |
| `Conversation.AppendsCompose` | src/store/chatStore.ts:98-105 | Two appends in a row equal one append of their concatenation. |
| `Conversation.ReplacementsOverwrite` | src/store/chatStore.ts:87-96 | A later `trace` or `done` overwrites an earlier trace step, and a later `sources` overwrites earlier sources. Neither accumulates. |
| `Conversation.AppendNothing` | src/store/chatStore.ts:99 | Appending the empty string, or the text of the sentinel chunk `"None"`, leaves the history unchanged. |
| `Conversation.ChunksAccumulate` | src/store/chatStore.ts:98-105 | Chunks c1..cn applied in order equal one append of c1 + ... + cn, with each `"None"` read as the empty string. |
| `Conversation.ChunkedTurn` | src/store/chatStore.ts:98-105 | After chunks c1..cn, a target turn's content is its old content followed by c1 + ... + cn. Its sources and trace step are untouched, and every other turn is unchanged. |
| `Store.ErrorText` | src/store/chatStore.ts:112-114 | A present, non-empty `error` payload is surfaced as it is. An absent or empty payload is surfaced as the generic message. The surfaced message is never empty. |
| `Store.ChatStore.constructor` | src/store/chatStore.ts:22-27 | The initial state has an empty history, no connection, no error, is not loading and is not closing. |
| `Store.ChatStore.Close` | src/store/chatStore.ts:159 | Closing a connection records the handle together with the value of `isClosing` at that moment. |
| `Store.ChatStore.StopStream` | src/store/chatStore.ts:153-163 | Without a connection it changes nothing, so a second stop is a no-op. With a connection it sets `isClosing` before the close, then releases the handle and stops loading. It never changes `error` or `history`, and it keeps `Valid()`. |
| `Store.ChatStore.StartStream` | src/store/chatStore.ts:29-66 | A held connection is first stopped and closed with the flag set. Afterwards the store is loading, has no error, is not closing and holds exactly the new connection. The history is the old one plus a user turn carrying the query and an assistant turn with empty content, no sources and the planning trace step. |
| `Store.ChatStore.OnTrace` | src/store/chatStore.ts:87-90 | The target turn's trace step becomes the payload. Only `history` can change. |
| `Store.ChatStore.OnSources` | src/store/chatStore.ts:92-96 | The target turn's sources are replaced wholesale by the decoded payload. Only `history` can change. |
| `Store.ChatStore.OnChunk` | src/store/chatStore.ts:98-105 | The payload is appended to the target turn's content, with `"None"` read as nothing. Only `history` can change. |
| `Store.ChatStore.OnErrorEvent` | src/store/chatStore.ts:107-121 | While closing, nothing changes. Otherwise `error` becomes the payload, or the generic message, and the marked note `"\n\n[Error] "` plus that message is appended to the target turn. The trace step is kept. |
| `Store.ChatStore.OnDone` | src/store/chatStore.ts:123-131 | The target turn's trace step is cleared and the stream is stopped. Afterwards there is no connection and nothing is loading. If a connection was held, `isClosing` is true and the close was issued with the flag set. `error` is unchanged. |
| `Store.ChatStore.OnTransportError` | src/store/chatStore.ts:133-150 | While closing, nothing changes. Otherwise the store stops loading, surfaces the network error and sets `isClosing` before closing `es`. It then releases the handle. The history is unchanged. |
| `Store.CompletedSession` | src/store/chatStore.ts:29-163 | Start, trace, sources, two chunks, done, then the close echo to the `error` listener and to `onerror`, on a fresh store, for any payloads. The answer is the two chunks in order, with the sources as sent and no trace step. Nothing is loading, the handle is released and the echo surfaces no error. |
| `Store.StopThenCloseEcho` | src/store/chatStore.ts:107-163 | A stop in mid-stream, a second stop, then the close echo to the `error` listener and to `onerror`. No error is surfaced, the handle stays released and the partial answer is kept. |
| `Store.NetworkFailure` | src/store/chatStore.ts:107-150 | A transport error with no prior stop reaches the `error` listener first, which appends the marked generic note to the answer. It then reaches `onerror`, which surfaces the network error, stops loading and releases the handle. A later `error` event or transport error changes nothing. |
| `Store.ServerErrorEvent` | src/store/chatStore.ts:107-150 | A server-sent `error` event appends the marked message to the answer and surfaces it. Because it also reaches `onerror`, the session then ends with the network error surfaced, nothing loading and the handle released. |
| `Store.SupersededSession` | src/store/chatStore.ts:29-66 | For any ids where the second assistant id differs from the first, a second query during a live stream first closes the old connection with the flag set, then holds the new one. Each assistant turn receives only its own session's chunks. |
| `AnswerCard.FirstMatch` | src/components/AnswerCard.tsx:9 | Returns the leftmost position at which `#citation-` is followed by a digit, or none exactly when there is no such position. |
| `AnswerCard.DigitRunEnd` | src/components/AnswerCard.tsx:9 | The greedy digit group ends where the maximal run of digits ends. |
| `AnswerCard.CitationId` | src/components/AnswerCard.tsx:27-30 | An href yields an id exactly when it contains `#citation-` immediately followed by a digit, anywhere in the string. |
| `AnswerCard.CitationIdReadsFirstRun` | src/components/AnswerCard.tsx:27-30 | The id is the base-10 value of the maximal digit run after the leftmost match. |
| `AnswerCard.LeadingZerosIgnored` | src/components/AnswerCard.tsx:30 | Base-10 parsing ignores leading zeros, so `#citation-007` reads as 7. |
| `AnswerCard.DecimalRoundTrip` | src/components/AnswerCard.tsx:30 | Base-10 parsing reads back the decimal spelling of every natural number. |
| `AnswerCard.CitationAnchorRoundTrip` | src/components/AnswerCard.tsx:9-30 | An href `#citation-<n>`, followed by anything that does not start with a digit, carries the id `n`. |
| `AnswerCard.FindSource` | src/components/AnswerCard.tsx:31 | Returns the first source whose id equals the parsed id. It returns none exactly when no source has that id. |
| `AnswerCard.ResolveLink` | src/components/AnswerCard.tsx:26-49 | A missing href is never a citation. The result is a citation exactly when the href matches and some source has the parsed id, and then it cites the first such source. Otherwise it is an external link carrying the original href unchanged. |
| `AnswerCard.CitationAnchorResolves` | src/components/AnswerCard.tsx:26-49 | An anchor `#citation-<n>` opens the popover of the first source with id `n` when there is one, and is a plain link otherwise. |
| `AnswerCard.RenderAnswerCard` | src/components/AnswerCard.tsx:18-20 | An empty answer renders nothing. Otherwise every link is resolved against the answer's sources. |

## Left out

- The `EventSource` transport itself is not modelled. That covers opening the connection, the `onopen` handler (src/store/chatStore.ts:69-72), the effect of `close()` and the transport's automatic reconnect. A connection is an opaque `Handle`, and each callback is a method that may be called in any order.
- The request URL (src/store/chatStore.ts:61-63) is not modelled. Building it uses `encodeURIComponent`, a browser call.
- `crypto.randomUUID` is replaced by ids passed to `StartStream`. The store does not need them to be distinct. `FreshTargetIsUnique` and `UpdateFreshTurn` state what a fresh id guarantees.
- `JSON.parse` of the `sources` payload (src/store/chatStore.ts:94) is not modelled. `OnSources` takes the decoded sequence. A malformed payload throws out of the listener before any state change, with no handler.
- `console` logging and the zustand `create`/`set`/`get` plumbing are left out. Each `set` is a field assignment.
- The browser's event dispatch is not modelled. Every event of type `error` goes first to the `error` listener and then to `onerror`. That covers a transport error, which carries no data, and also a server-sent `error` event, which ends the session with the network error in place of the server's message. The two handlers are separate methods, and `NetworkFailure` and `ServerErrorEvent` call them in that order.
- A browser never fires callbacks on a closed connection. The model does not assume this. `OnTransportError` closes and releases as the code does, whichever handle it is given.
- `AnswerCard.CitationId`: does not model JavaScript's floating-point numbers. Digit runs beyond 2^53 lose precision in `parseInt`, and ids compare as doubles. Here ids are unbounded integers.
- `AnswerCard.RenderAnswerCard`: does not model ReactMarkdown's parsing of the answer or the rendering of link children. The hrefs of the answer's links are a parameter.
- The presentation components are left out because they hold no session logic: `ChatMessages`, `SourcesCard`, `CitationPopover`, `TraceBar`, `UserMessage` and `AssistantMessage`. So is the page in `src/app/page.tsx`, which reads a `messages` field the store does not have.
