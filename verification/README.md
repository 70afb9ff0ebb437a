# A verified model of the streaming pipeline and the scheduler

This project models, in Dafny 4.11, the two cores of an API gateway that puts several upstream providers behind the
Anthropic and OpenAI protocols, and proves what they promise.

**The streaming pipeline.** Provider chunks become `model.*` events (`StreamParser`). A stateful handler turns them into
Anthropic-style events, over any number of retries (`HandlerSpec` on values, `StreamHandler` as the object it is,
`HandlerRuns`, `HandlerModes`, `BlockOrder` and `ContentOrder` for what whole runs do, `Delivered`, `DeliveredCalls`,
`DeliveredUsage` and `WholeResponse` for what a response is in terms of the events delivered, `StreamTrace` for what a
well-formed stream is, `ToolDedup` and `ToolPath` for the side-effect keys). The events are printed by a hand-written JSON
encoder (`JsonString`, `JsonTree`, `SseEvent`). An OpenAI client gets chunks made by scanning those bytes for markers,
with an unmarshalling path behind it (`MarkerSearch`, `OpenAIChunk`, `ChunkRefinement`, `ChunkAgreement`, and `ChunkReading` for what the client reads in them). The frames are
server-sent events, which another client in the repository parses (`SseFraming`, `StreamRoundTrip`); ids in relayed lines
are spliced (`ChunkRewriter`).

**Scheduling and shared state.** Concurrent requests share connection counters (`ConnTracker`, `RequestTracking`) and pick
accounts by weighted least connections (`LoadBalancer`). Requests are deduplicated on a sharded map (`ShardedMap`,
`DedupStore`), attempts limited by a token bucket (`RateLimiter`), session creation guarded by a lock with a lifetime
(`SessionLock`), and models found through two secondary indexes (`ModelIndex` for one call, `ModelHistory` for whole
histories).

`Bytes` holds byte strings (characters below 256), the standard-library searches, decimal printing and trimming, `Picking`
the values that a function finds in a sequence.

## How it is modelled

- Objects that change their fields are classes; each method is proved equal to a function on values, and the theorems are
  about those functions. The stream handler's fields are grouped by concern into four objects; the builder of a content
  block is kept in the block's entry.
- Concurrent code is a state machine: a step is one atomic action of one request or process, a run any sequence of enabled
  steps, and the environment (what an upstream call returns, what a selection finds, whether Redis answers) is part of
  the step. The two retry loops differ only in when they mark a failed account; both are in `RequestTracking`.
- What an operation computes is also stated without its functions, on what it was given: on the events of an attempt by
  position, on the raw calls of all chunks, on the fields of accounts and of tool inputs, on the times of a history.
- Time, clocks, random choices and calls into code that is not modelled are arguments. An arbitrary choice (`:|`) stands for
  Go's map order and for `rand.IntN`.
- Text heuristics, path rewriting and JSON reading of tool inputs are function-valued members of `HandlerSpec.Env` and
  `ToolDedup.Text`; the theorems hold for all of them.
- Where comments and code disagree the code is followed: an account with status 402 cools down for a day
  (internal/loadbalancer/loadbalancer.go:249), though the comment above speaks of a short wait.

## What turned out to have a condition

Some promises hold only under a condition the code does not check. Each is stated as an equivalence, with inputs on which
it fails.

- A streaming response is well formed if and only if no attempt that delivered `model.finish` is retried
  (`HandlerRuns.RunWellFormed`; fails in `HandlerRuns.FinishThenRetryHappens`).
- The content array of the non-streaming mode says what the stream says if and only if the last attempt does not fail
  after `model.finish` with an error text to show, and the input of every accepted call is JSON: one that is not is streamed
  as it is and stored as `{}` (`HandlerModes.RunAgrees`; fails in `ContentOrder.LateErrorDiffers` and
  `ContentOrder.UnparsedInputDiffers`). It says so in the same order if and only if, besides, no event of the last
  attempt opens a text or thinking block after a call was accepted, nor does its error text
  (`ContentOrder.RunArrayAgrees`, `BlockOrder.RunOrders`; fails in `ContentOrder.ToolThenTextDiffers`).
- The fast and the slow chunk path agree if and only if the model hint needs no escapes, a tool block has an id and the
  stop reason is trimmed (`ChunkAgreement.FastRefinesSlow`; fails in `ChunkAgreement.QuotedHintDiffers`,
  `ChunkAgreement.NamelessToolDiffers` and `ChunkAgreement.PaddedReasonDiffers`).
- Some call with another effect shares the dedup key of a side-effect call, and would be dropped after it, if and only if
  the key is ambiguous: for a write, it can be cut at another NUL that a canonical path stands in front of; for an edit,
  the old or the new text holds a NUL, or a canonical part of its path ends at one (`ToolDedup.SharesKeyIff`; fails in
  `ToolDedup.SecondEditDropped`). Canonical paths are exactly the clean ones not rooted inside the working directory
  (`ToolPath.CanonicalIsCanonical`, `ToolPath.EveryCanonical`).
- The dedup cleaner is invisible, and accepted registrations are a window apart, if and only if it waits at least the
  window (`DedupStore.CleanerUnseenIff`, `DedupStore.SpacedIff`), and only then does the history alone decide what a
  registration is answered (`DedupStore.AnswersByHistoryIff`). In-flight counts are right whatever it waits.
- The limiter's buckets stay within bounds, its grants too, and sweeping in one step is invisible, if and only if at least
  one attempt is allowed (`RateLimiter.BucketsBoundedIff`, `RateLimiter.LimitedIff`, `RateLimiter.SweepUnseenIff`). A sweep
  looks at an entry and deletes it later: that is invisible if and only if the bucket is full again when it is deleted,
  which a visit in between prevents until a token has flowed in (`RateLimiter.SplitSweepUnseenIff`;
  `RateLimiter.RacyDelete` is a history that is granted twice its bound).
- For every token and model, a bound on how long a process creates makes creation exclusive, and makes every release
  remove the process's own lock, if and only if it is shorter than the lock's lifetime (`SessionLock.MutualExclusion`,
  `SessionLock.OwnRelease`).
- One update keeps the global index sound if and only if it does not take the model id away from the indexed model, and
  the channel index if and only if it does not blank a model id under the same key (`ModelIndex.UpdateKeepsGlobalIff`,
  `ModelIndex.UpdateKeepsChannelsIff`; fail in `ModelHistory.StrandsHappens` and `ModelHistory.BlanksHappens`). It leaves
  the channel index sound along every later history with plain inputs and known ids if and only if the model is nameless
  or its id is not one a later create will be given (`ModelHistory.UpdateIsSettledIff`; fails in
  `ModelHistory.EarlyUpdateDangles`).
- With trimmed model ids a lookup by channel and model id is right in every sound store if and only if its key cuts at no
  other bar (`ModelHistory.BarLookupIff`; fails in `ModelHistory.BarLookupIsWrong`, and with an untrimmed id in
  `ModelHistory.UntrimmedHappens`). The admin API admits only three channels, none with a bar
  (internal/api/api.go:1173), so the failures that need a bar (`ModelHistory.BarsHappen`) take another caller of
  the store.

## Model

| member | source | states |
|---|---|---|
| JsonString.RoundTrip | internal/handler/sse_frame.go:39-110 | decoding (section 7 of RFC 8259) what the encoder writes gives the value back, for every valid UTF-8 value (section 4 of RFC 3629) |
| JsonString.EncodeIsBody | internal/handler/sse_frame.go:39-110 | the output has no byte below 0x20 and no unescaped inner quote |
| JsonString.EncodeGrows | internal/handler/sse_frame.go:39-110 | the output is never shorter than the value, and as long only when it is the value |
| JsonString.EncodeInjective | internal/handler/sse_frame.go:39-110 | different values are written differently |
| JsonString.CanAppendRaw | internal/handler/sse_frame.go:17-37 | the raw path is taken exactly when the value is UTF-8 and escaping would change nothing |
| JsonString.EscapeInto | internal/handler/sse_frame.go:52-109 | the loop with its held-back stretches writes the escaped text, and fails exactly on text that is not UTF-8 |
| JsonString.AppendJSONBytes | internal/handler/sse_frame.go:39-110 | valid UTF-8 is appended as one quoted literal; anything else goes to `json.Marshal` |
| JsonTree.ParsePrinted | internal/handler/sse_frame.go:112-243 | every printed document parses back to the tree it was printed from |
| JsonTree.UnmarshalMarshal | internal/adapter/openai_sse.go:447-546 | unmarshalling what is marshalled gives the value back, for every tree of UTF-8 strings |
| MarkerSearch.SearchPrint | internal/adapter/openai_sse.go:216-251 | searching the printed text for a marker is searching the tree: no marker is found inside a key or an escaped value |
| MarkerSearch.ExtractAfter | internal/adapter/openai_sse.go:216-251 | the index loop with its escape flag returns the quoted literal after the first marker, or nothing |
| MarkerSearch.ExtractPrinted | internal/adapter/openai_sse.go:216-251 | on a printed document it returns exactly the first text stored under the key |
| MarkerSearch.ContainsPrinted | internal/adapter/openai_sse.go:398-428 | a marker is contained in a printed document exactly when the tree has that member |
| ChunkRefinement.PayloadSpells | internal/handler/sse_frame.go:112-243 | every printed payload is a well-formed document that spells the event's own strings |
| ChunkRefinement.DataUnmarshals | internal/handler/sse_frame.go:112-243 | unmarshalling a printed event gives its fields back |
| ChunkRefinement.Reads | internal/adapter/openai_sse.go:216-251 | extraction on a printed event returns the field the printer wrote, for all ids, names, models, texts and arguments |
| ChunkRefinement.ReadsType | internal/adapter/openai_sse.go:398-428 | a type marker is found in a printed event exactly when the payload has that type |
| ChunkRefinement.DeltaReads | internal/adapter/openai_sse.go:410-428 | a delta is recognised by its own type only, and its text is read back |
| ChunkRefinement.FastIs | internal/adapter/openai_sse.go:389-434 | the fast path accepts exactly the events with an OpenAI counterpart, and what it prints for each |
| ChunkRefinement.SlowIs | internal/adapter/openai_sse.go:447-546 | what the slow path builds for each event |
| ChunkRefinement.SpellsChunk | internal/adapter/openai_sse.go:264-363 | the fast path's text is one JSON document, with balanced brackets, that spells the chunk |
| ChunkRefinement.StopReasonQuotedIs | internal/adapter/openai_sse.go:183-214 | the normaliser on quoted text is the stop-reason table on the text itself |
| ChunkAgreement.TrimmingMatters | internal/adapter/openai_sse.go:183-214 | the two normalisers agree exactly on trimmed reasons |
| ChunkAgreement.UncleanModel | internal/adapter/openai_sse.go:264-363 | a chunk text with an unescaped model name spells that name only if the name needs no escapes |
| ChunkAgreement.FastRefinesSlow | internal/adapter/openai_sse.go:389-546 | on every printed event the fast path accepts exactly when the slow path does, and yields the same chunk value if and only if the event and the hint are agreeable |
| ChunkAgreement.QuotedHintDiffers | internal/adapter/openai_sse.go:389-434 | a model hint with a quote makes the chunks differ on any text delta |
| ChunkAgreement.NamelessToolDiffers | internal/adapter/openai_sse.go:334-352 | a tool block without an id makes them differ |
| ChunkAgreement.PaddedReasonDiffers | internal/adapter/openai_sse.go:183-214 | a stop reason that is not trimmed makes them differ |
| ChunkReading.ClientReads | internal/adapter/openai_sse.go:447-546 | an event has a chunk exactly when it says something to an OpenAI client, who reads just that: role, content, reasoning, the tool call's index, id, name and arguments, or the finish reason by table, and nothing else, under the response's id, time and model |
| SseFraming.ForwardSSE | internal/kimchi/client.go:265-314 | the line loop with its two builders hands on the events of the byte stream |
| SseFraming.ForwardWire | internal/handler/stream_handler.go:147-162 | parsing any list of written frames, with keep-alives anywhere between them, gives the same list up to and including `[DONE]` |
| StreamRoundTrip.DataIsCarried | internal/handler/sse_frame.go:112-243 | printed events are newline-free, trimmed and not empty: they always meet the framing's precondition |
| StreamRoundTrip.PayloadDetermines | internal/handler/sse_frame.go:112-243 | an event is determined by its payload |
| StreamRoundTrip.StreamRoundTrips | internal/kimchi/client.go:265-314 | events written to the wire with keep-alives are parsed and unmarshalled back to the same events in the same order |
| ChunkRewriter.ChunkRewriter.RewriteLine | internal/codebuff/openai_compat.go:39-67 | although it searches from the start each time it terminates, and equals a single left-to-right pass |
| ChunkRewriter.SplitWeaves | internal/codebuff/openai_compat.go:39-67 | a line is its texts and its message ids woven together |
| ChunkRewriter.OnlyIdsChange | internal/codebuff/openai_compat.go:39-67 | the result is the same texts in the same order with every id replaced |
| ChunkRewriter.NothingLeft | internal/codebuff/openai_compat.go:39-67 | no terminated message id is left, and rewriting again changes nothing |
| StreamTrace.AcceptedIsWellFormed | internal/handler/stream_handler.go:2444-2632 | an accepted stream is one message_start, block events with strictly increasing start indices, each started and stopped once, deltas for open blocks of their own kind, at most one open text or thinking block, whole tool blocks, then one message_delta and one message_stop |
| StreamTrace.NothingAfterDone | internal/handler/stream_handler.go:2444-2499 | anything written after the end spoils the stream |
| HandlerRuns.HandleKeeps | internal/handler/stream_handler.go:3385-3910 | every event keeps the recogniser where the block fields say it is, writes nothing without an output flag to show for it, and ends the response exactly on `model.finish` |
| HandlerRuns.EmitToolKeeps | internal/handler/stream_handler.go:2403-2426 | a tool block is written whole, possibly inside an open text or thinking block |
| HandlerRuns.FinishKeeps | internal/handler/stream_handler.go:2444-2499 | finishing stops the open block and writes the closing pair once |
| HandlerRuns.RunWellFormed | internal/handler/handler.go:1116-1305 | over any attempts and retries the stream is well formed if and only if no attempt that delivered `model.finish` is retried |
| HandlerRuns.RunOfGoodClient | internal/handler/handler.go:1116-1305 | it is well formed whenever the client returns nil after delivering `model.finish` |
| HandlerRuns.FinishThenRetryHappens | internal/handler/handler.go:1163-1236 | an attempt that delivers only `model.finish` and fails retryably makes the response end twice |
| HandlerRuns.VisibleOutputIsSeen | internal/handler/stream_handler.go:3235-3254 | an attempt that wrote any block event has output, so it is not retried |
| HandlerRuns.RunSplits | internal/handler/handler.go:1118-1168 | a run is its retried attempts followed by one that is not retried |
| HandlerRuns.OnlyLastAttemptShows | internal/handler/handler.go:1118-1168 | the retried attempts contribute no content block, and nothing at all with a client that never fails after `model.finish` |
| HandlerRuns.RunDedups | internal/handler/stream_handler.go:2780-2808 | over a whole response, retries included, a side-effect key is accepted at most once and never when the history seeded it; the dedup set equals the seed set |
| HandlerRuns.WhichAreRetried | internal/handler/handler.go:1194-1295 | a failure without output is retried exactly when it is retryable, the client is there, the budget lasts, an account is left and the wait is not cut short; and which text is shown otherwise |
| HandlerModes.HandleAgrees | internal/handler/stream_handler.go:3470-3830 | after any event the two modes are still alike: the text written for each block is its builder, the calls written are the calls queued; once ended, each call is stored with the value its written input parses to, or the empty object |
| HandlerModes.DeliverAgrees | internal/handler/stream_handler.go:3385-3910 | the two modes agree after any sequence of events, and the tool blocks written are exactly the accepted calls (id, name, input) in order |
| HandlerModes.FinishAgrees | internal/handler/stream_handler.go:2360-2499 | whatever stop reasons the modes settle on, they end with the same texts and calls, inputs stored as they parse |
| HandlerModes.RunAgrees | internal/handler/handler.go:1116-1339 | over a whole run the content array has the texts and calls of the stream, if and only if the last attempt does not fail late with an error to show and every accepted input is JSON |
| BlockOrder.RunOrders | internal/handler/stream_handler.go:2524-2585 | over a whole run no text or thinking block starts after a tool block on the wire, if and only if in the last attempt no event opens one after a call was accepted, nor does the error text |
| ContentOrder.RunArrayAgrees | internal/handler/handler.go:1313-1339 | the content array has the blocks of the stream position by position if and only if, besides, no event of the last attempt, nor its error text, opens a text or thinking block after a call was accepted |
| ContentOrder.UnparsedInputDiffers | internal/handler/stream_handler.go:2360-2377 | an input that is not JSON, of a tool whose input is not read, is accepted, streamed as it is and stored as the empty object |
| ContentOrder.LateErrorDiffers | internal/handler/handler.go:1197-1215 | an error after `model.finish` reaches the array only |
| ContentOrder.ToolThenTextDiffers | internal/handler/stream_handler.go:2403-2426 | a call and then a text: block 0 is the tool on the wire and the text in the array |
| Delivered.DeliverSays | internal/handler/stream_handler.go:3470-3629 | the text and thinking fragments an attempt writes are, in order, the collapsed text deltas before `model.finish` that are neither a greeting of a kind seen before nor a repetition of the last noted text from another source within two seconds, and the reasoning deltas unless thinking is suppressed |
| Delivered.ThoughtLands | internal/handler/stream_handler.go:3477-3543 | a thought is added to the open thinking block or opens one; the block's signature is the first that is not empty, the pending one before the delta's own; no other block changes |
| DeliveredCalls.AttemptTakes | internal/handler/stream_handler.go:3727-3830 | the calls an attempt accepts are those its events offer: the end of an input with the trimmed name of its last start and the trimmed concatenation of its fragments since then, a whole call with its own; each may be made, is the first accepted of its id, and has no dedup key that was seeded or accepted before |
| DeliveredUsage.RunTotals | internal/handler/stream_handler.go:794-844 | the output count is the last one the upstream reported; with none reported, the estimate of what was said and called, in which a whole streamed call counts its name only and thoughts do not count |
| WholeResponse.RunRetries | internal/handler/handler.go:1118-1297 | in either mode the number of retries is that of the first attempts that failed in passing and whose events had nothing to show |
| WholeResponse.ResponseSays | internal/handler/handler.go:1116-1305 | all text and thinking a streaming client hears is what the events of the last attempt say, and then the text of the error that is shown |
| WholeResponse.ResponseCalls | internal/handler/handler.go:1116-1305 | the tool blocks it hears are the calls those events offer and the rules accept, in order, with their trimmed inputs |
| WholeResponse.ResponseEnds | internal/handler/stream_handler.go:2444-2499 | the stop reason and the count, in either mode: `tool_use` exactly when a call was accepted and, without streaming, `model.finish` says so, or without `model.finish` the client came to its end |
| StreamHandler.Blocks.CloseActiveBlock | internal/handler/stream_handler.go:2593-2632 | the open block, if any, gets its stop under its own index |
| StreamHandler.Blocks.EnsureTextBlock | internal/handler/stream_handler.go:2524-2585 | a text block is open afterwards: the one that was, or a new one under the next index with any other block stopped first |
| StreamHandler.Blocks.EnsureThinkingBlock | internal/handler/stream_handler.go:2524-2585 | the same for thinking, with the pending signature, and nothing when thinking is suppressed |
| StreamHandler.Blocks.WriteTextDelta | internal/handler/stream_handler.go:3603-3629 | the delta goes to the open block's builder and to the wire under its index |
| StreamHandler.Blocks.OnReasoningDelta | internal/handler/stream_handler.go:3477-3543 | the signature in force, a late signature filled in, and the thinking delta written |
| StreamHandler.Blocks.FlushCall | internal/handler/stream_handler.go:2360-2401 | a queued call is appended to the content with the value its input parses to, or the empty object; or written with final writes |
| StreamHandler.Blocks.Reset | internal/handler/stream_handler.go:848-876 | a new round keeps the index counter and drops the blocks |
| StreamHandler.TextMemory.ShouldSkipDelta | internal/handler/stream_handler.go:3262-3294 | which text deltas are dropped, and what is remembered of them |
| StreamHandler.ToolState.ShouldAcceptToolCall | internal/handler/stream_handler.go:2734-2808 | the gate, the malformed calls, and the dedup key recorded in both sets |
| StreamHandler.ToolState.TakeInput | internal/handler/stream_handler.go:3755-3784 | a complete tool input is forgotten, and gives a call unless it is unknown or handled |
| StreamHandler.ToolState.Reset | internal/handler/stream_handler.go:878-900 | a new round clears the call fields and makes the dedup set the seed set |
| StreamHandler.Handler.EmitToolUseFromInput | internal/handler/stream_handler.go:2403-2426 | the whole new state of emitting a tool block |
| StreamHandler.Handler.OnToolInputEnd | internal/handler/stream_handler.go:3755-3798 | the whole new state after the end of a tool input |
| StreamHandler.Handler.OnToolCall | internal/handler/stream_handler.go:3800-3830 | the whole new state after a complete tool call; no text block is closed |
| StreamHandler.Handler.FlushPendingToolCalls | internal/handler/stream_handler.go:2428-2442 | the loop over the queued calls, and the token text it counts |
| StreamHandler.Handler.FinishResponse | internal/handler/stream_handler.go:2444-2499 | the whole new state of finishing, and nothing when already finished |
| StreamHandler.Handler.OnFinish | internal/handler/stream_handler.go:3855-3909 | which stop reason `model.finish` asks for, and finishing with it |
| StreamHandler.Handler.ForceFinishIfMissing | internal/handler/stream_handler.go:3216-3233 | a missing stop marker finishes the response |
| StreamHandler.Handler.HandleMessage | internal/handler/stream_handler.go:3385-3910 | the whole new state after any event |
| StreamHandler.Handler.ResetRoundState | internal/handler/stream_handler.go:848-915 | the whole new state of a new round |
| StreamHandler.Handler.HasAnyOutputNow | internal/handler/stream_handler.go:3235-3254 | whether the attempt has any output |
| StreamHandler.Handler.InjectErrorText | internal/handler/stream_handler.go:3979-3997 | an error text goes to the wire or to the builder, never both |
| StreamHandler.Handler.RunLoop | internal/handler/handler.go:1116-1297 | the retry loop computes the run function |
| StreamHandler.Handler.Respond | internal/handler/handler.go:1015-1305 | a whole response; its trace is well formed if and only if no finished attempt is retried |
| ToolDedup.WhichAreDeduplicated | internal/handler/stream_handler.go:2876-2899 | on the fields of the input: a call is malformed exactly when it lacks a path, value or command that its tool needs, and goes without a key exactly when it is no side-effect tool, or a command that says or shows it only reads |
| ToolDedup.UnreadableIsMalformed | internal/handler/stream_handler.go:2876-2891 | input that is no JSON object makes exactly the calls of the six known tools malformed |
| ToolDedup.SameKeyIff | internal/handler/stream_handler.go:3088-3124 | on the fields of two deduplicated calls: the keys are equal if and only if the tools are the same and spell the same work, two commands exactly when they are equal trimmed, `command` before `cmd`; calls that do the same always share a key, those without NULs only then |
| ToolDedup.EvaluateNeedsName | internal/handler/stream_handler.go:2876-2880 | a call without a name is malformed |
| ToolDedup.SharesKeyIff | internal/handler/stream_handler.go:3088-3127 | some call with another effect has the same key if and only if the key is ambiguous |
| ToolPath.CleanTwice | internal/handler/stream_handler.go:3129-3149 | cleaning a path twice is cleaning it once |
| ToolPath.CleanIff | internal/handler/stream_handler.go:3126-3149 | two paths are cleaned to the same if and only if they lead to the same place from every directory |
| ToolPath.CanonicalLeads | internal/handler/stream_handler.go:3126-3149 | from a rooted working directory the canonical path leads where the path does |
| ToolPath.CanonicalIsCanonical | internal/handler/stream_handler.go:3129-3149 | a canonicalised path is clean and not rooted inside the working directory, and empty only for a blank path |
| ToolPath.EveryCanonical | internal/handler/stream_handler.go:3129-3149 | every such path is what canonicalising some text gives, white space at its ends included |
| ToolDedup.SecondEditDropped | internal/handler/stream_handler.go:2780-2808 | two edits with different effects, read from their inputs, of which only the first is accepted |
| ToolDedup.SuccessesAreLast | internal/handler/stream_handler.go:968-995 | adding and deleting result by result leaves the keys whose last result was a success |
| ToolDedup.WhichAreSeeded | internal/handler/stream_handler.go:918-1000 | on the fields of a tool use: it can be seeded exactly when it has an id and is a whole side-effect call, no read-only command and none of git; its key is that of a new call |
| ToolDedup.LastUserTextIs | internal/handler/stream_handler.go:922-933 | the position that counts is the last user message with text |
| ToolDedup.SeedFromMessages | internal/handler/stream_handler.go:918-996 | history seeds a key if and only if the last tool result after the last user text that refers to it was a non-empty success |
| StreamParser.Parser.DecodeChunk | internal/codebuff/payload.go:454-564 | exactly which messages a chunk gives, up to the order of the ends; `openToolIDs` is the set of ids open in the trace, and empty after a finish reason |
| StreamParser.Parser.EndAll | internal/codebuff/payload.go:523-543 | the ids of a set are each ended once, whatever order the map is walked in |
| StreamParser.Parser.DecodeAll | internal/codebuff/payload.go:423-564 | over any chunks every id's events are in order, and the open ids are those started and not ended; from a new parser the messages carry the texts, thoughts and finish reasons of the chunks in order, and the arguments of all calls in order, each under the id its call is for: its own, else the last one named under its index; an id is started with the name of the call that opens it, and is open exactly when some chunk mentions it that no later one closes |
| StreamParser.ScanMeans | internal/codebuff/payload.go:480-521 | what the calls of one chunk do after those of earlier chunks |
| StreamParser.UnbrokenIsInOrder | internal/codebuff/payload.go:454-564 | what the automaton of (start, delta*, end)* means event by event |
| StreamParser.KeptAreMentioned | internal/codebuff/payload.go:523-531 | a chunk that carries calls leaves open exactly the ids it mentions |
| ConnTracker.MemoryConnTracker.Acquire | internal/loadbalancer/conn_tracker.go:33-36 | one more for the account, the others as they were |
| ConnTracker.MemoryConnTracker.Release | internal/loadbalancer/conn_tracker.go:38-51 | one less, never below zero, the others as they were |
| ConnTracker.MemoryConnTracker.GetCounts | internal/loadbalancer/conn_tracker.go:60-66 | the counts of exactly the ids asked for |
| RequestTracking.LoadKeeps | internal/loadbalancer/conn_tracker.go:38-51 | a release always finds something to release |
| RequestTracking.StepKeeps | internal/handler/handler.go:1116-1297 | every step of either loop keeps each counter equal to the number of requests tracking the account |
| RequestTracking.AnyInterleaving | internal/handler/handler.go:1493-1655 | under any interleaving: counters are the tracking requests, the clamp never fires, a finished request tracks nothing, no request sends more than maxRetries + 1 times, no account once left is used again, and each send is on the account the outcome before calls for: the same one unless a switch is asked for, and after that only for failures the account may get over |
| RequestTracking.AllReleased | internal/handler/handler_helpers.go:238-264 | when every request is done every counter is zero |
| LoadBalancer.RecoveryLasts | internal/loadbalancer/loadbalancer.go:256-335 | an account that has recovered stays available, and checking it changes no later answer |
| LoadBalancer.WhichRecover | internal/loadbalancer/loadbalancer.go:256-335 | an account with a status recovers at some time exactly when its last attempt is known, or for 402 its quota reset |
| LoadBalancer.AvailableFrom | internal/loadbalancer/loadbalancer.go:256-335 | the nested tests are one point in time: the reset time for 402 and 429, else a minute, a day or five minutes after the last attempt |
| LoadBalancer.IsAccountAvailable | internal/loadbalancer/loadbalancer.go:256-352 | the answer, and the status cleared exactly when it is yes |
| LoadBalancer.SelectLeast | internal/loadbalancer/loadbalancer.go:182-228 | any account of least connections per weight |
| LoadBalancer.ScoreIsRatio | internal/loadbalancer/loadbalancer.go:206-222 | comparing scores is comparing connections times the other's weight |
| LoadBalancer.SieveLeaves | internal/loadbalancer/loadbalancer.go:84-113 | the filter loop leaves exactly the matching usable accounts |
| LoadBalancer.SieveCounts | internal/loadbalancer/loadbalancer.go:84-122 | its two counters agree exactly when all matching accounts are rate-limited |
| LoadBalancer.GetNextAccount | internal/loadbalancer/loadbalancer.go:65-135 | the pick is eligible and minimal over all eligible accounts; none exactly when none is eligible; the rate-limit error exactly when all matching accounts are rate-limited |
| LoadBalancer.PickIsLeast | internal/loadbalancer/loadbalancer.go:65-135 | as fractions, and the pick is none of the excluded accounts |
| LoadBalancer.PickMeans | internal/loadbalancer/loadbalancer.go:65-135 | on the fields of the accounts: one is picked exactly when one is not excluded, accepted, of the named channel by type or agent mode, and ready; none such has fewer connections over weight; and when the rate-limit error is given |
| LoadBalancer.Cache.GetEnabledAccounts | internal/loadbalancer/loadbalancer.go:137-176 | only enabled accounts, from the cache while it is fresh, else from the store |
| LoadBalancer.TryAffinity | internal/handler/handler_helpers.go:148-226 | the first account with a cached session for the model that is enabled, accepted and not excluded; none when there is none |
| LoadBalancer.AffinityMeans | internal/handler/handler_helpers.go:148-226 | on the fields: of the codebuff type, with a session of its token, enabled, accepted, not excluded, and the first that is |
| LoadBalancer.SelectRecord | internal/handler/handler_helpers.go:108-146 | the first account with a session when one qualifies, else a minimal eligible account or why there is none; either way enabled, accepted and not excluded |
| LoadBalancer.SelectionIsEnabled | internal/handler/handler.go:1237-1287 | what is selected for a request that excludes its failed accounts is a step the retry loops' model allows |
| ShardedMap.WholeHas | internal/handler/sharded_map.go:29-66 | a key is in the map exactly when it is in its shard, with the same value |
| ShardedMap.Sharded.Compute | internal/handler/sharded_map.go:87-100 | read, transform and write of one key, as on a single map |
| ShardedMap.Sharded.Len | internal/handler/sharded_map.go:102-112 | the sum over the shards is the size of the whole |
| ShardedMap.Sharded.RangeDelete | internal/handler/sharded_map.go:114-125 | deletes exactly the entries picked, whatever order they are walked in |
| DedupStore.MemoryDedupStore.Register | internal/handler/dedup_store.go:125-142 | the answer and the new record, as on a single map |
| DedupStore.MemoryDedupStore.Finish | internal/handler/dedup_store.go:144-156 | the count goes down, not below zero, and the time is noted; nothing for an unknown hash |
| DedupStore.MemoryDedupStore.CleanUp | internal/handler/dedup_store.go:115-121 | drops exactly the idle records older than the cleanup window |
| DedupStore.MemoryDedupStore.Admit | internal/handler/handler.go:636-699 | a request registers both its keys or none: a semantic duplicate finishes the exact key at once |
| DedupStore.AnyHistory | internal/handler/dedup_store.go:110-156 | over any history and whatever the cleaner waits, in-flight is the outstanding registrations |
| DedupStore.SpacedIff | internal/handler/dedup_store.go:110-142 | two accepted registrations of a hash are more than the window apart in every history if and only if the cleaner waits at least the window |
| DedupStore.AnswersByHistoryIff | internal/handler/dedup_store.go:110-156 | in every history a registration is a duplicate exactly when the hash was registered or finished within the window before, and in flight exactly when one is outstanding then, if and only if the cleaner waits at least the window |
| DedupStore.AdmitIsHistory | internal/handler/handler.go:636-694 | what a request registers is a stretch of a history, and the keys that stay registered are its tokens |
| DedupStore.LeaveIsHistory | internal/handler/handler.go:695-699 | so are its deferred finishes, which leave it no token |
| DedupStore.CleanerUnseenIff | internal/handler/dedup_store.go:110-124 | the cleaner changes no answer of any history if and only if it waits at least the window |
| RateLimiter.BucketsBoundedIff | internal/middleware/ratelimit.go:57-81 | tokens stay between zero and the maximum in every history if and only if at least one attempt is allowed |
| RateLimiter.IntervalBound | internal/middleware/ratelimit.go:35-81 | in any stretch of any history one address is granted at most maxAttempts + maxAttempts / window * length attempts, the length from its first to its last operation |
| RateLimiter.WaitingPays | internal/middleware/ratelimit.go:57-81 | in every history an attempt made at least window / maxAttempts after the last one of its address is granted |
| RateLimiter.LimitedIff | internal/middleware/ratelimit.go:35-81 | the bound holds in every history if and only if at least one attempt is allowed |
| RateLimiter.SweepUnseenIff | internal/middleware/ratelimit.go:91-109 | sweeping changes no answer of any history if and only if at least one attempt is allowed |
| RateLimiter.DeleteUnseenIff | internal/middleware/ratelimit.go:97-107 | deleting an entry changes no later answer of anybody if and only if its bucket is full |
| RateLimiter.SplitSweepUnseenIff | internal/middleware/ratelimit.go:91-109 | a look and a later delete change no later answer if and only if the bucket is full again at the delete: always without a visit in between, never with one before a token has flowed in |
| RateLimiter.RacyDelete | internal/middleware/ratelimit.go:91-109 | a history in which an address is granted twice the maximum at one instant |
| RateLimiter.Limiter.Allow | internal/middleware/ratelimit.go:35-81 | the answer and the new bucket |
| RateLimiter.Limiter.Cleanup | internal/middleware/ratelimit.go:91-109 | drops exactly the entries not visited for two windows |
| SessionLock.KeysAreDistinct | internal/codebuff/session.go:138-144 | distinct tokens and models have distinct cache and lock keys |
| SessionLock.MutualExclusion | internal/codebuff/session.go:162-202 | for each token and model, a bound on how long a process creates makes at most one process create in every run, if and only if it is shorter than the lock's lifetime |
| SessionLock.ReuseIsSound | internal/codebuff/session.go:146-202 | in every run the branch for another model is never taken, and a reused session is fresh and of the model asked for |
| SessionLock.SavedIsFound | internal/codebuff/session.go:224-238 | a saved session is found for exactly the time it has left, or a day when that is unknown |
| SessionLock.WaiterGivesUp | internal/codebuff/session.go:168-181 | a process that finds the lock taken gives up exactly when it has waited for the poll timeout |
| SessionLock.HoldersAreBrief | internal/codebuff/session.go:183-202 | in every run a process sends at most two creates and gives the lock up within five steps of its own |
| SessionLock.OwnRelease | internal/codebuff/session.go:183-202 | for each token and model, such a bound makes every release of every run remove the process's own lock, if and only if it is shorter than the lock's lifetime |
| SessionLock.OverrunIs | internal/codebuff/session.go:164-202 | a run from the start in which a holder outstays its lock, a second process creates too, and the first one removes the second one's lock |
| ModelHistory.HistoryIsSound | internal/store/redis_store.go:907-1167 | along any history of creates, updates, deletes and lookups from the empty store with plain channels, trimmed model ids and known ids: one default per channel, a sound channel index, and lookups that answer as a scan would; the same for the global index when updates keep model ids |
| ModelHistory.UpdateIsSettledIff | internal/store/redis_store.go:907-969 | an update leaves the channel index sound along every later history if and only if its model is nameless or its id is not one a later create will be given |
| ModelHistory.EarlyUpdateDangles | internal/store/redis_store.go:907-969 | a run from the empty store after which the lookup of what was stored finds another model |
| ModelHistory.StrandsHappens | internal/store/redis_store.go:935-969 | a create and an update of its model id: the lookup of the old id finds the model under the new one |
| ModelHistory.BlanksHappens | internal/store/redis_store.go:935-969 | a create and an update that blanks its model id under the same key: the lookup of the old id finds the nameless model |
| ModelHistory.BarLookupIff | internal/store/redis_store.go:1137-1167 | a lookup by channel and model id is right in every sound store with trimmed ids if and only if its key cuts at no other bar |
| ModelHistory.BarLookupIsWrong | internal/store/redis_store.go:1089-1101 | after one create the lookup of another cut of the same key finds a model that does not match |
| ModelHistory.UntrimmedHappens | internal/store/redis_store.go:1137-1167 | a model id stored with white space around it is found under the trimmed id, though a scan would not find it |
| ModelHistory.BarsHappen | internal/store/redis_store.go:1089-1101 | with the normaliser and `strings.TrimSpace` both failures that take a bar happen from the empty store |
| ModelHistory.StandardIsProper | internal/store/redis_store.go:1089-1101 | the normaliser and `strings.TrimSpace` do what the theorems ask of them |
| ModelIndex.UpdateKeepsChannelsIff | internal/store/redis_store.go:935-969 | an update keeps the channel index sound if and only if it does not blank a model id under the same key |
| ModelIndex.PlainNeverBlanks | internal/store/redis_store.go:1089-1101 | which never happens with channels without a bar |
| ModelIndex.UpdateKeepsGlobalIff | internal/store/redis_store.go:935-969 | an update keeps the global index sound if and only if it does not strand the entry of the indexed model |
| ModelIndex.ModelStore.CreateModel | internal/store/redis_store.go:907-933 | the new id, record and index entries |
| ModelIndex.ModelStore.UpdateModel | internal/store/redis_store.go:935-969 | the whole new record set and both indexes |
| ModelIndex.ModelStore.DeleteModel | internal/store/redis_store.go:971-994 | the whole new record set and both indexes |
| ModelIndex.ModelStore.GetModelByModelID | internal/store/redis_store.go:1103-1135 | the indexed model, else a match of the scan that repairs the index; with a sound index it answers as a scan would and keeps the index sound |
| ModelIndex.ModelStore.GetModelByChannelAndModelID | internal/store/redis_store.go:1137-1167 | the same for the channel index, with trimmed model ids and channels without a bar |
| ModelIndex.ModelStore.ClearDefaults | internal/store/store.go:326-364 | the loop that clears the other defaults of a channel |
| ModelIndex.CreateKeepsOneDefault | internal/store/store.go:326-344 | creating keeps at most one default per exact channel string |
| ModelIndex.UpdateKeepsOneDefault | internal/store/store.go:346-364 | so does updating |
| ModelIndex.CreateFlags | internal/store/store.go:326-344 | creating a default takes the flag from the models of exactly its channel; no other record changes |
| ModelIndex.UpdateFlags | internal/store/store.go:346-364 | so does updating to one |

## Left out

- RunAgrees: which JSON value an input parses to, and whether it parses, is a parameter; stop reasons, token counts and thinking signatures are not compared, because the code treats the modes differently on purpose (WholeResponse.ResponseEnds and Delivered.ThoughtLands state them for each mode); the block `contentBlocks` falls back to when it is empty is never reached on these events.
- RunWellFormed: failed client writes (`write_error`) end a response early and are not modelled.
- SelectLeast: scores are compared as rationals; the code divides in float64, which tells small counts and weights apart alike.
- IntervalBound: tokens and seconds are reals; float64 rounding is not modelled.
- Cleanup: one sweep is one step; the sweep of one entry in two steps is RateLimiter.SplitSweepUnseenIff.
- AppendJSONBytes: `json.Marshal`, used for text that is not UTF-8, is a parameter.
- GetModelByModelID: which of several matching models a scan returns (the lowest numeric id) is not stated, nor for the channel lookup.
- SeedFromMessages: roles are read case-insensitively before the model; reading the text out of a tool result and the failure phrases are parameters.
- WhichAreDeduplicated: the classification of shell commands and the reading of JSON objects are parameters.
- CleanTwice: the separator is `/`; Windows volumes and separators are not modelled.
- TryAffinity: the pipelined EXISTS commands are one look at the session cache.
- MutualExclusion: each Redis command is one atomic step of one server; replication and failover are outside the model.
- Leave: the deferred finishes all read one clock value.
- FastRefinesSlow: text that is not UTF-8 is kept as it is where `json.Marshal` and `json.Unmarshal` replace it; printed events and chunk ids are UTF-8, a model hint need not be.
- StandardIsProper: lower-casing is of ASCII letters; the theorems hold for any proper normaliser.
- RacyDelete: a visit that has loaded its entry when the entry is deleted spends from the deleted bucket; a visit is one step here.
- The fixed texts of the event and chunk templates are modelled as trees that are printed, not as string constants.
- White space between JSON tokens is not accepted by the modelled unmarshaller; nothing the printers write contains any.
- The handler's direct Anthropic passthrough events, `coding_agent.*` status and write-chunk events, the Orchids tool marker inside text deltas, the OpenAI output format of the handler and passthrough mode are not modelled.
- `currentToolInputID` and `toolInputHadDelta` decide nothing and are dropped; block builders live in their block entries.
- HTTP, Redis transport, logging, metrics, admin API, templates and configuration are glue.
- `RedisDedupStore` and `RedisConnTracker` are not part of this model; the former's keys expire while requests run.
- The token estimator, upstream usage parsing and prompt building are parameters or absent.
