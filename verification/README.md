# Verified model of the gateway's hard core

The repository is a Go gateway that turns one upstream chat stream into several client protocols, spreads the
calls over a pool of credentials, admits them through rate limiters, and cuts prompts down to size. This project
models the parts whose correctness is not visible from any single function body, and proves what they promise for
every input, every run and every interleaving.

**Streams.** Upstream is a sequence of normalized events; what a handler writes is a sequence of frames.
`ThinkSplitter` models the incremental `<think>` splitter as a class and proves it against a one-pass scanner
(`Classify`) for every way of cutting the text. `WrapStream` models the decorated handler, including a handler
that rejects an event midway. `Collect` is the non-streaming accumulator. `Responses` and `Anthropic` are the two
adapters, each a class whose fields are the closure variables of the Go handler. Their frames are judged by a
strict client that rejects any frame the protocol does not allow at that place (`ResponsesProtocol`, and
`Receive` in `Anthropic`); what acceptance means for a whole stream is proved separately, without the client.
`Pipeline` joins splitter and adapters: clients are shown the one-shot split of upstream's text, interleaved with
whatever reasoning upstream sends itself. `Cutting` proves that where upstream cuts its text is invisible: for any
stream, the adapters are handed the same characters and the same other events in the same places, and the clients are
shown the same items and blocks up to where an increment is cut.
`Sse` is the reader and the writer of the event stream format.

**Credentials.** `CircuitBreaker` proves that the breaker's state is a function of its history. `Pool` specifies
one `GetToken` call and the two reports as functions of the pool and of the outside world (network answers and
clock readings are inputs) and proves what holds over whole runs; `RoundRobin` proves fairness; `PoolBreakers`
takes a run of the pool apart into the runs of the single breakers; `CredentialPool` has the accounts and the pool
as classes updated in place and proves each method equal to the specification.

**Admission.** `TokenBucket`, `SlidingWindow` and `RateLimiter` prove upper bounds over every interval and,
beyond that, exactly when a call is let through. `Scheduler` refines four deques to one arrival-ordered list.
`SpacingLimiter` is the semaphore-plus-interval limiter as a small concurrent protocol.

**Context.** `Utf8` defines well-formed text as section 4 of RFC 3629 does and proves the rune-edge loops exact;
`Projector` proves the head/tail truncation and the multi-pass total budget.

`Basics` and `StreamEvents` hold shared vocabulary: `StreamEvents` says what a list of events means (all text, all
reasoning, the tool calls in order of appearance, the last finish reason).

## What the code does not do, and exactly when

Each of these, some against the code's own comments, comes with an input and with the exact condition.

- The kept finish reason of the Responses stream is sticky, that of the non-streaming path is the last one. Input:
  `Responses.StatusesCanDiffer`. The two paths report different statuses exactly under the condition of
  `Responses.StatusesDifferIff`.
- A tool item's done event ignores `content_filter`. Input: `Responses.CallStatusesCanDiffer`. Its status is that of the
  response object exactly under the condition of `Responses.CallStatusesAgreeIff`.
- The breaker's `HalfOpenMaxCalls` is documented as the most calls in half-open state; the code counts successes.
  Input: `CircuitBreaker.HalfOpenLetsTwoThrough`. Half-open refuses exactly under the condition of
  `CircuitBreaker.HalfOpenRefusesIff`, and the cap on calls is kept exactly under that of `CircuitBreaker.HalfOpenCapIff`.
- The two Anthropic modes can give one call different ids and different inputs. Inputs: `Anthropic.IdsCanDiffer`,
  `Anthropic.InputsCanDiffer`. The ids agree exactly when upstream supplied one (`Anthropic.ToolsAgree`), the answered
  input is the raw argument string exactly under the condition of `Anthropic.InputAgreesIff`.
- A reported credential is to be replaced on next use, but nothing compares the new one with the old: a source that
  still holds the rejected token hands it back. Input: `Pool.RejectedTokenComesBack`. It comes back exactly when the
  refresh or reload that supplies the account carries it: `Pool.RepeatsIff` for one try, `Pool.NoReuseAfterFailure`
  for the first token of the account after the report.
- A report with the key that `GetToken` returned can reach no account. Input: `Pool.SharedNameIsUnreachable`. It reaches
  the account that answered exactly under the condition of `Pool.ReportReachesIff`.
- A refused `RateLimiter.Allow` keeps what the earlier limits gave. Input: `RateLimiter.RefusedCallKeepsBoth`. Which
  token and which slot any call keeps, refused or not, is the exact statement of `RateLimiter.KeepsIff`.
- A tool call overtakes text that the splitter holds back. Input: `WrapStream.CallOvertakesText`. An event is handed on
  after all the text that upstream sent before it exactly under the condition of `WrapStream.InPlaceIff`, which is the
  same for every cutting of the text.
- The reader drops a pending event when the input breaks off in a comment line. Input: `Sse.PendingCanBeLost`. A pending
  event is lost exactly under the condition of `Sse.PendingLostIff`.
- The reader does not give back texts with a line feed or a final carriage return. Input: `Sse.CarriageReturnIsLost`.
  A written list is read back exactly under the condition of `Sse.ListRoundTripIff`.

## Model

| member | source | states |
|---|---|---|
| ThinkSplitter.PartialTagSuffix | internal/proxy/think.go:98-111 | the returned length is the longest tail of the data that begins the tag without being all of it |
| ThinkSplitter.Splitter.DrainBuffer | internal/proxy/think.go:43-96 | segments, held-back buffer and mode are those of the drain specification |
| ThinkSplitter.Splitter.Feed | internal/proxy/think.go:31-35 | as a drain of the held text followed by the new chunk, nothing forced out |
| ThinkSplitter.Splitter.Flush | internal/proxy/think.go:37-41 | as a final drain: everything held comes out in the current mode |
| ThinkSplitter.DrainSound | internal/proxy/think.go:43-96 | what one drain emits, followed by the one-pass scan of what it holds and of any later text, is the one-pass scan of the whole |
| ThinkSplitter.DrainLeaves | internal/proxy/think.go:54-95 | the held buffer is a proper prefix of the tag now sought, empty after a flush, never longer than before; no empty segment is emitted |
| ThinkSplitter.DrainJoin | internal/proxy/think.go:31-35 | feeding two chunks settles the same characters and leaves the same buffer and mode as feeding them at once |
| ThinkSplitter.DrainMode | internal/proxy/think.go:54-95 | a drain, the last one included, ends in the mode in which the scan of its text ends |
| ThinkSplitter.HeldDrop | internal/proxy/think.go:100-111 | what is held back after more text does not depend on what was settled before |
| ThinkSplitter.FeedAllSound | internal/proxy/think.go:31-35 | the same for any number of chunks from any splitter state |
| ThinkSplitter.RunClassifies | internal/proxy/think.go:17-41 | however the text is cut, feed and flush classify every character as the one-pass scanner does |
| ThinkSplitter.ChunkingIsInvisible | internal/proxy/think.go:17-41 | two ways of cutting one text give the same classified characters |
| ThinkSplitter.RunChannels | internal/proxy/think.go:113-131 | the texts a run delivers on a channel, joined, are that channel of the scanned text |
| ThinkSplitter.Accumulate | internal/proxy/think.go:116-129 | adds to each channel the texts of its segments in order |
| ThinkSplitter.SplitThinking | internal/proxy/think.go:113-131 | returns the two channels of the scanned text |
| ThinkSplitter.RunsReproduceInput | internal/proxy/think.go:54-95 | the mode runs written out with the removed tags between them are the input again, and none of them contains its own ending tag |
| ThinkSplitter.RunsAreUnique | internal/proxy/think.go:54-95 | conversely, any tag-free runs written out that way scan back to exactly themselves |
| ThinkSplitter.TaggedTextSplits | internal/proxy/think.go:7-15 | with the tags as they are written: what stands between <think> and </think> is reasoning, all else answer |
| ThinkSplitter.RunReproducesInput | internal/proxy/think.go:31-41 | the whole run of a splitter loses nothing but the tags |
| WrapStream.Wrapper.EmitAll | internal/proxy/think.go:140-154 | segments reach the handler in order up to and including the first it rejects |
| WrapStream.Wrapper.Flush | internal/proxy/think.go:147-154 | the held-back tail reaches the handler up to its first rejection, and the buffer is empty |
| WrapStream.Wrapper.OnEvent | internal/proxy/think.go:156-171 | text is re-classified, Finish and Error flush first, all other events pass; a rejection stops delivery there |
| WrapStream.BodySound | internal/proxy/think.go:156-164 | for every stream without an end so far: the characters made from upstream's text, in order and each on its channel, followed by the scan of the held text, are the scan of all text so far |
| WrapStream.BodyText | internal/proxy/think.go:156-170 | the answer channel is right even when upstream mixes in reasoning of its own |
| WrapStream.InPlaceIff | internal/proxy/think.go:157-170 | an event without text goes through at once, and exactly when nothing is held back it follows all the text sent before it |
| WrapStream.CallOvertakesText | internal/proxy/think.go:157-170 | an input on which a tool call overtakes a character |
| WrapStream.WrappedStreamSplits | internal/proxy/think.go:133-173 | up to the first Finish or Error the characters made from upstream's text are those of the one-shot split, in order and each on its channel, and upstream's own events, reasoning included, are handed on once each, unchanged and in order |
| WrapStream.OtherEventsPassThrough | internal/proxy/think.go:156-171 | upstream's events other than text, its own reasoning included, are delivered once each, unchanged and in order |
| WrapStream.DeliveriesAre | internal/proxy/think.go:156-171 | every delivered event is upstream's own or made from its text; these deliveries are what the adapter is handed, and the own ones are upstream's events other than text |
| WrapStream.Forward | internal/proxy/proxy.go:221-231 | what the handler has seen and the error returned, for every event list and every rejecting handler |
| WrapStream.RejectedEarly | internal/proxy/proxy.go:222-226 | a rejection at one event decides deliveries and error of the whole call |
| Pipeline.HeldComesOut | internal/proxy/think.go:147-170 | over any events without text the held text is made into deliveries exactly once, in order |
| Pipeline.ForwardedSplits | internal/proxy/proxy.go:221-231 | with or without a Finish before the end, and whatever upstream says or calls itself in between: what is made from its text is exactly the one-shot split, in order and each on its channel, and its own events are handed on as they are |
| Pipeline.PartsInterleave | internal/proxy/think.go:140-171 | the characters delivered interleave those made from the text with those of upstream's own reasoning, each in order |
| Pipeline.ForwardedInterleaves | internal/proxy/proxy.go:221-231 | the adapter is handed the characters of the split interleaved with upstream's own reasoning; the answer text is that of the split; without own reasoning nothing else is said |
| Pipeline.StreamScans | internal/proxy/think.go:137-173 | from any splitter state: what is made from the text of any stream, ends and text after them included, is the reference scan |
| Pipeline.EveryStreamSplits | internal/proxy/proxy.go:221-231 | for every stream: the adapter is handed the reference scan of its text, begun anew at each end in the mode reached, interleaved with upstream's own reasoning, and upstream's own events as they are |
| Pipeline.ForwardedKeepsOthers | internal/proxy/proxy.go:221-231 | the other events reach the adapters unchanged and in order |
| Pipeline.OthersDecide | internal/protocol/common.go:44-65 | tool calls, finish reason and usage are decided by the events that carry no text |
| Pipeline.ResponsesStreamIgnoresCuts | internal/protocol/responses.go:689-709 | a Responses object faithful to one of them is faithful to the other |
| Pipeline.ResponsesAnswerIgnoresCuts | internal/protocol/responses.go:322-333 | so is the object of the non-streaming handler |
| Pipeline.TranscriptMarks | internal/protocol/responses.go:529-566 | wherever items begin and end, a Responses client is shown the characters of the events in order |
| Pipeline.ResponsesShowsSplit | internal/protocol/responses.go:529-687 | a Responses client is shown the characters of the one-shot split of upstream's text, in order and each on its channel, interleaved with upstream's own reasoning, whatever calls stand between them |
| Pipeline.MarkRunsAreMaximal | internal/proxy/think.go:17-20 | the runs are the characters again, none is empty, neighbours are of different channels |
| Pipeline.BlocksAreRuns | internal/protocol/anthropic.go:415-437 | text and thinking blocks, their increments joined, are the maximal runs of what the events say |
| Pipeline.TextBlocksMarks | internal/protocol/anthropic.go:415-437 | text and thinking blocks, in order, say exactly what the events say |
| Pipeline.AnthropicShowsSplit | internal/protocol/anthropic.go:415-437 | text and thinking blocks say the characters of the one-shot split interleaved with upstream's own reasoning, and are the maximal runs of what is said unless an own reasoning event is empty |
| Pipeline.ClientsShowScan | internal/proxy/proxy.go:221-231 | on every stream both clients are shown the reference scan interleaved with upstream's own reasoning |
| Pipeline.AnthropicStreamIgnoresCuts | internal/protocol/anthropic.go:414-496 | event lists of the same meaning give an Anthropic client the same runs, tool blocks, stop reason and output tokens |
| Cutting.TextByCharacter | internal/proxy/think.go:156-164 | one text delta or its characters one by one: same buffer, same mode, same characters delivered |
| Cutting.StreamByCharacter | internal/proxy/think.go:137-173 | the same for a whole stream of any events |
| Cutting.CutsAreInvisible | internal/proxy/think.go:17-20 | two upstream streams that differ only in where their text is cut, whatever else they hold, hand the adapter the same characters and the same other events in the same places |
| Cutting.AlikeSplit | internal/protocol/responses.go:531-566 | one increment or two that make it up give the same items, done statuses and blocks up to that cut |
| Cutting.AlikeCut | internal/protocol/responses.go:529-648 | so do an event list and its single characters |
| Cutting.HeardOfCut | internal/protocol/responses.go:644-662 | cuts move neither the event at which an error stops an adapter nor the error |
| Cutting.ResponsesClientSeesNoCuts | internal/protocol/responses.go:529-709 | a Responses client of either stream sees the same items in order with the same texts and done statuses, every call in the same place, and the same outcome, up to where increments of an item are cut |
| Cutting.AnthropicClientSeesNoCuts | internal/protocol/anthropic.go:414-496 | an Anthropic client sees the same blocks in order, stop reason, tokens and outcome, up to where increments of a block are cut |
| Cutting.CutsDoNotMatter | internal/proxy/think.go:156-171 | with the same text, reasoning and ends in order up to cuts and the same other events, wherever these stand: the same characters in the same order, the same calls, the same end |
| Collect.CollectEvents | internal/protocol/common.go:35-72 | the collected response says what the events before the first error said; the error is that event's or the transport's |
| Collect.CollectEvent | internal/protocol/common.go:39-69 | one event more is accounted for |
| Collect.AccountsToolDelta | internal/protocol/common.go:44-61 | merging a delta keeps order of first appearance, newest non-empty id, type and name, and joined arguments of every call |
| Collect.AccountsOtherEvent | internal/protocol/common.go:40-65 | any other event changes exactly the field it carries |
| StreamEvents.ToolsInOrder | internal/protocol/common.go:44-61 | tools come in the order of their first deltas |
| StreamEvents.NewestToolFields | internal/protocol/common.go:48-57 | name, id and type of a tool are its newest non-empty ones |
| StreamEvents.ArgumentsJoin | internal/protocol/common.go:58-60 | arguments of a tool are those of its deltas joined in order |
| StreamEvents.NewestEnd | internal/protocol/common.go:62-65 | finish reason and usage are those of the newest such event |
| StreamEvents.FaultIs | internal/protocol/common.go:35-72 | the events heard end before the first that carries an error, and the call fails with that error, else as the transport did |
| ResponsesProtocol.ClientCounts | internal/protocol/responses.go:361-363 | an accepted stream of n frames has used sequence numbers 1 to n; an output index below the next one was announced once, and done unless still open |
| ResponsesProtocol.EndedStreamBalanced | internal/protocol/responses.go:361-709 | in an accepted complete stream frame n carries number n + 1, indexes are 0, 1, 2, ..., and each is announced once and done once |
| ResponsesProtocol.EndedStreamEnds | internal/protocol/responses.go:689-709 | response.created is first; response.done and one terminal event matching the status, with the same object, are last and nowhere else |
| ResponsesProtocol.AddressedItemIsOpen | internal/protocol/responses.go:529-648 | every delta and part event names an item announced under that id and index, of the kind that takes it, and not yet done |
| ResponsesProtocol.TextItemsDoNotOverlap | internal/protocol/responses.go:531-553 | when an item is announced or an argument increment sent, every earlier text or reasoning item is done; tool items may stay open |
| ResponsesProtocol.DoneItemIsItsDeltas | internal/protocol/responses.go:389-468 | an item is done under the id and kind it was announced with, and its text, its part's text or its arguments are all increments sent for it, joined |
| ResponsesProtocol.ClientAnnounced | internal/protocol/responses.go:365-376 | what an accepting client knows of announcements is what the frames say, and the first frame carries the response id and model it knows |
| ResponsesProtocol.PrefixAccepted | internal/protocol/responses.go:650-662 | what was sent before an upstream failure is itself an accepted stream |
| Responses.KeptIsNewestReal | internal/protocol/responses.go:638-641 | the kept finish reason is the newest that is neither empty nor stop, whatever follows |
| Responses.KeptWithoutReal | internal/protocol/responses.go:638-641 | without such a reason it is stop if stop ever came, else empty |
| Responses.StatusIs | internal/protocol/responses.go:174-275 | the status and the incomplete details of every finish reason, case by case, and which reasons end a tool item as incomplete |
| Responses.StatusesDifferIff | internal/protocol/responses.go:638-641 | streaming and non-streaming statuses differ exactly when a truncating reason was kept and the last reason is stop or empty |
| Responses.StatusesCanDiffer | internal/protocol/common.go:62-63 | an event list on which they differ |
| Responses.CallStatusesAgreeIff | internal/protocol/responses.go:666-687 | the tool items' done events have the response's status exactly when no content filter was reported or there are no tools |
| Responses.CallStatusesCanDiffer | internal/protocol/responses.go:669-672 | on a tool delta followed by a content filter the done event says completed and the object incomplete |
| Responses.ResponseObject | internal/protocol/responses.go:174-275 | reasoning, message and calls in order, with stable ids where kept, status and details of the finish reason, usage or zeros |
| Responses.TranscriptSnoc | internal/protocol/responses.go:530-646 | how one more event extends what the client is shown: same item while the kind stays, else the open item is done and a new one opened |
| Responses.OpenKindIs | internal/protocol/responses.go:529-610 | the open item is that of the newest text or reasoning unless a tool delta came since |
| Responses.OpenItemIsDone | internal/protocol/responses.go:531-610 | increments of its kind join the open item; those of the other kind, tool deltas and the end first end it with the status of the reason kept by then |
| Responses.Stream.ClosePart | internal/protocol/responses.go:389-407 | the open content part is done with the text its deltas carried |
| Responses.Stream.CloseItem | internal/protocol/responses.go:409-468 | the open text or reasoning item is done with its own text and the status of the reason kept so far; tool items stay open |
| Responses.Stream.OpenTextItem | internal/protocol/responses.go:470-503 | a message item and its part are announced at the next index under a fresh id that the final object will use |
| Responses.Stream.OpenReasoningItem | internal/protocol/responses.go:505-527 | a reasoning item is announced likewise |
| Responses.Stream.ShowReasoning | internal/protocol/responses.go:533-548 | a reasoning increment is shown at once, in the open reasoning item or in a new one after the open item is done |
| Responses.Stream.ShowText | internal/protocol/responses.go:551-566 | a text increment likewise |
| Responses.Stream.ShowTool | internal/protocol/responses.go:570-637 | an argument increment is shown at once in the item of its tool, which is announced first if it is new |
| Responses.Stream.OnReasoning | internal/protocol/responses.go:531-548 | one reasoning event keeps client, accumulator and transcript in step |
| Responses.Stream.OnText | internal/protocol/responses.go:549-566 | one text event does |
| Responses.Stream.PrepareTool | internal/protocol/responses.go:570-610 | a running text item is closed, other tools are left alone, the delta's tool item is open; a new one was announced with the delta's name and its id, or one made up when it has none |
| Responses.Stream.OnToolCall | internal/protocol/responses.go:567-637 | one tool delta keeps tool items, accumulator, ids and transcript in step |
| Responses.Stream.OnEvent | internal/protocol/responses.go:529-648 | every event keeps the invariant and is heard, or aborts with its error |
| Responses.Stream.CloseTools | internal/protocol/responses.go:666-687 | every tool item is done once, in order of first appearance, with its own id, call id, name, arguments and status |
| Responses.Stream.FinalObject | internal/protocol/responses.go:689 | the object is faithful to what the client has been told |
| Responses.Stream.SendEnd | internal/protocol/responses.go:690-708 | response.done and the terminal event of the object's status end the stream |
| Responses.Stream.Complete | internal/protocol/responses.go:664-709 | the stream ends with an object faithful to everything the client was told |
| Responses.FaithfulAtEnd | internal/protocol/responses.go:664-709 | object texts are the joined done texts under the ids of the newest items of their kinds, calls match their done events in order with id, call id, name and arguments, every id was announced |
| Responses.AnnouncesCall | internal/protocol/responses.go:594-608 | one more tool announced under its first delta keeps announcements and tools matched one to one in order |
| Responses.AnnouncesNothing | internal/protocol/responses.go:529-648 | every other event leaves them matched |
| Responses.HandleStreaming | internal/protocol/responses.go:354-709 | a strict client accepts every frame; the first carries the response's id and model; whatever happens, exactly one call item is announced for every tool so far, in order of first appearance, with the name and id of its first delta; without an error the stream ends, shows exactly the transcript of the events and its object is faithful; with one it shows the transcript so far and then one failure |
| Responses.HandleNonStreaming | internal/protocol/responses.go:322-333 | the object has the given id and model and says what the events said, or the error is returned |
| Anthropic.Stream.OnIncrement | internal/protocol/anthropic.go:415-437 | an increment goes to the open block of its own type, else that block is stopped and a new one started |
| Anthropic.Stream.PrepareBlock | internal/protocol/anthropic.go:417-432 | the open block is kept if it has the right type, else stopped and a new one started |
| Anthropic.Stream.OnToolCall | internal/protocol/anthropic.go:438-461 | a delta is merged into the accumulator of its index; nothing is sent |
| Anthropic.Stream.FlushToolCalls | internal/protocol/anthropic.go:383-412 | every accumulated call is sent in order as one block of its own |
| Anthropic.Stream.Complete | internal/protocol/anthropic.go:483-496 | the frames are message_start, the rendered blocks, message_delta, message_stop |
| Anthropic.HandleStreaming | internal/protocol/anthropic.go:330-496 | without an error exactly the complete stream of the events, with one exactly its beginning followed by one error event |
| Anthropic.ReceiveRendered | internal/protocol/anthropic.go:364-381 | a strict client, which takes text increments in text blocks, thinking increments in thinking blocks and JSON increments in tool blocks only, accepts rendered blocks 0 to k-1 and reads off the very blocks |
| Anthropic.AcceptedIsRendered | internal/protocol/anthropic.go:364-381 | conversely, all that client accepts inside a message is such a rendering |
| Anthropic.CompleteStreamAccepted | internal/protocol/anthropic.go:472-496 | the complete stream is accepted to its end and read back as text blocks then tool blocks |
| Anthropic.FailedStreamAccepted | internal/protocol/anthropic.go:472-481 | a failed stream is the beginning of a complete one and one error event |
| Anthropic.HandleNonStreaming | internal/protocol/anthropic.go:279-322 | the message says what the events said, or the error is returned |
| Anthropic.BlocksCarryText | internal/protocol/anthropic.go:415-437 | the increments of the text blocks joined are all the text, those of the thinking blocks all the reasoning |
| Anthropic.SameStopReason | internal/protocol/anthropic.go:207-219 | the two modes' different initial finish reasons never lead to different stop reasons |
| Anthropic.StopReasonIs | internal/protocol/anthropic.go:206-219 | the stop reason of every finish reason, case by case |
| Anthropic.OutputTokensAre | internal/protocol/anthropic.go:472-496 | the output tokens are the completion tokens of the newest usage report, 0 without one |
| Anthropic.ToolsAgree | internal/protocol/anthropic.go:297-309 | a call as streamed and as answered has the same name and raw arguments, and the same id exactly when upstream supplied one |
| Anthropic.IdsCanDiffer | internal/protocol/anthropic.go:442-445 | a call without an id is streamed under one made up and answered without any |
| Anthropic.InputsCanDiffer | internal/protocol/anthropic.go:299-302 | arguments that are not valid JSON are streamed as they are and answered as an empty object |
| Anthropic.InputAgreesIff | internal/protocol/anthropic.go:299-302 | the answered input is the raw argument string exactly when that is valid JSON or the empty object |
| Anthropic.ModesAgree | internal/protocol/anthropic.go:279-496 | on the same events both modes give the same text, reasoning, tools in the same order, stop reason and output tokens |
| CircuitBreaker.CircuitBreaker.TryAllow | internal/queue/limiter.go:58-86 | grants and moves as the breaker's step does |
| CircuitBreaker.CircuitBreaker.RecordSuccess | internal/queue/limiter.go:88-103 | likewise for a success |
| CircuitBreaker.CircuitBreaker.RecordFailure | internal/queue/limiter.go:105-120 | likewise for a failure |
| CircuitBreaker.StateFromHistory | internal/queue/limiter.go:58-120 | closed iff fewer than threshold failures came since the last reset, else half-open iff a probe came since the last failure; the counters are those of the history |
| CircuitBreaker.RefusedIff | internal/queue/limiter.go:63-84 | refused iff tripped, unprobed since the last failure, and that failure no older than the timeout |
| CircuitBreaker.HalfOpenSince | internal/queue/limiter.go:67-75 | a half-open breaker has seen one probe after the timeout and no failure since |
| CircuitBreaker.ReclosesOnlyAfterStreak | internal/queue/limiter.go:88-103 | it re-closes only with the halfOpenMaxCalls-th success after the probe, with no failure in between |
| CircuitBreaker.HalfOpenRefusesIff | internal/queue/limiter.go:77-81 | in half-open a call is refused only if the configured limit is not positive |
| CircuitBreaker.HalfOpenCapIff | internal/queue/limiter.go:67-81 | every call from the probe on is let through, so at most halfOpenMaxCalls are exactly as long as no more come |
| CircuitBreaker.HalfOpenLetsTwoThrough | internal/queue/limiter.go:67-81 | with a limit of one call two are let through in half-open state |
| Pool.GrantedIsGood | internal/auth/pool.go:271-316 | a granted token is non-empty and, unless the refresh endpoint has just supplied it, was unexpired at the clock reading of its own check; an old token is kept only while the early window is not reached, and past that only if neither refresh nor reload offers one; a stale account is granted only what is refreshed or reloaded in this try |
| Pool.HowIff | internal/auth/pool.go:271-316 | exactly when a try keeps the token, refreshes, reloads, falls back or fails, in that order of preference |
| Pool.EarlyWindowRefreshes | internal/auth/pool.go:281-315 | a token inside the early window is replaced before its expiry whenever a new one is on offer |
| Pool.UsableIff | internal/auth/pool.go:271-316 | a try yields a token exactly when the breaker allows and there is a trusted credential or a new one on offer |
| Pool.RepeatsIff | internal/auth/pool.go:285-315 | a stale account is granted exactly when its breaker allows and a refresh or reload supplies a credential; the rejected access string comes back exactly when that supply carries it |
| Pool.RejectedTokenComesBack | internal/auth/pool.go:303-307 | a run on which a reported token is handed out again |
| Pool.TryKeeps | internal/auth/pool.go:342-360 | a try changes only the tried account's token, stale mark and breaker; without a grant the mark and an existing credential stay; refused iff its breaker refuses |
| Pool.ScanFinds | internal/auth/pool.go:363-403 | the pass grants the first usable account in cyclic order from the index, moves the index past it, and fails exactly when none is usable |
| Pool.ScanError | internal/auth/pool.go:399-402 | broken breakers are reported exactly when no account was allowed a try |
| Pool.ActiveComesFirst | internal/auth/pool.go:329-361 | a usable active account answers and nothing else changes; else the call is the pass on the pool its failed try leaves |
| Pool.PreferredIs | internal/auth/pool.go:331-340 | the active account is the first whose id is the active id, or which has no id and that name |
| Pool.CallAnswer | internal/auth/pool.go:318-403 | every answer is the outcome of a try of the answering account |
| Pool.TokenIsGood | internal/auth/pool.go:318-403 | every returned token is non-empty, the account's current one, and unexpired at the clock reading of its own check unless the refresh endpoint just supplied it; an old one inside the early window is returned only if nothing new was on offer; a stale account returns only what this call refreshed or reloaded |
| Pool.FailsIffNoneUsable | internal/auth/pool.go:318-403 | a call fails exactly when neither the active account at its own try nor any account at its try in the pass is usable |
| Pool.StaysStale | internal/auth/pool.go:405-461 | a stale account stays stale and keeps its credential through any calls and reports until it hands out a token |
| Pool.NoReuseAfterFailure | internal/auth/pool.go:405-437 | after a reported failure the first token the account hands out again is one refreshed or reloaded in that very call, and is the rejected one again exactly when that supply carries it |
| Pool.TargetIs | internal/auth/pool.go:408-437 | exactly which account a report reaches: the first with that id, else the one whose name is its alone, else none |
| Pool.ReportsTouch | internal/auth/pool.go:405-461 | a reported failure marks its target stale and charges its breaker, a reported success credits it, and no other account changes |
| Pool.ReportReachesIff | internal/auth/pool.go:385-389 | a report with the returned key reaches the account that answered exactly when its id is its own from the front, or, without an id, its name is no other account's name or id |
| Pool.SharedNameIsUnreachable | internal/auth/pool.go:422-436 | two accounts without ids that share a name: the report marks neither |
| Pool.AddedIs | internal/auth/pool.go:185-204 | a new account comes last and becomes the active one exactly if it is meant to be and none is |
| PoolBreakers.RunDecomposes | internal/auth/pool.go:342-461 | after any run of the pool each breaker is as if it had been told alone what its account's tries and the reports that reached it tell it |
| PoolBreakers.RefusedInRunIff | internal/auth/pool.go:370-372 | in a run a try of an account is refused exactly when its own history has tripped the breaker, unprobed since the last failure, no older than the timeout |
| RoundRobin.CallTakesNext | internal/auth/pool.go:363-390 | one call returns the next usable account in cyclic order and moves just past it |
| RoundRobin.MeetOneMore | internal/auth/pool.go:364-383 | moving on to the next usable account, while one is still missing, meets exactly one new account within the round |
| RoundRobin.RoundServesEachOnce | internal/auth/pool.go:318-403 | with a steady set H of usable accounts any card(H) consecutive calls succeed and serve each member exactly once, in cyclic order |
| CredentialPool.Account.EnsureFresh | internal/auth/pool.go:265-316 | refresh, reload and fallback update the account as specified |
| CredentialPool.Account.TryToken | internal/auth/pool.go:370-396 | breaker, credential and charge as specified |
| CredentialPool.Pool.FindPreferred | internal/auth/pool.go:331-340 | the first account the active id names |
| CredentialPool.Pool.Pass | internal/auth/pool.go:363-403 | the round-robin pass as specified, changing only accounts it tried |
| CredentialPool.Pool.GetToken | internal/auth/pool.go:318-403 | the whole call as specified |
| CredentialPool.Pool.FindReported | internal/auth/pool.go:413-431 | the account a report is about |
| CredentialPool.Pool.ReportFailure | internal/auth/pool.go:405-437 | marks exactly that account stale and charges its breaker |
| CredentialPool.Pool.ReportSuccess | internal/auth/pool.go:439-461 | credits exactly that account's breaker |
| CredentialPool.Pool.Register | internal/auth/pool.go:185-204 | appends an account with a fresh breaker; a current one becomes active if none is |
| CredentialPool.Pool.SetActiveAccount | internal/auth/pool.go:165-170 | changes the active id only |
| TokenBucket.TokenBucket.Allow | internal/queue/queue.go:33-48 | refills, grants and pays as specified |
| TokenBucket.AccruedIs | internal/queue/queue.go:36-39 | inflow is the refill rate in tokens a second |
| TokenBucket.Conserved | internal/queue/queue.go:33-48 | tokens stay in [0, capacity]; tokens plus grants since s never exceed a full bucket plus the inflow since s |
| TokenBucket.GrantsBounded | internal/queue/queue.go:33-48 | grants from s to the latest call number at most capacity plus inflow |
| TokenBucket.IntervalBounded | internal/queue/queue.go:33-48 | every interval of every run holds at most capacity plus refillRate times its seconds |
| TokenBucket.Pivot | internal/queue/queue.go:40-41 | the bound is attained: since some time no token has overflowed and equality holds |
| TokenBucket.GrantedIff | internal/queue/queue.go:33-48 | a call is granted exactly when one more grant overfills no interval ending at it |
| TokenBucket.RefusalWitness | internal/queue/queue.go:43-47 | a refusal comes with an interval that one more grant would overfill |
| SlidingWindow.SlidingWindowCounter.Allow | internal/queue/queue.go:87-111 | prunes, grants and records as specified |
| SlidingWindow.SlidingWindowCounter.GetCount | internal/queue/queue.go:113-128 | the number of kept timestamps inside the window |
| SlidingWindow.NothingNeededIsLost | internal/queue/queue.go:95-102 | pruned timestamps never count again: for every later cutoff the counter agrees with the full history |
| SlidingWindow.GrantedIff | internal/queue/queue.go:87-111 | granted exactly when fewer than maxCount of all grants ever made lie in the window (t - window, t] |
| SlidingWindow.CountIsExact | internal/queue/queue.go:113-128 | GetCount is the number of grants in the window ending at the call |
| SlidingWindow.WindowBounded | internal/queue/queue.go:87-111 | every interval (t - window, t] of every run holds at most maxCount grants |
| SlidingWindow.RefusedOnlyWhenFull | internal/queue/queue.go:104-110 | refused only when exactly maxCount grants lie in the window |
| RateLimiter.RateLimiter.Allow | internal/queue/queue.go:169-202 | asks bucket, user window and account window in order, creating windows on first use, and stops at the first refusal |
| RateLimiter.RunDecomposes | internal/queue/queue.go:169-202 | after any run each single limiter is as if it had been asked alone, at the calls that reached it |
| RateLimiter.EveryBoundHolds | internal/queue/queue.go:169-202 | every run grants at most 1.5 times the global rate plus that rate times the seconds in every interval, and at most userRPM and accountRPM calls in every minute |
| RateLimiter.AllowedIff | internal/queue/queue.go:169-202 | a call is allowed exactly when all three limiters have room |
| RateLimiter.KeepsIff | internal/queue/queue.go:174-202 | a call, refused or not, costs a token exactly when the bucket had room, the user a slot exactly when bucket and user window both had room, the account a slot exactly when it is allowed |
| RateLimiter.RefusedCallKeepsBoth | internal/queue/queue.go:174-199 | a refused call that keeps a token and the user's only slot |
| Scheduler.Scheduler.Enqueue | internal/queue/scheduler.go:83-107 | refused exactly when full; else the request joins the list at its end, unknown priorities as normal |
| Scheduler.Scheduler.Dequeue | internal/queue/scheduler.go:109-125 | takes out the chosen request, none only if nothing waits |
| Scheduler.Scheduler.GetQueueLength | internal/queue/scheduler.go:169-178 | the number of waiting requests |
| Scheduler.Deque.PopFront | internal/queue/scheduler.go:23-28 | the oldest request and the rest, or none |
| Scheduler.ChoiceIsRight | internal/queue/scheduler.go:114-124 | nothing waiting is more urgent than the chosen request and nothing as urgent has waited longer, where VIP comes before high, high before normal and unknown, and these before low |
| Scheduler.RemoveOldest | internal/queue/scheduler.go:117-121 | taking the head of one deque is removing one request of the list and leaves the other deques alone |
| Scheduler.AllLevelsCounted | internal/queue/scheduler.go:88-92 | the deque lengths sum to the length of the list |
| Scheduler.RunConserves | internal/queue/scheduler.go:83-125 | in every run served plus waiting is exactly what was accepted, in order within each level, and the length never exceeds maxLen |
| SpacingLimiter.Limiter.TrySlot | internal/protect/protect.go:260-266 | takes a slot exactly when one is free or slots are unlimited |
| SpacingLimiter.Limiter.TryStart | internal/protect/protect.go:267-288 | starts exactly when the last start is long enough ago, else says how long to sleep |
| SpacingLimiter.Limiter.FreeSlot | internal/protect/protect.go:281-293 | gives one slot back |
| SpacingLimiter.EveryInterleavingKeepsInv | internal/protect/protect.go:253-295 | in every interleaving held slots are exactly the requests past the semaphore and never exceed the limit; starts are spaced; nobody oversleeps |
| SpacingLimiter.StartsApart | internal/protect/protect.go:267-289 | starts k apart in order are at least k intervals apart in time |
| SpacingLimiter.BeginsIff | internal/protect/protect.go:267-288 | a holder may begin exactly when spacing is off, nothing has started, or the last start is an interval ago; else it sleeps until exactly one interval after it |
| SpacingLimiter.SlotsMoveOneByOne | internal/protect/protect.go:260-294 | each exit of a holder frees exactly its slot, only acquiring takes one, no other step touches any |
| SpacingLimiter.NoSlotLeaks | internal/protect/protect.go:281-294 | with no request left all slots are free; while all are taken some request holds one |
| SpacingLimiter.HolderCanMove | internal/protect/protect.go:267-288 | whoever holds a slot without running can move once enough time has passed |
| SpacingLimiter.Simulate | internal/protect/protect.go:253-295 | on every enabled step the object's methods change the shared state as the protocol does |
| SpacingLimiter.AskSlot | internal/protect/protect.go:260-266 | a queued request gets a slot exactly when the protocol lets it take one; a refusal changes nothing |
| SpacingLimiter.AskStart | internal/protect/protect.go:267-288 | a holder is told to start exactly when the protocol lets it begin, and to sleep exactly when and as long as the protocol delays it |
| Utf8.LastRuneLenIs | internal/protect/protect.go:100-101 | the backwards decoding finds the rune a text ends with whenever there is one |
| Utf8.EncodingIsRune | internal/protect/protect.go:97-121 | every scalar value's encoding is a rune |
| Utf8.RuneIsEncoding | internal/protect/protect.go:97-121 | every rune is the encoding of a scalar value: no overlong form, no surrogate, nothing beyond the last plane |
| Utf8.TrimToRuneEdge | internal/protect/protect.go:97-108 | the longest prefix that ends with a whole rune |
| Utf8.SkipToRuneEdge | internal/protect/protect.go:110-121 | the longest suffix that starts with a whole rune |
| Utf8.TrimCut | internal/protect/protect.go:97-108 | cutting well-formed text anywhere and trimming leaves well-formed text and loses at most 3 bytes |
| Utf8.SkipCut | internal/protect/protect.go:110-121 | the same at the front |
| Projector.TruncateHeadTail | internal/protect/protect.go:123-138 | the in-order branches and sizes of the truncation as specified |
| Projector.TruncateFits | internal/protect/protect.go:123-138 | never over budget or longer than the text; a text within budget is untouched; else a prefix, or disjoint prefix and suffix around the marker |
| Projector.MarkerIs | internal/protect/protect.go:73 | the marker byte by byte |
| Projector.TruncateKeepsRunes | internal/protect/protect.go:123-138 | well-formed text stays well-formed; head and tail are budget - budget/4 - 26 and budget/4 bytes, less at most 3 for a rune that does not fit |
| Projector.Project | internal/protect/protect.go:140-189 | the in-place loops compute the specified projection of the messages |
| Projector.CappedIs | internal/protect/protect.go:151-163 | stack traces are stripped above 4096 bytes, then the cap applies where one is set |
| Projector.TotalIs | internal/protect/protect.go:168-174 | the estimate is the bytes of all messages and 32 for each |
| Projector.PassIsOldestFirst | internal/protect/protect.go:179-184 | a pass shrinks a run of the oldest messages and stops early only because the estimate fits |
| Projector.WholePass | internal/protect/protect.go:179-184 | a pass goes all the way when the size does not suffice, else exactly as far as the estimate needs |
| Projector.ProjectionIs | internal/protect/protect.go:175-185 | exactly which messages are cut and how hard: nothing while the estimate fits, else 2048 bytes oldest first as far as needed, only if that does not suffice 1024, then 512, then 256 |
| Projector.PassesFit | internal/protect/protect.go:175-185 | after the passes the estimate fits or every shrinkable message is at most 256 bytes |
| Projector.ProjectionIsRight | internal/protect/protect.go:140-189 | count, order and roles are kept; every message fits its cap; system messages and the last two are never shrunk for the total; in the end the estimate fits or all others are at most 256 bytes |
| Projector.ProjectionKeepsRunes | internal/protect/protect.go:140-189 | no rune of any message is split |
| Sse.Reader.ReadLine | internal/sse/sse.go:28-43 | one line without its ending, or the unterminated rest and the end of the input |
| Sse.Reader.ReadEvent | internal/sse/sse.go:45-102 | the event and the unread input that the format's reading function gives |
| Sse.Writer.WriteEvent | internal/sse/sse.go:114-118 | appends one data line and a blank line |
| Sse.Writer.WriteNamedEvent | internal/sse/sse.go:120-124 | appends an event line, a data line and a blank line |
| Sse.Writer.WriteDone | internal/sse/sse.go:126-130 | appends the end marker as an event |
| Sse.WrittenField | internal/sse/sse.go:73-79 | a written field line is read as that field and that value, leading spaces and colons included |
| Sse.DataRoundTrip | internal/sse/sse.go:114-118 | data that fits on a line is read back exactly and nothing after it is touched |
| Sse.EventIsRead | internal/sse/sse.go:45-102 | any event in any lines, either line end, with or without the space, bare names, comments and unknown fields among them, is read as its last id, its last name and all its data joined by line feeds, and nothing after its blank line is touched |
| Sse.DataLinesJoin | internal/sse/sse.go:82-85 | in particular data lines are joined by line feeds |
| Sse.AnyBlankLine | internal/sse/sse.go:53-62 | a blank line ends an event that has data and otherwise changes nothing |
| Sse.SettledByBlankLine | internal/sse/sse.go:54-58 | a pending event is settled by the first blank line, whatever follows |
| Sse.PendingLostIff | internal/sse/sse.go:54-71 | a pending event is lost exactly when no blank line follows and the input breaks off in a comment |
| Sse.PendingCanBeLost | internal/sse/sse.go:65-69 | an input on which it is lost |
| Sse.DataGrowsSlowly | internal/sse/sse.go:82-85 | joining data lines always gives less than was read |
| Sse.UnfitDataIsLost | internal/sse/sse.go:114-118 | data with a line feed or a final carriage return never comes back as it was |
| Sse.RoundTripIff | internal/sse/sse.go:114-124 | a written event comes back exactly when its name and data have no line feed and no final carriage return |
| Sse.ListRoundTripIff | internal/sse/sse.go:45-130 | a written list of events is read back as the same list, then the end, exactly when every event fits |
| Sse.CarriageReturnIsLost | internal/sse/sse.go:38-40 | a list of one event whose data ends in a carriage return is not read back as it was written |

## Left out

- HTTP, JSON encoding and decoding, socket flushing, logging and request conversion: upstream is a list of events, output a list of frames, JSON validity an arbitrary predicate.
- UUIDs: an arbitrary sequence of drawn strings; that they differ from one another is not assumed, so no claim rests on it.
- Clocks: every reading is a parameter; where a claim needs a clock that does not run backwards, it says so.
- Locks of pool, bucket, window, scheduler and breaker: their methods are modelled as running one at a time. In the Go pool the list lock is not held across a whole `GetToken`, so overlapping calls may see the index move between their steps.
- SpacingLimiter.Limiter.TryStart: the mutex's critical section is one step, and the zero time before the first start is modelled as no start at all; the nil limiter, which admits everything, is not modelled.
- Releasing a slot twice: the returned release function is called once per request, as its documentation asks.
- Floating point: tokens are real numbers; counters, times and lengths are unbounded integers.
- Token metadata (account, tenant and user ids), the refresh callback, default refresh expiry and the separate Add functions, which all come down to registering one account.
- A response's id is also repeated inside the frames of its parts and deltas; here it is in the first, the last and the failure frames only.
- A source that fails to load is not registered at all; registration is modelled for one that loads.
- Breaker statistics and time of last state change, and the degradation policy, whose higher levels cannot be reached.
- Scheduler workers and request time stamps other than the arrival time: the queue discipline does not read them.
- StripStackTraces: an arbitrary function on text, which may even lengthen it; the per-message cap is applied after it as in the code.
- Sensitive-word filter: replacement order over a Go map is unspecified, nothing to prove.
- Encryption, token decryption, model tables, agent and workflow stubs, storage, configuration and user interface.
- Buffered reading: the reader's input is one string, so how the network fragments it is not modelled.
- ThinkSplitter.Splitter.Flush: keeps its mode, as the code does, so a splitter used again after an unterminated think block starts in that mode.
- Pool.FailsIffNoneUsable: an active account that fails is charged once for its own try and again in the pass, as in the code, so the pass is stated on the pool after that first charge.
- Pool.TokenIsGood: assumes a positive early-refresh window, which the pool's own defaulting of options (internal/auth/pool.go:124-148) always provides.
