/** internal/protocol/anthropic.go: the block state machine of the streaming Messages adapter and
    the non-streaming path. */
module Anthropic {
  import opened Basics
  import opened StreamEvents
  import opened Collect

  // ---- The wire ----

  datatype Head = ThinkingHead | TextHead | ToolHead(id: string, name: string)

  datatype Delta = ThinkingDelta(text: string) | TextDelta(text: string) | JsonDelta(text: string)

  datatype Frame =
    | MessageStart(id: string, model: string)
    | BlockStart(index: int, head: Head)
    | BlockDelta(index: int, delta: Delta)
    | BlockStop(index: int)
    | MessageDelta(stopReason: string, outputTokens: int)
    | MessageStop
    | ErrorFrame(message: string)

  /** A content block with the increments it was sent in. */
  datatype Block = Block(head: Head, deltas: seq<string>)

  /** Increments are typed like the block they belong to. */
  function DeltaOf(head: Head, text: string): Delta {
    match head
    case ThinkingHead => ThinkingDelta(text)
    case TextHead => TextDelta(text)
    case ToolHead(_, _) => JsonDelta(text)
  }

  // ---- The stream a list of blocks is sent as ----

  function RenderDeltas(b: Block, index: int): seq<Frame>
    decreases |b.deltas|
  {
    if b.deltas == [] then []
    else RenderDeltas(Block(b.head, Front(b.deltas)), index) + [BlockDelta(index, DeltaOf(b.head, Last(b.deltas)))]
  }

  function RenderUnclosed(b: Block, index: int): seq<Frame> {
    [BlockStart(index, b.head)] + RenderDeltas(b, index)
  }

  /** Blocks 0, 1, 2, ...: each one its start, its deltas, its stop. */
  function RenderAll(blocks: seq<Block>): seq<Frame> {
    if blocks == [] then []
    else RenderAll(Front(blocks)) + RenderUnclosed(Last(blocks), |blocks| - 1) + [BlockStop(|blocks| - 1)]
  }

  /** The same with the last block still open. */
  function RenderOpen(blocks: seq<Block>): seq<Frame> {
    if blocks == [] then []
    else RenderAll(Front(blocks)) + RenderUnclosed(Last(blocks), |blocks| - 1)
  }

  // ---- The blocks a list of events asks for ----

  function HeadOf(e: StreamEvent): Option<Head> {
    if e.Text? then Some(TextHead) else if e.Reasoning? then Some(ThinkingHead) else None
  }

  function IncrementOf(e: StreamEvent): string
    requires HeadOf(e).Some?
  {
    if e.Text? then e.text else e.reasoning
  }

  /** Runs of text and of reasoning increments; other events do not end a run. */
  function TextBlocks(es: seq<StreamEvent>): seq<Block> {
    if es == [] then []
    else AddIncrement(TextBlocks(Front(es)), Last(es))
  }

  function AddIncrement(blocks: seq<Block>, e: StreamEvent): seq<Block> {
    if HeadOf(e).None? then blocks
    else if blocks != [] && Last(blocks).head == HeadOf(e).value then
      Front(blocks) + [Block(Last(blocks).head, Last(blocks).deltas + [IncrementOf(e)])]
    else blocks + [Block(HeadOf(e).value, [IncrementOf(e)])]
  }

  /** The block of one finished tool call: all its arguments in at most one increment. */
  ghost predicate IsToolBlock(b: Block, t: int, es: seq<StreamEvent>) {
    && b.head.ToolHead? && b.head.name == ToolName(es, t)
    && (if ToolId(es, t) != "" then b.head.id == ToolId(es, t) else "toolu_" <= b.head.id)
    && b.deltas == (if ToolArguments(es, t) == "" then [] else [ToolArguments(es, t)])
  }

  ghost predicate AreToolBlocks(blocks: seq<Block>, es: seq<StreamEvent>) {
    && |blocks| == |ToolIndexes(es)|
    && forall k :: 0 <= k < |blocks| ==> IsToolBlock(blocks[k], ToolIndexes(es)[k], es)
  }

  // ---- Stop reasons and usage ----

  function MapStopReason(finish: string, hasToolCalls: bool): string {
    if hasToolCalls || finish == "tool_calls" then "tool_use"
    else if finish == "length" then "max_tokens"
    else if finish == "stop" || finish == "" then "end_turn"
    else finish
  }

  /** The stop reason, case by case. */
  lemma {:induction false} StopReasonIs(finish: string, hasToolCalls: bool)
    ensures hasToolCalls ==> MapStopReason(finish, hasToolCalls) == "tool_use"
    ensures MapStopReason("tool_calls", hasToolCalls) == "tool_use"
    ensures MapStopReason("length", false) == "max_tokens"
    ensures MapStopReason("stop", false) == "end_turn" && MapStopReason("", false) == "end_turn"
    ensures !hasToolCalls && finish !in {"tool_calls", "length", "stop", ""} ==> MapStopReason(finish, false) == finish
  {
  }

  lemma {:induction false} OutputTokensAre(prompt: int, completion: int, total: int)
    ensures OutputTokens(Some(Usage(prompt, completion, total))) == completion && OutputTokens(None) == 0
  {
  }

  function OutputTokens(usage: Option<Usage>): int {
    if usage.Some? then usage.value.completionTokens else 0
  }

  /** The whole stream of an error-free completion. */
  function CompleteStream(start: Frame, es: seq<StreamEvent>, tools: seq<Block>): seq<Frame> {
    [start] + RenderAll(TextBlocks(es) + tools)
    + [MessageDelta(MapStopReason(LastFinish(es, "stop"), ToolIndexes(es) != []), OutputTokens(LastUsage(es))),
       MessageStop]
  }

  /** The stream of a completion that failed after the events es. */
  function FailedStream(start: Frame, es: seq<StreamEvent>, message: string): seq<Frame> {
    [start] + RenderOpen(TextBlocks(es)) + [ErrorFrame("Stream error: " + message)]
  }

  // ---- The streaming handler ----

  datatype ToolAcc = ToolAcc(id: string, name: string, arguments: string)

  ghost predicate ToolsAccounted(acc: map<int, ToolAcc>, order: seq<int>, es: seq<StreamEvent>) {
    && order == ToolIndexes(es)
    && (forall t :: t in acc <==> t in order)
    && forall t :: t in acc ==> ToolAccounted(acc[t], t, es)
  }

  ghost predicate ToolAccounted(a: ToolAcc, t: int, es: seq<StreamEvent>) {
    && a.name == ToolName(es, t) && a.arguments == ToolArguments(es, t)
    && (if ToolId(es, t) != "" then a.id == ToolId(es, t) else "toolu_" <= a.id)
  }

  function ToolBlock(acc: ToolAcc): Block {
    Block(ToolHead(acc.id, acc.name), if acc.arguments == "" then [] else [acc.arguments])
  }

  /** The blocks of the accumulated calls, in order. */
  function ToolBlocks(acc: map<int, ToolAcc>, order: seq<int>): seq<Block> {
    if order == [] then []
    else ToolBlocks(acc, Front(order)) + if Last(order) in acc then [ToolBlock(acc[Last(order)])] else []
  }

  class Stream {
    const uuids: nat -> string
    ghost const start: Frame
    var drawn: nat
    var frames: seq<Frame>
    var blockOpen: bool
    var blockIndex: int
    var blockType: Option<Head>     // the kind of the newest block
    var toolAcc: map<int, ToolAcc>
    var toolOrder: seq<int>
    var hasEmittedToolCalls: bool
    var finishReason: string
    var usage: Option<Usage>
    ghost var heard: seq<StreamEvent>
    ghost var blocks: seq<Block>    // the blocks sent so far

    /** The frames are exactly the blocks sent, the newest one open or closed. */
    ghost predicate Wire()
      reads this
    {
      && frames == [start] + (if blockOpen then RenderOpen(blocks) else RenderAll(blocks))
      && blockIndex == |blocks| - 1
      && (blockOpen ==> blocks != [] && blockType == Some(Last(blocks).head))
    }

    ghost predicate Valid()
      reads this
    {
      && Wire() && blocks == TextBlocks(heard) && (blocks != [] ==> blockOpen)
      && ToolsAccounted(toolAcc, toolOrder, heard) && !hasEmittedToolCalls
      && finishReason == LastFinish(heard, "stop") && usage == LastUsage(heard)
    }

    constructor (model: string, uuids: nat -> string)
      ensures Valid() && heard == [] && start == MessageStart("msg_" + uuids(0), model)
    {
      this.uuids := uuids;
      var first := MessageStart("msg_" + uuids(0), model);
      start := first;
      drawn := 1;
      frames := [first];
      blockOpen, blockIndex, blockType := false, -1, None;
      toolAcc, toolOrder, hasEmittedToolCalls := map[], [], false;
      finishReason, usage := "stop", None;
      heard, blocks := [], [];
    }

    method CloseBlock()
      requires Wire()
      modifies `frames, `blockOpen
      ensures Wire() && !blockOpen
    {
      if blockOpen {
        frames := frames + [BlockStop(blockIndex)];
        blockOpen := false;
        ClosedRender(start, blocks);
      }
    }

    method OpenBlock(head: Head)
      requires Wire() && !blockOpen
      modifies `frames, `blockOpen, `blockIndex, `blockType, `blocks
      ensures Wire() && blockOpen && blocks == old(blocks) + [Block(head, [])]
    {
      OpenedRender(start, blocks, head);
      blockIndex := blockIndex + 1;
      frames := frames + [BlockStart(blockIndex, head)];
      blockOpen, blockType := true, Some(head);
      blocks := blocks + [Block(head, [])];
    }

    /** Sends one increment of the open block. */
    method SendDelta(text: string)
      requires Wire() && blockOpen
      modifies `frames, `blocks
      ensures Wire() && blocks == Extended(old(blocks), text)
    {
      GrownRender(start, blocks, text);
      frames := frames + [BlockDelta(blockIndex, DeltaOf(blockType.value, text))];
      var b := Last(blocks);
      blocks := Front(blocks) + [Block(b.head, b.deltas + [text])];
    }

    /** Keeps the open block if it has the right type; else closes it and opens one that has. */
    method PrepareBlock(head: Head)
      requires Wire() && (blocks != [] ==> blockOpen)
      modifies `frames, `blockOpen, `blockIndex, `blockType, `blocks
      ensures Wire() && blockOpen && blocks == Prepared(old(blocks), head)
    {
      hide RenderAll, RenderOpen;
      if !blockOpen || blockType != Some(head) {
        CloseBlock();
        OpenBlock(head);
      }
    }

    /** Text and reasoning increments: the open block is kept while it has the right type. */
    method OnIncrement(e: StreamEvent)
      requires Valid() && HeadOf(e).Some?
      modifies this
      ensures Valid() && heard == old(heard) + [e]
    {
      hide RenderAll, RenderOpen, TextBlocks, AddIncrement, Prepared, Extended, HeadOf, IncrementOf, LastFinish,
           LastUsage, ToolsAccounted;
      OtherEvent(toolAcc, toolOrder, heard, e);
      IncrementGoes(blocks, e);
      PrepareBlock(HeadOf(e).value);
      SendDelta(IncrementOf(e));
      heard := heard + [e];
    }

    method OnToolCall(tc: ToolCallDelta)
      requires Valid()
      modifies `toolAcc, `toolOrder, `drawn, `heard
      ensures Valid() && heard == old(heard) + [ToolCall(tc)]
    {
      hide RenderAll, RenderOpen, TextBlocks, LastFinish, LastUsage, ToolsAccounted;
      OtherEvent(toolAcc, toolOrder, heard, ToolCall(tc));
      TracksOrder(toolAcc, toolOrder, heard);
      ghost var was, order := toolAcc, toolOrder;
      TrackTool(tc);
      var acc := toolAcc[tc.index];
      ToolDelta(was, order, heard, tc, acc);
      toolAcc := toolAcc[tc.index := Merge(acc, tc)];
      assert toolAcc == was[tc.index := Merge(acc, tc)];
      heard := heard + [ToolCall(tc)];
    }

    /** Makes sure there is an accumulator for the delta's index. */
    method TrackTool(tc: ToolCallDelta)
      modifies `toolAcc, `toolOrder, `drawn
      ensures tc.index in toolAcc && toolAcc == old(toolAcc)[tc.index := toolAcc[tc.index]]
      ensures if tc.index in old(toolAcc) then toolAcc == old(toolAcc) && toolOrder == old(toolOrder)
              else IsFirst(toolAcc[tc.index], tc) && toolOrder == old(toolOrder) + [tc.index]
    {
      if tc.index !in toolAcc {
        var id := tc.id;
        if id == "" {
          id := "toolu_" + uuids(drawn);
          drawn := drawn + 1;
        }
        toolAcc := toolAcc[tc.index := ToolAcc(id, tc.name, "")];
        toolOrder := toolOrder + [tc.index];
      }
    }

    /** The callback given to the upstream call. */
    method OnEvent(e: StreamEvent) returns (err: Option<string>)
      requires Valid()
      modifies this
      ensures Valid() && err == (if Aborts(e) then e.err else None)
      ensures heard == if Aborts(e) then old(heard) else old(heard) + [e]
    {
      hide RenderAll, RenderOpen, TextBlocks, LastFinish, LastUsage, ToolsAccounted;
      err := None;
      match e {
        case Reasoning(_) => OnIncrement(e);
        case Text(_) => OnIncrement(e);
        case ToolCall(tc) => OnToolCall(tc);
        case Error(Some(message)) => err := Some(message);
        case Finish(reason) =>
          OtherEvent(toolAcc, toolOrder, heard, e);
          finishReason := reason;
          heard := heard + [e];
        case UsageReport(report) =>
          OtherEvent(toolAcc, toolOrder, heard, e);
          usage := report;
          heard := heard + [e];
        case _ =>
          OtherEvent(toolAcc, toolOrder, heard, e);
          heard := heard + [e];
      }
    }

    /** Sends one finished tool call as a block of its own. */
    method SendTool(acc: ToolAcc)
      requires Wire() && !blockOpen
      modifies `frames, `blockOpen, `blockIndex, `blockType, `blocks
      ensures Wire() && !blockOpen
      ensures blocks == old(blocks) + [ToolBlock(acc)]
    {
      hide RenderAll, RenderOpen;
      var head := ToolHead(acc.id, acc.name);
      OpenBlock(head);
      SnocParts(old(blocks), Block(head, []));
      if acc.arguments != "" {
        SendDelta(acc.arguments);
        assert [] + [acc.arguments] == [acc.arguments];
      }
      CloseBlock();
    }

    /** Sends every accumulated tool call in order, then forgets them. */
    method FlushToolCalls()
      requires Valid()
      modifies `frames, `blockOpen, `blockIndex, `blockType, `blocks, `toolAcc, `toolOrder, `hasEmittedToolCalls
      ensures Wire() && !blockOpen && old(blocks) <= blocks
      ensures AreToolBlocks(blocks[|old(blocks)|..], heard)
      ensures hasEmittedToolCalls == (ToolIndexes(heard) != []) && toolOrder == []
    {
      hide RenderAll, RenderOpen, TextBlocks, ToolsAccounted, AreToolBlocks, LastFinish, LastUsage,
           ToolBlocks, ToolIndexes, Stream.Valid;
      FlushStart();
      ghost var before := blocks;
      CloseBlock();
      for i := 0 to |toolOrder|
        invariant Wire() && !blockOpen && blocks == before + ToolBlocks(toolAcc, toolOrder[..i])
        modifies `frames, `blockOpen, `blockIndex, `blockType, `blocks
      {
        ToolBlocksSnoc(toolAcc, toolOrder, i);
        if toolOrder[i] in toolAcc {
          SendTool(toolAcc[toolOrder[i]]);
        }
      }
      assert toolOrder[..|toolOrder|] == toolOrder;
      if |toolOrder| > 0 {
        hasEmittedToolCalls := true;
      }
      toolOrder, toolAcc := [], map[];
    }

    lemma {:induction false} FlushStart()
      requires Valid()
      ensures Wire() && !hasEmittedToolCalls && toolOrder == ToolIndexes(heard)
      ensures AreToolBlocks(ToolBlocks(toolAcc, toolOrder), heard)
      ensures blocks + ToolBlocks(toolAcc, toolOrder[..0]) == blocks
    {
      hide TextBlocks, ToolIndexes, AreToolBlocks, RenderAll, RenderOpen, ToolsAccounted;
      ToolBlocksRight(toolAcc, toolOrder, heard);
      assert ToolBlocks(toolAcc, []) == [];
    }

    /** With one error frame after it, what was sent is the failed stream. */
    lemma {:induction false} FailedFrames(message: string)
      requires Valid()
      ensures frames + [ErrorFrame("Stream error: " + message)] == FailedStream(start, heard, message)
    {
      hide RenderAll, RenderOpen, TextBlocks, LastFinish, LastUsage, ToolsAccounted;
      NothingRendered();
    }

    /** The end of an error-free stream. */
    method Complete() returns (ghost tools: seq<Block>)
      requires Valid()
      modifies this
      ensures AreToolBlocks(tools, heard) && heard == old(heard)
      ensures frames == CompleteStream(start, heard, tools)
    {
      hide RenderAll, RenderOpen, TextBlocks, AreToolBlocks, MapStopReason, ToolIndexes, LastFinish, LastUsage;
      ghost var texts := blocks;
      FlushToolCalls();
      CloseBlock();
      tools := blocks[|texts|..];
      assert blocks == texts + tools;
      frames := frames + [MessageDelta(MapStopReason(finishReason, hasEmittedToolCalls || |toolOrder| > 0),
                                       OutputTokens(usage))];
      frames := frames + [MessageStop];
    }
  }

  /** The whole streaming handler. */
  method HandleStreaming(es: seq<StreamEvent>, transport: Option<string>, model: string, uuids: nat -> string)
    returns (frames: seq<Frame>)
    ensures Fault(es, transport).None? ==>
              exists tools :: AreToolBlocks(tools, es)
                              && frames == CompleteStream(MessageStart("msg_" + uuids(0), model), es, tools)
    ensures Fault(es, transport).Some? ==>
              frames == FailedStream(MessageStart("msg_" + uuids(0), model), Heard(es), Fault(es, transport).value)
  {
    hide Heard, Stream.Valid, CompleteStream, FailedStream, AreToolBlocks;
    var s := new Stream(model, uuids);
    assert es[..0] == [];
    for i := 0 to |es|
      invariant fresh(s) && s.Valid() && s.start == MessageStart("msg_" + uuids(0), model)
      invariant forall k :: 0 <= k < i ==> !Aborts(es[k])
      invariant s.heard == es[..i]
    {
      HeardSoFar(es, i);
      var err := s.OnEvent(es[i]);
      if err.Some? {
        s.FailedFrames(err.value);
        return s.frames + [ErrorFrame("Stream error: " + err.value)];
      }
    }
    assert Heard(es) == es && es[..|es|] == es;
    if transport.Some? {
      s.FailedFrames(transport.value);
      return s.frames + [ErrorFrame("Stream error: " + transport.value)];
    }
    ghost var tools := s.Complete();
    frames := s.frames;
    assert AreToolBlocks(tools, es);
  }

  // ---- Rendering one step further ----

  lemma {:induction false} NothingRendered()
    ensures RenderAll([]) == RenderOpen([]) == []
  {
  }

  function Prepared(blocks: seq<Block>, head: Head): (r: seq<Block>)
    ensures r != []
  {
    if blocks != [] && Last(blocks).head == head then blocks else blocks + [Block(head, [])]
  }

  function Extended(blocks: seq<Block>, text: string): (r: seq<Block>)
    requires blocks != []
    ensures r != []
  {
    Front(blocks) + [Block(Last(blocks).head, Last(blocks).deltas + [text])]
  }

  /** An increment extends the newest block of its type, or a new one. */
  lemma {:induction false} IncrementGoes(blocks: seq<Block>, e: StreamEvent)
    requires HeadOf(e).Some?
    ensures !e.ToolCall? && !e.Finish? && !e.UsageReport?
    ensures AddIncrement(blocks, e) == Extended(Prepared(blocks, HeadOf(e).value), IncrementOf(e))
  {
    SnocParts(blocks, Block(HeadOf(e).value, []));
    assert [] + [IncrementOf(e)] == [IncrementOf(e)];
  }

  lemma {:induction false} ClosedRender(start: Frame, blocks: seq<Block>)
    requires blocks != []
    ensures ([start] + RenderOpen(blocks)) + [BlockStop(|blocks| - 1)] == [start] + RenderAll(blocks)
  {
  }

  lemma {:induction false} OpenedRender(start: Frame, blocks: seq<Block>, head: Head)
    ensures ([start] + RenderAll(blocks)) + [BlockStart(|blocks|, head)]
            == [start] + RenderOpen(blocks + [Block(head, [])])
    ensures Last(blocks + [Block(head, [])]).head == head
  {
    SnocParts(blocks, Block(head, []));
  }

  lemma {:induction false} GrownRender(start: Frame, blocks: seq<Block>, text: string)
    requires blocks != []
    ensures var b := Last(blocks); var grown := Front(blocks) + [Block(b.head, b.deltas + [text])];
            && ([start] + RenderOpen(blocks)) + [BlockDelta(|blocks| - 1, DeltaOf(b.head, text))]
               == [start] + RenderOpen(grown)
            && |grown| == |blocks| && Last(grown).head == b.head
  {
    hide RenderAll;
    var b := Last(blocks);
    SnocParts(Front(blocks), Block(b.head, b.deltas + [text]));
    SnocParts(b.deltas, text);
    assert RenderDeltas(Block(b.head, b.deltas + [text]), |blocks| - 1)
        == RenderDeltas(b, |blocks| - 1) + [BlockDelta(|blocks| - 1, DeltaOf(b.head, text))];
  }

  // ---- Events ----

  function Merge(acc: ToolAcc, tc: ToolCallDelta): ToolAcc {
    var merged := MergeDelta(ToolCallAcc(acc.id, "function", acc.name, acc.arguments), tc);
    ToolAcc(merged.id, merged.name, merged.args)
  }

  /** The accumulator made for the first delta of an index. */
  predicate IsFirst(a: ToolAcc, tc: ToolCallDelta) {
    a.name == tc.name && a.arguments == "" && (if tc.id != "" then a.id == tc.id else "toolu_" <= a.id)
  }

  lemma {:induction false} TracksOrder(acc: map<int, ToolAcc>, order: seq<int>, es: seq<StreamEvent>)
    requires ToolsAccounted(acc, order, es)
    ensures order == ToolIndexes(es) && forall t :: t in acc <==> t in order
  {
  }

  lemma {:induction false} ToolBlocksSnoc(acc: map<int, ToolAcc>, order: seq<int>, i: nat)
    requires i < |order|
    ensures ToolBlocks(acc, order[..i + 1])
            == ToolBlocks(acc, order[..i]) + if order[i] in acc then [ToolBlock(acc[order[i]])] else []
  {
    assert order[..i + 1] == order[..i] + [order[i]];
    SnocParts(order[..i], order[i]);
  }

  lemma {:induction false} ToolBlocksAt(acc: map<int, ToolAcc>, order: seq<int>)
    requires forall t :: t in order ==> t in acc
    ensures |ToolBlocks(acc, order)| == |order|
    ensures forall k :: 0 <= k < |order| && order[k] in acc ==> ToolBlocks(acc, order)[k] == ToolBlock(acc[order[k]])
  {
    if order != [] {
      assert forall t :: t in Front(order) ==> t in order;
      var t := order[|order| - 1];
      assert t in order;
      assert t in acc;
      ToolBlocksAt(acc, Front(order));
      assert ToolBlocks(acc, order) == ToolBlocks(acc, Front(order)) + [ToolBlock(acc[Last(order)])];
    }
  }

  lemma {:induction false} ToolBlocksRight(acc: map<int, ToolAcc>, order: seq<int>, es: seq<StreamEvent>)
    requires ToolsAccounted(acc, order, es)
    ensures order == ToolIndexes(es) && AreToolBlocks(ToolBlocks(acc, order), es)
  {
    hide ToolIndexes, ToolName, ToolArguments, ToolId, ToolBlocks;
    ToolBlocksAt(acc, order);
    forall k | 0 <= k < |order| ensures IsToolBlock(ToolBlocks(acc, order)[k], order[k], es) {
      assert order[k] in order;
      assert ToolAccounted(acc[order[k]], order[k], es);
    }
  }

  /** What one event does to the blocks, the ending and, unless it is a tool delta, the tools. */
  lemma {:induction false} OtherEvent(acc: map<int, ToolAcc>, order: seq<int>, es: seq<StreamEvent>, e: StreamEvent)
    requires ToolsAccounted(acc, order, es)
    ensures !e.ToolCall? ==> ToolsAccounted(acc, order, es + [e])
    ensures TextBlocks(es + [e]) == AddIncrement(TextBlocks(es), e)
    ensures LastFinish(es + [e], "stop") == if e.Finish? then e.reason else LastFinish(es, "stop")
    ensures LastUsage(es + [e]) == if e.UsageReport? then e.usage else LastUsage(es)
  {
    hide LastFinish, LastUsage, ToolIndexes, ToolName, ToolArguments, ToolId;
    SnocParts(es, e);
    EndSnoc(es, e, "stop");
    OrderSnoc(es, e);
    if !e.ToolCall? {
      forall t | t in acc ensures ToolAccounted(acc[t], t, es + [e]) {
        assert ToolAccounted(acc[t], t, es);
        ToolSnoc(es, e, t);
        assert ToolArguments(es, t) + "" == ToolArguments(es, t);
      }
    }
  }

  lemma {:induction false} ToolDelta(acc: map<int, ToolAcc>, order: seq<int>, es: seq<StreamEvent>,
                                     tc: ToolCallDelta, a: ToolAcc)
    requires ToolsAccounted(acc, order, es)
    requires if tc.index in acc then a == acc[tc.index] else IsFirst(a, tc)
    ensures ToolsAccounted(acc[tc.index := Merge(a, tc)],
                           if tc.index in acc then order else order + [tc.index], es + [ToolCall(tc)])
  {
    hide ToolIndexes, ToolName, ToolArguments, ToolId;
    var e := ToolCall(tc);
    OrderSnoc(es, e);
    if tc.index !in acc {
      UnseenTool(es, tc.index);
    }
    var acc' := acc[tc.index := Merge(a, tc)];
    forall t | t in acc' ensures ToolAccounted(acc'[t], t, es + [e]) {
      ToolSnoc(es, e, t);
      if t != tc.index {
        assert ToolAccounted(acc[t], t, es);
        assert ToolArguments(es, t) + "" == ToolArguments(es, t);
      } else if tc.index in acc {
        assert ToolAccounted(acc[t], t, es);
      }
    }
  }

  // ---- A strict client ----

  datatype Phase = Waiting | InMessage | Stopping | Ended | Errored

  datatype Reading = Reading(phase: Phase, blocks: seq<Block>, open: bool, stopReason: string, outputTokens: int)

  /** Text increments belong in text blocks, thinking in thinking blocks, partial JSON in tool blocks. */
  predicate FitsBlock(head: Head, delta: Delta) {
    (head == TextHead && delta.TextDelta?) || (head == ThinkingHead && delta.ThinkingDelta?)
    || (head.ToolHead? && delta.JsonDelta?)
  }

  /** One more frame, or None if the protocol does not allow it here. */
  function Receive(r: Reading, f: Frame): Option<Reading> {
    match f
    case MessageStart(_, _) => if r.phase.Waiting? then Some(r.(phase := InMessage)) else None
    case BlockStart(index, head) =>
      if r.phase.InMessage? && !r.open && index == |r.blocks|
      then Some(r.(blocks := r.blocks + [Block(head, [])], open := true)) else None
    case BlockDelta(index, delta) =>
      if r.phase.InMessage? && r.open && r.blocks != [] && index == |r.blocks| - 1
         && FitsBlock(Last(r.blocks).head, delta)
      then Some(r.(blocks := Extended(r.blocks, delta.text))) else None
    case BlockStop(index) =>
      if r.phase.InMessage? && r.open && index == |r.blocks| - 1 then Some(r.(open := false)) else None
    case MessageDelta(reason, tokens) =>
      if r.phase.InMessage? && !r.open
      then Some(r.(phase := Stopping, stopReason := reason, outputTokens := tokens)) else None
    case MessageStop => if r.phase.Stopping? then Some(r.(phase := Ended)) else None
    case ErrorFrame(_) => if r.phase.InMessage? then Some(r.(phase := Errored)) else None
  }

  function ReceiveAll(frames: seq<Frame>): Option<Reading> {
    if frames == [] then Some(Reading(Waiting, [], false, "", 0))
    else
      match ReceiveAll(Front(frames))
      case None => None
      case Some(r) => Receive(r, Last(frames))
  }

  function Midway(blocks: seq<Block>, open: bool): Reading {
    Reading(InMessage, blocks, open, "", 0)
  }

  lemma {:induction false} ReceiveSnoc(frames: seq<Frame>, r: Reading, f: Frame)
    requires ReceiveAll(frames) == Some(r)
    ensures ReceiveAll(frames + [f]) == Receive(r, f)
  {
    SnocParts(frames, f);
  }

  lemma {:induction false} ReceiveDeltas(frames: seq<Frame>, blocks: seq<Block>, b: Block)
    requires ReceiveAll(frames) == Some(Midway(blocks + [Block(b.head, [])], true))
    ensures ReceiveAll(frames + RenderDeltas(b, |blocks|)) == Some(Midway(blocks + [b], true))
    decreases |b.deltas|
  {
    hide Receive, ReceiveAll, DeltaOf;
    if b.deltas == [] {
      assert frames + [] == frames;
      assert Block(b.head, []) == b;
    } else {
      var c, text := Block(b.head, Front(b.deltas)), Last(b.deltas);
      var before := RenderDeltas(c, |blocks|);
      ReceiveDeltas(frames, blocks, c);
      var f := BlockDelta(|blocks|, DeltaOf(b.head, text));
      ReceiveSnoc(frames + before, Midway(blocks + [c], true), f);
      ReceiveDelta(blocks, c, text);
      assert Front(b.deltas) + [text] == b.deltas;
      assert frames + (before + [f]) == (frames + before) + [f];
    }
  }

  lemma {:induction false} ReceiveDelta(blocks: seq<Block>, c: Block, text: string)
    ensures Receive(Midway(blocks + [c], true), BlockDelta(|blocks|, DeltaOf(c.head, text)))
            == Some(Midway(blocks + [Block(c.head, c.deltas + [text])], true))
  {
    SnocParts(blocks, c);
  }

  /** The client accepts a rendering and reads off the very blocks that were rendered. */
  lemma {:induction false} ReceiveRendered(start: Frame, blocks: seq<Block>)
    requires start.MessageStart?
    ensures ReceiveAll([start] + RenderAll(blocks)) == Some(Midway(blocks, false))
    ensures blocks != [] ==> ReceiveAll([start] + RenderOpen(blocks)) == Some(Midway(blocks, true))
  {
    hide Receive, ReceiveAll, DeltaOf, RenderAll, RenderOpen, RenderDeltas;
    ReceiveStart(start);
    if blocks == [] {
      NothingRendered();
      assert [start] + [] == [start];
    } else {
      var before, b, n := Front(blocks), Last(blocks), |blocks| - 1;
      ReceiveRendered(start, before);
      var begun := [start] + RenderAll(before) + [BlockStart(n, b.head)];
      ReceiveSnoc([start] + RenderAll(before), Midway(before, false), BlockStart(n, b.head));
      ReceiveStartStop(before, b);
      ReceiveDeltas(begun, before, b);
      RenderLast(start, blocks);
      ReceiveSnoc([start] + RenderOpen(blocks), Midway(blocks, true), BlockStop(n));
    }
  }

  lemma {:induction false} RenderLast(start: Frame, blocks: seq<Block>)
    requires blocks != []
    ensures var before, b, n := Front(blocks), Last(blocks), |blocks| - 1;
            && before + [b] == blocks
            && [start] + RenderOpen(blocks)
               == [start] + RenderAll(before) + [BlockStart(n, b.head)] + RenderDeltas(b, n)
            && [start] + RenderAll(blocks) == [start] + RenderOpen(blocks) + [BlockStop(n)]
  {
    hide RenderAll, RenderOpen, RenderDeltas;
    var before, b, n := Front(blocks), Last(blocks), |blocks| - 1;
    RenderUnfolds(blocks);
    Assoc([start], RenderAll(before), [BlockStart(n, b.head)] + RenderDeltas(b, n));
    Assoc([start] + RenderAll(before), [BlockStart(n, b.head)], RenderDeltas(b, n));
    Assoc([start], RenderOpen(blocks), [BlockStop(n)]);
  }

  lemma {:induction false} RenderUnfolds(blocks: seq<Block>)
    requires blocks != []
    ensures var b, n := Last(blocks), |blocks| - 1;
            && RenderOpen(blocks) == RenderAll(Front(blocks)) + ([BlockStart(n, b.head)] + RenderDeltas(b, n))
            && RenderAll(blocks) == RenderOpen(blocks) + [BlockStop(n)]
  {
    hide RenderDeltas;
  }

  lemma {:induction false} ReceiveStart(start: Frame)
    requires start.MessageStart?
    ensures ReceiveAll([start]) == Some(Midway([], false))
  {
    ReceiveSnoc([], Reading(Waiting, [], false, "", 0), start);
    assert [] + [start] == [start];
  }

  lemma {:induction false} ReceiveStartStop(before: seq<Block>, b: Block)
    ensures Receive(Midway(before, false), BlockStart(|before|, b.head))
            == Some(Midway(before + [Block(b.head, [])], true))
    ensures Receive(Midway(before + [b], true), BlockStop(|before|)) == Some(Midway(before + [b], false))
  {
  }

  /** Conversely, whatever the client accepts inside a message is the rendering of the blocks it read:
      the grammar of the stream is exactly the renderings. */
  lemma {:induction false} AcceptedIsRendered(frames: seq<Frame>)
    requires ReceiveAll(frames).Some? && ReceiveAll(frames).value.phase.InMessage?
    ensures frames != [] && frames[0].MessageStart?
    ensures IsRendered(frames, ReceiveAll(frames).value)
    decreases |frames|
  {
    hide ReceiveAll, Receive, IsRendered;
    ReceiveLast(frames);
    var before, f := Front(frames), Last(frames);
    var r := ReceiveAll(before).value;
    WaitingIsEmpty(before);
    if r.phase.Waiting? {
      OnlyStartRendered(f, r);
      assert frames == [f];
    } else {
      InMessageBefore(r, f);
      AcceptedIsRendered(before);
      assert frames == before + [f];
      RenderedStep(before, r, f);
    }
  }

  /** The frames are a message start and the rendering of what was read after it. */
  predicate IsRendered(frames: seq<Frame>, r: Reading) {
    && frames != [] && r == Midway(r.blocks, r.open) && (r.open ==> r.blocks != [])
    && frames == [frames[0]] + (if r.open then RenderOpen(r.blocks) else RenderAll(r.blocks))
  }

  lemma {:induction false} ReceiveLast(frames: seq<Frame>)
    requires ReceiveAll(frames).Some? && !ReceiveAll(frames).value.phase.Waiting?
    ensures frames != [] && ReceiveAll(Front(frames)).Some?
    ensures ReceiveAll(frames) == Receive(ReceiveAll(Front(frames)).value, Last(frames))
  {
    hide Receive;
  }

  lemma {:induction false} OnlyStartRendered(f: Frame, r: Reading)
    requires r == Reading(Waiting, [], false, "", 0) && Receive(r, f).Some?
    ensures f.MessageStart? && IsRendered([f], Receive(r, f).value)
  {
    NothingRendered();
  }

  lemma {:induction false} InMessageBefore(r: Reading, f: Frame)
    requires Receive(r, f).Some? && Receive(r, f).value.phase.InMessage? && !r.phase.Waiting?
    ensures r.phase.InMessage?
  {
  }

  lemma {:induction false} RenderedStep(before: seq<Frame>, r: Reading, f: Frame)
    requires IsRendered(before, r) && Receive(r, f).Some? && Receive(r, f).value.phase.InMessage?
    ensures IsRendered(before + [f], Receive(r, f).value)
  {
    hide RenderAll, RenderOpen;
    match f {
      case BlockStart(_, head) => OpenedRender(before[0], r.blocks, head);
      case BlockDelta(_, delta) => GrownRender(before[0], r.blocks, delta.text);
      case BlockStop(_) => ClosedRender(before[0], r.blocks);
      case _ =>
    }
  }

  lemma {:induction false} WaitingIsEmpty(frames: seq<Frame>)
    requires ReceiveAll(frames).Some?
    ensures var r := ReceiveAll(frames).value;
            r.phase.Waiting? ==> frames == [] && r == Reading(Waiting, [], false, "", 0)
  {
    if frames != [] {
      WaitingIsEmpty(Front(frames));
    }
  }

  /** An error-free stream is accepted to the end and read back as its text blocks and its tool blocks. */
  lemma {:induction false} CompleteStreamAccepted(start: Frame, es: seq<StreamEvent>, tools: seq<Block>)
    requires start.MessageStart?
    ensures ReceiveAll(CompleteStream(start, es, tools))
            == Some(Reading(Ended, TextBlocks(es) + tools, false,
                            MapStopReason(LastFinish(es, "stop"), ToolIndexes(es) != []), OutputTokens(LastUsage(es))))
  {
    hide RenderAll, TextBlocks, MapStopReason, LastFinish, LastUsage, ToolIndexes, OutputTokens;
    var blocks := TextBlocks(es) + tools;
    var body := [start] + RenderAll(blocks);
    var reason := MapStopReason(LastFinish(es, "stop"), ToolIndexes(es) != []);
    var ending := MessageDelta(reason, OutputTokens(LastUsage(es)));
    ReceiveRendered(start, blocks);
    ReceiveSnoc(body, Midway(blocks, false), ending);
    ReceiveSnoc(body + [ending], Receive(Midway(blocks, false), ending).value, MessageStop);
    assert CompleteStream(start, es, tools) == body + [ending] + [MessageStop];
  }

  /** A failed stream is accepted too: the beginning of a complete one, then one error frame. */
  lemma {:induction false} FailedStreamAccepted(start: Frame, es: seq<StreamEvent>, message: string,
                                                tools: seq<Block>)
    requires start.MessageStart?
    ensures var sent := [start] + RenderOpen(TextBlocks(es));
            && FailedStream(start, es, message) == sent + [ErrorFrame("Stream error: " + message)]
            && sent <= CompleteStream(start, es, tools)
    ensures ReceiveAll(FailedStream(start, es, message)).Some?
    ensures ReceiveAll(FailedStream(start, es, message)).value.blocks == TextBlocks(es)
  {
    hide TextBlocks, MapStopReason, LastFinish, LastUsage, ToolIndexes, OutputTokens, RenderAll, RenderOpen;
    var blocks := TextBlocks(es);
    var error := ErrorFrame("Stream error: " + message);
    NothingRendered();
    ReceiveRendered(start, blocks);
    ReceiveSnoc([start] + RenderOpen(blocks), Midway(blocks, blocks != []), error);
    OpenIsPrefix(blocks, tools);
    assert [start] + RenderOpen(blocks) <= [start] + RenderAll(blocks + tools);
  }

  lemma {:induction false} OpenIsPrefix(blocks: seq<Block>, more: seq<Block>)
    ensures RenderOpen(blocks) <= RenderAll(blocks) <= RenderAll(blocks + more)
    decreases |more|
  {
    if more == [] {
      assert blocks + more == blocks;
    } else {
      OpenIsPrefix(blocks, Front(more));
      assert Front(blocks + more) == blocks + Front(more);
    }
  }

  // ---- The non-streaming handler ----

  datatype Content =
    | ThinkingContent(text: string)
    | TextContent(text: string)
    | ToolUse(id: string, name: string, input: string)

  datatype Message = Message(id: string, model: string, content: seq<Content>, stopReason: string,
                             inputTokens: int, outputTokens: int)

  /** A tool's input as sent: its arguments when they are valid JSON, an empty object otherwise. */
  function InputOf(args: string, jsonValid: string -> bool): string {
    if args == "" || !jsonValid(args) then "{}" else args
  }

  function TextContents(c: Collected): seq<Content> {
    (if c.reasoning != "" then [ThinkingContent(c.reasoning)] else [])
    + if c.content != "" then [TextContent(c.content)] else []
  }

  ghost predicate IsToolUse(content: Content, acc: ToolCallAcc, jsonValid: string -> bool) {
    content == ToolUse(acc.id, acc.name, InputOf(acc.args, jsonValid))
  }

  method HandleNonStreaming(es: seq<StreamEvent>, transport: Option<string>, model: string, uuids: nat -> string,
                            jsonValid: string -> bool)
    returns (res: Option<Message>, err: Option<string>)
    ensures err == Fault(es, transport) && res.Some? == err.None?
    ensures res.Some? ==> Answers(res.value, es, jsonValid)
    ensures res.Some? ==>
              && res.value.id == "msg_" + uuids(0) && res.value.model == model
              && res.value.inputTokens == (if LastUsage(es).Some? then LastUsage(es).value.promptTokens else 0)
  {
    hide MapStopReason, Heard, Accounts, Answers, TextContents, InputOf;
    var c;
    c, err := CollectEvents(es, transport);
    if err.Some? {
      return None, err;
    }
    assert Heard(es) == es;
    ToolsPresent(c, es);
    var content: seq<Content> := [];
    if c.reasoning != "" {
      content := content + [ThinkingContent(c.reasoning)];
    }
    if c.content != "" {
      content := content + [TextContent(c.content)];
    }
    assert content == TextContents(c) by { AppendedTexts(c); }
    ghost var texts := content;
    for i := 0 to |c.toolOrder|
      invariant |content| == |texts| + i && content[..|texts|] == texts
      invariant forall k :: 0 <= k < i ==>
                  IsToolUse(content[|texts| + k], c.toolCalls[c.toolOrder[k]], jsonValid)
    {
      var tc := c.toolCalls[c.toolOrder[i]];
      var input := tc.args;
      if input == "" || !jsonValid(input) {
        input := "{}";
      }
      assert input == InputOf(tc.args, jsonValid) by { InputOfCases(tc.args, jsonValid); }
      content := content + [ToolUse(tc.id, tc.name, input)];
    }
    var r := Message("msg_" + uuids(0), model, content, MapStopReason(c.finishReason, |c.toolOrder| > 0),
                     if c.usage.Some? then c.usage.value.promptTokens else 0, OutputTokens(c.usage));
    res := Some(r);
    Answered(r, c, es, jsonValid);
  }

  lemma {:induction false} ToolsPresent(c: Collected, es: seq<StreamEvent>)
    requires Accounts(c, es)
    ensures c.usage == LastUsage(es)
    ensures forall k :: 0 <= k < |c.toolOrder| ==> c.toolOrder[k] in c.toolCalls
  {
    hide AllText, AllReasoning, LastFinish, LastUsage, ToolIndexes, ToolId, ToolType, ToolName, ToolArguments;
    assert forall k :: 0 <= k < |c.toolOrder| ==> c.toolOrder[k] in c.toolOrder;
  }

  lemma {:induction false} AppendedTexts(c: Collected)
    ensures ([] + (if c.reasoning != "" then [ThinkingContent(c.reasoning)] else []))
            + (if c.content != "" then [TextContent(c.content)] else []) == TextContents(c)
    ensures forall s: seq<Content> :: s + [] == s && [] + s == s
  {
  }

  lemma {:induction false} InputOfCases(args: string, jsonValid: string -> bool)
    ensures InputOf(args, jsonValid) == if args == "" || !jsonValid(args) then "{}" else args
  {
  }

  /** The message says what the events said: thinking, text, then the tool calls in order. */
  ghost predicate Answers(res: Message, es: seq<StreamEvent>, jsonValid: string -> bool) {
    var texts := (if AllReasoning(es) != "" then [ThinkingContent(AllReasoning(es))] else [])
                 + (if AllText(es) != "" then [TextContent(AllText(es))] else []);
    && |res.content| == |texts| + |ToolIndexes(es)| && res.content[..|texts|] == texts
    && (forall k :: 0 <= k < |ToolIndexes(es)| ==>
          AnswersTool(res.content[|texts| + k], ToolIndexes(es)[k], es, jsonValid))
    && res.stopReason == MapStopReason(LastFinish(es, ""), ToolIndexes(es) != [])
    && res.outputTokens == OutputTokens(LastUsage(es))
  }

  ghost predicate AnswersTool(content: Content, t: int, es: seq<StreamEvent>, jsonValid: string -> bool) {
    content == ToolUse(ToolId(es, t), ToolName(es, t), InputOf(ToolArguments(es, t), jsonValid))
  }

  lemma {:induction false} Answered(res: Message, c: Collected, es: seq<StreamEvent>, jsonValid: string -> bool)
    requires Accounts(c, es)
    requires var texts := TextContents(c);
             && |res.content| == |texts| + |c.toolOrder| && res.content[..|texts|] == texts
             && forall k :: 0 <= k < |c.toolOrder| ==>
                  (c.toolOrder[k] in c.toolCalls
                   && IsToolUse(res.content[|texts| + k], c.toolCalls[c.toolOrder[k]], jsonValid))
    requires res.stopReason == MapStopReason(c.finishReason, |c.toolOrder| > 0)
    requires res.outputTokens == OutputTokens(c.usage)
    ensures Answers(res, es, jsonValid)
  {
    hide AllText, AllReasoning, LastFinish, LastUsage, ToolIndexes, ToolId, ToolType, ToolName, ToolArguments,
         MapStopReason, InputOf;
    var texts := TextContents(c);
    forall k | 0 <= k < |ToolIndexes(es)|
      ensures AnswersTool(res.content[|texts| + k], ToolIndexes(es)[k], es, jsonValid)
    {
      var t := c.toolOrder[k];
      assert t in c.toolCalls && IsToolUse(res.content[|texts| + k], c.toolCalls[c.toolOrder[k]], jsonValid);
    }
  }

  // ---- The two modes agree ----

  /** All increments of the blocks of one kind, joined. */
  function Joined(blocks: seq<Block>, head: Head): string {
    if blocks == [] then ""
    else Joined(Front(blocks), head) + if Last(blocks).head == head then JoinAll(Last(blocks).deltas) else ""
  }

  function JoinAll(deltas: seq<string>): string {
    if deltas == [] then "" else JoinAll(Front(deltas)) + Last(deltas)
  }

  lemma {:induction false} JoinedAdd(blocks: seq<Block>, e: StreamEvent, head: Head)
    requires HeadOf(e).Some?
    ensures Joined(AddIncrement(blocks, e), head)
            == if HeadOf(e).value == head then Joined(blocks, head) + IncrementOf(e) else Joined(blocks, head)
  {
    var kind, text := HeadOf(e).value, IncrementOf(e);
    if blocks != [] && Last(blocks).head == kind {
      var b := Last(blocks);
      SnocParts(Front(blocks), Block(b.head, b.deltas + [text]));
      SnocParts(b.deltas, text);
      Assoc(Joined(Front(blocks), head), JoinAll(b.deltas), text);
    } else {
      SnocParts(blocks, Block(kind, [text]));
      assert JoinAll([text]) == text by { assert Front([text]) == [] && "" + text == text; }
      assert Joined(blocks, head) + "" == Joined(blocks, head);
    }
  }

  /** The increments sent carry all the text and all the reasoning, in order. */
  lemma {:induction false} BlocksCarryText(es: seq<StreamEvent>)
    ensures Joined(TextBlocks(es), TextHead) == AllText(es)
    ensures Joined(TextBlocks(es), ThinkingHead) == AllReasoning(es)
  {
    hide Joined, AddIncrement, AllText, AllReasoning;
    if es == [] {
      NothingJoined();
    } else {
      var before, e := Front(es), Last(es);
      assert before + [e] == es;
      BlocksCarryText(before);
      TextSnoc(before, e);
      assert AllText(before) + "" == AllText(before) && AllReasoning(before) + "" == AllReasoning(before);
      if HeadOf(e).Some? {
        JoinedAdd(TextBlocks(before), e, TextHead);
        JoinedAdd(TextBlocks(before), e, ThinkingHead);
      } else {
        AddNothing(TextBlocks(before), e);
      }
    }
  }

  lemma {:induction false} NothingJoined()
    ensures Joined([], TextHead) == Joined([], ThinkingHead) == AllText([]) == AllReasoning([]) == ""
  {
  }

  lemma {:induction false} AddNothing(blocks: seq<Block>, e: StreamEvent)
    requires HeadOf(e).None?
    ensures AddIncrement(blocks, e) == blocks
  {
  }

  lemma {:induction false} SameEnding(es: seq<StreamEvent>)
    ensures LastFinish(es, "stop") == LastFinish(es, "")
            || (LastFinish(es, "stop") == "stop" && LastFinish(es, "") == "")
  {
    if es != [] {
      SameEnding(Front(es));
    }
  }

  lemma {:induction false} SameStopReason(es: seq<StreamEvent>, hasToolCalls: bool)
    ensures MapStopReason(LastFinish(es, "stop"), hasToolCalls) == MapStopReason(LastFinish(es, ""), hasToolCalls)
  {
    hide LastFinish;
    SameEnding(es);
  }

  /** A tool as streamed and as answered: same name, same raw arguments, and the same id exactly
      when upstream supplied one. */
  ghost predicate SameTool(b: Block, answer: Content, t: int, es: seq<StreamEvent>, jsonValid: string -> bool) {
    && b.head.ToolHead? && answer.ToolUse?
    && answer.name == b.head.name
    && answer.input == InputOf(JoinAll(b.deltas), jsonValid)
    && (answer.id == b.head.id <==> ToolId(es, t) != "")
  }

  lemma {:induction false} ToolsAgree(b: Block, answer: Content, t: int, es: seq<StreamEvent>,
                                      jsonValid: string -> bool)
    requires IsToolBlock(b, t, es) && AnswersTool(answer, t, es, jsonValid)
    ensures SameTool(b, answer, t, es, jsonValid)
  {
    hide ToolId, ToolName, ToolArguments, InputOf;
    var args := ToolArguments(es, t);
    assert JoinAll(b.deltas) == args by {
      if args != "" {
        assert Front([args]) == [] && JoinAll([]) == "" && "" + args == args;
      }
    }
  }

  /** One event sequence, two modes: same text, same reasoning, same tools in the same order, same
      stop reason, same output tokens. */
  lemma {:induction false} ModesAgree(es: seq<StreamEvent>, tools: seq<Block>, start: Frame, res: Message,
                                      jsonValid: string -> bool)
    requires start.MessageStart? && AreToolBlocks(tools, es) && Answers(res, es, jsonValid)
    ensures ReceiveAll(CompleteStream(start, es, tools)).Some?
    ensures var r := ReceiveAll(CompleteStream(start, es, tools)).value;
            && r.blocks == TextBlocks(es) + tools
            && r.stopReason == res.stopReason && r.outputTokens == res.outputTokens
    ensures var thinking, text := Joined(TextBlocks(es), ThinkingHead), Joined(TextBlocks(es), TextHead);
            var texts := (if thinking != "" then [ThinkingContent(thinking)] else [])
                         + (if text != "" then [TextContent(text)] else []);
            && |res.content| == |texts| + |tools| && res.content[..|texts|] == texts
            && forall k :: 0 <= k < |tools| ==>
                 SameTool(tools[k], res.content[|texts| + k], ToolIndexes(es)[k], es, jsonValid)
  {
    hide TextBlocks, MapStopReason, LastFinish, LastUsage, ToolIndexes, ToolId, ToolName, ToolArguments, OutputTokens,
         InputOf, Joined, ReceiveAll, CompleteStream, AllText, AllReasoning, SameTool, IsToolBlock, AnswersTool;
    CompleteStreamAccepted(start, es, tools);
    SameStopReason(es, ToolIndexes(es) != []);
    BlocksCarryText(es);
    var n := |res.content| - |tools|;
    forall k | 0 <= k < |tools| ensures SameTool(tools[k], res.content[n + k], ToolIndexes(es)[k], es, jsonValid) {
      assert AnswersTool(res.content[n + k], ToolIndexes(es)[k], es, jsonValid);
      ToolsAgree(tools[k], res.content[n + k], ToolIndexes(es)[k], es, jsonValid);
    }
  }

  /** Without an id from upstream the modes differ: one call is streamed under an id made up for it, and
      answered without any. */
  lemma {:induction false} IdsCanDiffer(name: string, args: string, tools: seq<Block>, res: Message,
                                        jsonValid: string -> bool)
    requires AreToolBlocks(tools, [ToolCall(ToolCallDelta(0, "", "", name, args))])
    requires Answers(res, [ToolCall(ToolCallDelta(0, "", "", name, args))], jsonValid)
    ensures |tools| == 1 && |res.content| == 1 && tools[0].head.ToolHead? && res.content[0].ToolUse?
    ensures "toolu_" <= tools[0].head.id && res.content[0].id == ""
  {
    var es := [ToolCall(ToolCallDelta(0, "", "", name, args))];
    OneCall(ToolCallDelta(0, "", "", name, args));
    assert IsToolBlock(tools[0], ToolIndexes(es)[0], es);
    assert AnswersTool(res.content[0], ToolIndexes(es)[0], es, jsonValid);
  }

  /** Arguments that are not valid JSON are streamed as they are, and answered as an empty object. */
  lemma {:induction false} InputsCanDiffer(id: string, name: string, args: string, tools: seq<Block>, res: Message,
                                           jsonValid: string -> bool)
    requires args != "" && args != "{}" && !jsonValid(args)
    requires AreToolBlocks(tools, [ToolCall(ToolCallDelta(0, id, "", name, args))])
    requires Answers(res, [ToolCall(ToolCallDelta(0, id, "", name, args))], jsonValid)
    ensures |tools| == 1 && |res.content| == 1 && res.content[0].ToolUse?
    ensures tools[0].deltas == [args] && res.content[0].input == "{}" != args
  {
    var es := [ToolCall(ToolCallDelta(0, id, "", name, args))];
    OneCall(ToolCallDelta(0, id, "", name, args));
    assert IsToolBlock(tools[0], ToolIndexes(es)[0], es);
    assert AnswersTool(res.content[0], ToolIndexes(es)[0], es, jsonValid);
  }

  /** The answered input is the raw argument string exactly when that is valid JSON or the empty object. */
  lemma {:induction false} InputAgreesIff(args: string, jsonValid: string -> bool)
    ensures InputOf(args, jsonValid) == args <==> args == "{}" || (args != "" && jsonValid(args))
  {
  }

  lemma {:induction false} OneCall(tc: ToolCallDelta)
    ensures var es := [ToolCall(tc)];
            && ToolIndexes(es) == [tc.index] && AllText(es) == "" && AllReasoning(es) == ""
            && ToolId(es, tc.index) == tc.id && ToolName(es, tc.index) == tc.name
            && ToolArguments(es, tc.index) == tc.arguments
  {
    assert [] + [ToolCall(tc)] == [ToolCall(tc)];
    OrderSnoc([], ToolCall(tc));
    ToolSnoc([], ToolCall(tc), tc.index);
    TextSnoc([], ToolCall(tc));
  }
}
