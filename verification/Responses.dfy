/** internal/protocol/responses.go: the streaming state machine of the Responses adapter, the final
    response object, and the non-streaming path. */
module Responses {
  import opened Basics
  import opened StreamEvents
  import opened Collect
  import opened ResponsesProtocol

  // ---- Status ----

  function StatusOf(reason: string): (Status, Option<string>) {
    if reason == "length" || reason == "max_tokens" then (Incomplete, Some("max_output_tokens"))
    else if reason == "content_filter" then (Incomplete, Some("content_filter"))
    else if reason == "incomplete" then (Incomplete, Some("unknown"))
    else (Completed, None)
  }

  /** The status of a tool item's done event. */
  function CallStatus(reason: string): Status {
    if reason == "length" || reason == "max_tokens" || reason == "incomplete" then Incomplete else Completed
  }

  /** The statuses, case by case. */
  lemma {:induction false} StatusIs(reason: string)
    ensures StatusOf("length") == StatusOf("max_tokens") == (Incomplete, Some("max_output_tokens"))
    ensures StatusOf("content_filter") == (Incomplete, Some("content_filter"))
    ensures StatusOf("incomplete") == (Incomplete, Some("unknown"))
    ensures reason !in {"length", "max_tokens", "content_filter", "incomplete"} ==>
              StatusOf(reason) == (Completed, None)
    ensures CallStatus(reason) == Incomplete <==> reason in {"length", "max_tokens", "incomplete"}
  {
  }

  /** The finish reason the stream keeps: the newest that is neither "stop" nor empty, else "stop" if
      it ever came, else nothing. */
  function KeptFinish(es: seq<StreamEvent>): string {
    if es == [] then ""
    else if !Last(es).Finish? then KeptFinish(Front(es))
    else if Last(es).reason != "stop" && Last(es).reason != "" then Last(es).reason
    else if KeptFinish(Front(es)) == "" then Last(es).reason
    else KeptFinish(Front(es))
  }

  lemma {:induction false} KeptSnoc(es: seq<StreamEvent>, e: StreamEvent)
    ensures KeptFinish(es + [e])
            == if e.Finish? && (KeptFinish(es) == "" || (e.reason != "stop" && e.reason != "")) then e.reason
               else KeptFinish(es)
  {
    SnocParts(es, e);
  }

  predicate IsRealFinish(e: StreamEvent) {
    e.Finish? && e.reason != "stop" && e.reason != ""
  }

  /** A real reason, once given, outlives every later "stop": the kept one is the newest real one. */
  lemma {:induction false} KeptIsNewestReal(es: seq<StreamEvent>, k: nat)
    requires k < |es| && IsRealFinish(es[k])
    requires forall j :: k < j < |es| ==> !IsRealFinish(es[j])
    ensures KeptFinish(es) == es[k].reason
  {
    if k < |es| - 1 {
      assert !IsRealFinish(es[|es| - 1]);
      KeptIsNewestReal(Front(es), k);
    }
  }

  lemma {:induction false} KeptWithoutReal(es: seq<StreamEvent>)
    requires forall j :: 0 <= j < |es| ==> !IsRealFinish(es[j])
    ensures KeptFinish(es) == "" || KeptFinish(es) == "stop"
    ensures KeptFinish(es) == "stop" <==> exists j :: 0 <= j < |es| && es[j] == Finish("stop")
  {
    if es != [] {
      KeptWithoutReal(Front(es));
      assert !IsRealFinish(es[|es| - 1]);
      assert forall j :: 0 <= j < |es| - 1 ==> Front(es)[j] == es[j];
      assert Last(es) == es[|es| - 1];
    }
  }

  /** The streaming and the non-streaming path can report different statuses for the same events: the
      latter takes the last reason. They differ exactly when a truncating real reason is followed by a
      plain last one. */
  lemma {:induction false} StatusesDifferIff(es: seq<StreamEvent>)
    ensures StatusOf(KeptFinish(es)) != StatusOf(LastFinish(es, ""))
            <==> StatusOf(KeptFinish(es)).0 == Incomplete && (LastFinish(es, "") == "stop" || LastFinish(es, "") == "")
  {
    LastRealIsKept(es);
  }

  lemma {:induction false} LastRealIsKept(es: seq<StreamEvent>)
    ensures LastFinish(es, "") != "stop" && LastFinish(es, "") != "" ==> KeptFinish(es) == LastFinish(es, "")
  {
    if es != [] {
      LastRealIsKept(Front(es));
    }
  }

  lemma {:induction false} StatusesCanDiffer()
    ensures var es := [Finish("length"), Finish("stop")];
            && StatusOf(KeptFinish(es)) == (Incomplete, Some("max_output_tokens"))
            && StatusOf(LastFinish(es, "")) == (Completed, None)
  {
    var first := [Finish("length")];
    assert Front(first) == [];
    assert Front([Finish("length"), Finish("stop")]) == first;
  }

  // ---- The transcript: what a client is shown for given events ----

  /** The kind of the text or reasoning item that stays open after the events; a tool delta leaves none. */
  function OpenKind(es: seq<StreamEvent>): Option<Kind> {
    if es == [] then None
    else
      match Last(es)
      case Text(_) => Some(Message)
      case Reasoning(_) => Some(Thinking)
      case ToolCall(_) => None
      case _ => OpenKind(Front(es))
  }

  /** The end of a text or reasoning item carries the status of the finish reason kept by then. */
  function WithDone(pieces: seq<Piece>, open: bool, reason: string): seq<Piece> {
    if open then pieces + [DonePiece(StatusOf(reason).0, StatusOf(reason).1)] else pieces
  }

  function WithArgs(pieces: seq<Piece>, args: string): seq<Piece> {
    if args != "" then pieces + [ArgsPiece(args)] else pieces
  }

  function WithCallsDone(pieces: seq<Piece>, n: nat, status: Status): seq<Piece> {
    if n == 0 then pieces else WithCallsDone(pieces, n - 1, status) + [DonePiece(status, None)]
  }

  /** Every event is passed on at once: increments of the kind of the open item are added to it, others
      close it and open a new one, and a tool's item opens with its first delta. */
  function Transcript(es: seq<StreamEvent>): seq<Piece> {
    if es == [] then [] else
    var before := Transcript(Front(es));
    var open := OpenKind(Front(es));
    var closed := WithDone(before, open.Some?, KeptFinish(Front(es)));
    match Last(es)
    case Text(text) => (if open == Some(Message) then before else closed + [Opened(Message)]) + [TextPiece(text)]
    case Reasoning(text) =>
      (if open == Some(Thinking) then before else closed + [Opened(Thinking)]) + [ReasoningPiece(text)]
    case ToolCall(tc) =>
      WithArgs(if tc.index in ToolIndexes(Front(es)) then closed else closed + [Opened(Call)], tc.arguments)
    case _ => before
  }

  /** The transcript of an error-free stream: at its end the open item is done, then every tool item. */
  function WholeTranscript(es: seq<StreamEvent>): seq<Piece> {
    var ended := WithDone(Transcript(es), OpenKind(es).Some?, KeptFinish(es));
    WithCallsDone(ended, |ToolIndexes(es)|, CallStatus(KeptFinish(es)))
  }

  lemma {:induction false} TranscriptSnoc(es: seq<StreamEvent>, e: StreamEvent)
    ensures var before, open := Transcript(es), OpenKind(es);
            var closed := WithDone(before, open.Some?, KeptFinish(es));
            match e
            case Text(text) =>
              OpenKind(es + [e]) == Some(Message)
              && Transcript(es + [e])
                 == (if open == Some(Message) then before else closed + [Opened(Message)]) + [TextPiece(text)]
            case Reasoning(text) =>
              OpenKind(es + [e]) == Some(Thinking)
              && Transcript(es + [e])
                 == (if open == Some(Thinking) then before else closed + [Opened(Thinking)]) + [ReasoningPiece(text)]
            case ToolCall(tc) =>
              OpenKind(es + [e]) == None
              && Transcript(es + [e])
                 == WithArgs(if tc.index in ToolIndexes(es) then closed else closed + [Opened(Call)], tc.arguments)
            case _ => OpenKind(es + [e]) == open && Transcript(es + [e]) == before
  {
    hide WithDone, WithArgs, KeptFinish, ToolIndexes;
    SnocParts(es, e);
  }

  /** The item that is open is that of the newest text or reasoning, unless a tool delta has come since. */
  lemma {:induction false} OpenKindIs(es: seq<StreamEvent>, k: nat)
    requires k < |es| && (es[k].Text? || es[k].Reasoning? || es[k].ToolCall?)
    requires forall j :: k < j < |es| ==> !es[j].Text? && !es[j].Reasoning? && !es[j].ToolCall?
    ensures OpenKind(es) == if es[k].Text? then Some(Message) else if es[k].Reasoning? then Some(Thinking) else None
  {
    if k < |es| - 1 {
      assert !es[|es| - 1].Text? && !es[|es| - 1].Reasoning? && !es[|es| - 1].ToolCall?;
      OpenKindIs(Front(es), k);
    }
  }

  /** Increments of the kind of the open item are added to it. Increments of the other kind, tool deltas and
      the end of the stream first end it, with the status of the reason kept by then. */
  lemma {:induction false} OpenItemIsDone(es: seq<StreamEvent>, e: StreamEvent)
    requires OpenKind(es).Some?
    ensures var (status, details) := StatusOf(KeptFinish(es));
            var done := Transcript(es) + [DonePiece(status, details)];
            && (e.Text? && OpenKind(es) == Some(Message) ==>
                  Transcript(es + [e]) == Transcript(es) + [TextPiece(e.text)])
            && (e.Reasoning? && OpenKind(es) == Some(Thinking) ==>
                  Transcript(es + [e]) == Transcript(es) + [ReasoningPiece(e.reasoning)])
            && (e.Text? && OpenKind(es) == Some(Thinking) ==>
                  Transcript(es + [e]) == done + [Opened(Message), TextPiece(e.text)])
            && (e.Reasoning? && OpenKind(es) == Some(Message) ==>
                  Transcript(es + [e]) == done + [Opened(Thinking), ReasoningPiece(e.reasoning)])
            && (e.ToolCall? ==> done <= Transcript(es + [e]))
            && done <= WholeTranscript(es)
  {
    hide StatusOf, KeptFinish, Transcript, OpenKind, ToolIndexes, WithCallsDone, CallStatus;
    TranscriptSnoc(es, e);
    var (status, details) := StatusOf(KeptFinish(es));
    CallsDonePrefix(Transcript(es) + [DonePiece(status, details)], |ToolIndexes(es)|, CallStatus(KeptFinish(es)));
  }

  lemma {:induction false} CallsDonePrefix(pieces: seq<Piece>, n: nat, status: Status)
    ensures pieces <= WithCallsDone(pieces, n, status)
  {
    if n > 0 {
      CallsDonePrefix(pieces, n - 1, status);
    }
  }

  /** The server's own account of the open item. */
  ghost predicate Shows(current: Option<ItemMeta>, partOpen: bool, kind: Option<Kind>) {
    match kind
    case Some(Message) => current.Some? && current.value.item.MessageItem? && partOpen
    case Some(Thinking) => current.Some? && current.value.item.ReasoningItem?
    case Some(Call) => false
    case None => current.None?
  }

  lemma {:induction false} TextStep(heard: seq<StreamEvent>, current: Option<ItemMeta>, partOpen: bool,
                                    reason: string, delta: string)
    requires Shows(current, partOpen, OpenKind(heard)) && reason == KeptFinish(heard)
    ensures var before, heard' := Transcript(heard), heard + [Text(delta)];
            && Transcript(heard')
               == (if current.Some? && current.value.item.MessageItem? && partOpen then before
                   else WithDone(before, current.Some?, reason) + [Opened(Message)]) + [TextPiece(delta)]
            && forall now: ItemMeta :: now.item.MessageItem? ==> Shows(Some(now), true, OpenKind(heard'))
  {
    hide WithDone, KeptFinish, Transcript, OpenKind;
    TranscriptSnoc(heard, Text(delta));
  }

  lemma {:induction false} ReasoningStep(heard: seq<StreamEvent>, current: Option<ItemMeta>, partOpen: bool,
                                         reason: string, delta: string)
    requires Shows(current, partOpen, OpenKind(heard)) && reason == KeptFinish(heard)
    ensures var before, heard' := Transcript(heard), heard + [Reasoning(delta)];
            && Transcript(heard')
               == (if current.Some? && current.value.item.ReasoningItem? then before
                   else WithDone(before, current.Some?, reason) + [Opened(Thinking)]) + [ReasoningPiece(delta)]
            && forall now: ItemMeta, part: bool :: now.item.ReasoningItem? ==> Shows(Some(now), part, OpenKind(heard'))
  {
    hide WithDone, KeptFinish, Transcript, OpenKind;
    TranscriptSnoc(heard, Reasoning(delta));
  }

  lemma {:induction false} ToolStep(heard: seq<StreamEvent>, current: Option<ItemMeta>, partOpen: bool,
                                    reason: string, tc: ToolCallDelta)
    requires Shows(current, partOpen, OpenKind(heard)) && reason == KeptFinish(heard)
    ensures var closed, heard' := WithDone(Transcript(heard), current.Some?, reason), heard + [ToolCall(tc)];
            && Transcript(heard')
               == WithArgs(if tc.index in ToolIndexes(heard) then closed else closed + [Opened(Call)], tc.arguments)
            && Shows(None, false, OpenKind(heard'))
  {
    hide WithDone, WithArgs, KeptFinish, Transcript, OpenKind, ToolIndexes;
    TranscriptSnoc(heard, ToolCall(tc));
  }

  lemma {:induction false} OtherStep(heard: seq<StreamEvent>, e: StreamEvent)
    requires !e.Text? && !e.Reasoning? && !e.ToolCall?
    ensures Transcript(heard + [e]) == Transcript(heard) && OpenKind(heard + [e]) == OpenKind(heard)
  {
    hide Transcript, OpenKind;
    TranscriptSnoc(heard, e);
  }

  lemma {:induction false} EndStep(heard: seq<StreamEvent>, current: Option<ItemMeta>, partOpen: bool, reason: string)
    requires Shows(current, partOpen, OpenKind(heard)) && reason == KeptFinish(heard)
    ensures WholeTranscript(heard)
            == WithCallsDone(WithDone(Transcript(heard), current.Some?, reason), |ToolIndexes(heard)|,
                             CallStatus(reason))
  {
    hide WithDone, WithCallsDone, KeptFinish, Transcript, OpenKind, ToolIndexes, CallStatus;
  }

  lemma {:induction false} CallDoneStep(pieces: seq<Piece>, i: nat, status: Status)
    ensures WithCallsDone(pieces, 0, status) == pieces
    ensures WithCallsDone(pieces, i + 1, status) == WithCallsDone(pieces, i, status) + [DonePiece(status, None)]
  {
  }

  // ---- The announcements: which items a client is told of for given events ----

  /** The first delta of a tool index. */
  function FirstDelta(es: seq<StreamEvent>, t: int): Option<ToolCallDelta> {
    if es == [] then None
    else if FirstDelta(Front(es), t).Some? then FirstDelta(Front(es), t)
    else if IsToolDelta(Last(es), t) then Some(Last(es).call)
    else None
  }

  function CallsOf(items: seq<Item>): seq<Item> {
    if items == [] then [] else CallsOf(Front(items)) + if Last(items).CallItem? then [Last(items)] else []
  }

  /** A call is announced with the name of its first delta, and with that delta's id or one made up. */
  predicate AnnouncesDelta(item: Item, tc: ToolCallDelta) {
    && item.CallItem? && item.name == tc.name
    && (if tc.id != "" then item.callId == tc.id else "call_" <= item.callId)
  }

  predicate WellNamed(item: Item) {
    match item
    case ReasoningItem(id) => "rs_" <= id
    case MessageItem(id) => "msg_" <= id
    case CallItem(id, _, _) => "fc_" <= id
  }

  /** One call item for every tool, in order of first appearance, and ids that tell the kind of the item. */
  ghost predicate Announces(items: seq<Item>, es: seq<StreamEvent>) {
    && |CallsOf(items)| == |ToolIndexes(es)|
    && (forall k :: 0 <= k < |ToolIndexes(es)| ==>
          && FirstDelta(es, ToolIndexes(es)[k]).Some?
          && AnnouncesDelta(CallsOf(items)[k], FirstDelta(es, ToolIndexes(es)[k]).value))
    && forall i :: 0 <= i < |items| ==> WellNamed(items[i])
  }

  lemma {:induction false} CallsOfSnoc(items: seq<Item>, item: Item)
    ensures CallsOf([]) == [] && CallsOf(items + [item]) == CallsOf(items) + if item.CallItem? then [item] else []
  {
    SnocParts(items, item);
  }

  lemma {:induction false} FirstDeltaSnoc(es: seq<StreamEvent>, e: StreamEvent, t: int)
    ensures FirstDelta(es + [e], t)
            == if FirstDelta(es, t).Some? then FirstDelta(es, t) else if IsToolDelta(e, t) then Some(e.call) else None
  {
    SnocParts(es, e);
  }

  lemma {:induction false} NoDeltaYet(es: seq<StreamEvent>, t: int)
    requires t !in ToolIndexes(es)
    ensures FirstDelta(es, t) == None
  {
    hide ToolIndexes;
    if es != [] {
      var before, e := Front(es), Last(es);
      assert before + [e] == es;
      OrderSnoc(before, e);
      NoDeltaYet(before, t);
      FirstDeltaSnoc(before, e, t);
    }
  }

  /** An event that announces no call leaves the announcements right. */
  lemma {:induction false} AnnouncesNothing(items: seq<Item>, es: seq<StreamEvent>, e: StreamEvent)
    requires Announces(items, es) && (e.ToolCall? ==> e.call.index in ToolIndexes(es))
    ensures Announces(items, es + [e])
  {
    hide CallsOf, FirstDelta, ToolIndexes, AnnouncesDelta, WellNamed;
    OrderSnoc(es, e);
    assert ToolIndexes(es) + [] == ToolIndexes(es);
    forall k | 0 <= k < |ToolIndexes(es)|
      ensures FirstDelta(es + [e], ToolIndexes(es)[k]) == FirstDelta(es, ToolIndexes(es)[k])
    {
      FirstDeltaSnoc(es, e, ToolIndexes(es)[k]);
    }
  }

  lemma {:induction false} AnnouncesText(items: seq<Item>, es: seq<StreamEvent>, item: Item)
    requires Announces(items, es) && !item.CallItem? && WellNamed(item)
    ensures Announces(items + [item], es)
  {
    hide CallsOf, FirstDelta, ToolIndexes, AnnouncesDelta, WellNamed;
    CallsOfSnoc(items, item);
    assert CallsOf(items) + [] == CallsOf(items);
  }

  lemma {:induction false} AnnouncesCall(items: seq<Item>, es: seq<StreamEvent>, tc: ToolCallDelta, item: Item)
    requires Announces(items, es) && tc.index !in ToolIndexes(es) && AnnouncesDelta(item, tc) && WellNamed(item)
    ensures Announces(items + [item], es + [ToolCall(tc)])
  {
    hide CallsOf, FirstDelta, ToolIndexes, WellNamed;
    var e := ToolCall(tc);
    CallsOfSnoc(items, item);
    OrderSnoc(es, e);
    NoDeltaYet(es, tc.index);
    FirstDeltaSnoc(es, e, tc.index);
    forall k | 0 <= k < |ToolIndexes(es)|
      ensures FirstDelta(es + [e], ToolIndexes(es)[k]) == FirstDelta(es, ToolIndexes(es)[k])
    {
      FirstDeltaSnoc(es, e, ToolIndexes(es)[k]);
    }
  }

  // ---- The response object ----

  /** Where an id opened while streaming is kept for the final object; the call keys count calls. */
  datatype IdKey = ReasoningKey | MessageKey | CallKey(k: nat)

  /** The uuid generator: the n-th draw. */
  type Uuids = nat -> string

  /** Output items with fresh or stable ids: each id comes from the stable map when it has one. */
  ghost predicate HasId(id: string, prefix: string, key: IdKey, stable: map<IdKey, string>) {
    if key in stable && stable[key] != "" then id == stable[key] else prefix <= id
  }

  /** The output of a response object: reasoning if any, message if any, then the calls in order. */
  ghost predicate IsOutputOf(output: seq<OutItem>, c: Collected, stable: map<IdKey, string>) {
    var status := StatusOf(c.finishReason).0;
    var r := if c.reasoning != "" then 1 else 0;
    var m := if c.content != "" then r + 1 else r;
    && |output| == m + |c.toolOrder|
    && (c.reasoning != "" ==>
          output[0] == OutReasoning(output[0].id, status, None, c.reasoning)
          && HasId(output[0].id, "rs_", ReasoningKey, stable))
    && (c.content != "" ==>
          output[r] == OutMessage(output[r].id, status, None, c.content)
          && HasId(output[r].id, "msg_", MessageKey, stable))
    && forall k :: 0 <= k < |c.toolOrder| ==> IsCallOutput(output[m + k], c, c.toolOrder[k], CallKey(k), stable)
  }

  ghost predicate IsCallOutput(out: OutItem, c: Collected, t: int, key: IdKey, stable: map<IdKey, string>) {
    && t in c.toolCalls
    && out == OutCall(out.id, StatusOf(c.finishReason).0, c.toolCalls[t].id, c.toolCalls[t].name, c.toolCalls[t].args)
    && HasId(out.id, "fc_", key, stable)
  }

  method StableOr(key: IdKey, stable: map<IdKey, string>, prefix: string, uuids: Uuids, drawn: nat)
    returns (id: string, drawn': nat)
    ensures HasId(id, prefix, key, stable)
  {
    id, drawn' := "", drawn;
    if key in stable {
      id := stable[key];
    }
    if id == "" {
      id, drawn' := prefix + uuids(drawn), drawn + 1;
    }
  }

  /** The reasoning item and the message item, if there are any. */
  ghost predicate AreTexts(texts: seq<OutItem>, c: Collected, stable: map<IdKey, string>) {
    var status := StatusOf(c.finishReason).0;
    var r := if c.reasoning != "" then 1 else 0;
    && |texts| == (if c.content != "" then r + 1 else r)
    && (c.reasoning != "" ==>
          texts[0] == OutReasoning(texts[0].id, status, None, c.reasoning)
          && HasId(texts[0].id, "rs_", ReasoningKey, stable))
    && (c.content != "" ==>
          texts[r] == OutMessage(texts[r].id, status, None, c.content)
          && HasId(texts[r].id, "msg_", MessageKey, stable))
  }

  method TextOutput(c: Collected, status: Status, stable: map<IdKey, string>, uuids: Uuids, drawn: nat)
    returns (output: seq<OutItem>, n: nat)
    requires status == StatusOf(c.finishReason).0
    ensures AreTexts(output, c, stable)
  {
    hide StatusOf, HasId;
    output, n := [], drawn;
    if c.reasoning != "" {
      var rsId;
      rsId, n := StableOr(ReasoningKey, stable, "rs_", uuids, n);
      output := output + [OutReasoning(rsId, status, None, c.reasoning)];
    }
    if c.content != "" {
      var msgId;
      msgId, n := StableOr(MessageKey, stable, "msg_", uuids, n);
      output := output + [OutMessage(msgId, status, None, c.content)];
    }
  }

  method ResponseObject(id: string, model: string, c: Collected, stable: map<IdKey, string>, uuids: Uuids, drawn: nat)
    returns (res: Response)
    requires forall k :: 0 <= k < |c.toolOrder| ==> c.toolOrder[k] in c.toolCalls
    ensures res == Response(id, model, StatusOf(c.finishReason).0, StatusOf(c.finishReason).1, res.output,
                            if c.usage.Some? then c.usage.value else Usage(0, 0, 0))
    ensures IsOutputOf(res.output, c, stable)
  {
    hide StatusOf, HasId, AreTexts, IsOutputOf;
    var (status, details) := StatusOf(c.finishReason);
    var output, n := TextOutput(c, status, stable, uuids, drawn);
    ghost var texts := output;
    for i := 0 to |c.toolOrder|
      invariant |output| == |texts| + i && output[..|texts|] == texts
      invariant forall k :: 0 <= k < i ==> IsCallOutput(output[|texts| + k], c, c.toolOrder[k], CallKey(k), stable)
    {
      var tc := c.toolCalls[c.toolOrder[i]];
      var fcId;
      fcId, n := StableOr(CallKey(i), stable, "fc_", uuids, n);
      output := output + [OutCall(fcId, status, tc.id, tc.name, tc.args)];
    }
    TextsThenCalls(output, texts, c, stable);
    res := Response(id, model, status, details, output, if c.usage.Some? then c.usage.value else Usage(0, 0, 0));
  }

  lemma {:induction false} TextsThenCalls(output: seq<OutItem>, texts: seq<OutItem>, c: Collected,
                                          stable: map<IdKey, string>)
    requires AreTexts(texts, c, stable) && |output| == |texts| + |c.toolOrder| && output[..|texts|] == texts
    requires forall k :: 0 <= k < |c.toolOrder| ==>
               IsCallOutput(output[|texts| + k], c, c.toolOrder[k], CallKey(k), stable)
    ensures IsOutputOf(output, c, stable)
  {
    hide StatusOf, HasId, IsCallOutput;
    assert forall k :: 0 <= k < |texts| ==> output[k] == output[..|texts|][k];
  }

  // ---- The stream ----

  datatype ItemMeta = ItemMeta(item: Item, index: int, text: string)
  datatype ToolMeta = ToolMeta(fcId: string, callId: string, name: string, index: int, args: string)

  /** The client's open items are exactly the server's current item and its tool items. */
  ghost predicate InStep(client: Client, current: Option<ItemMeta>, partOpen: bool,
                         tools: map<int, ToolMeta>, order: seq<int>, at: map<int, nat>)
  {
    && (partOpen ==> current.Some? && current.value.item.MessageItem?)
    && (current.Some? ==>
          var m := current.value;
          && !m.item.CallItem? && m.index < client.nextIndex && m.index !in at
          && m.index in client.open && client.open[m.index] == OpenItem(m.item, m.text, partOpen)
          && m.item.id in client.ids.all)
    && (forall i :: i in client.open ==> (current.Some? && i == current.value.index) || i in at)
    && ToolsInStep(client, tools, order, at)
  }

  ghost predicate ToolsInStep(client: Client, tools: map<int, ToolMeta>, order: seq<int>, at: map<int, nat>) {
    && (forall t :: t in tools <==> t in order)
    && (forall i, j :: 0 <= i < j < |order| ==> order[i] != order[j])
    && (forall t :: t in tools ==> ToolOpen(client, t, tools[t], order, at))
    && (forall i :: i in at ==>
          i < client.nextIndex && at[i] < |order| && order[at[i]] in tools && tools[order[at[i]]].index == i)
  }

  ghost predicate ToolOpen(client: Client, t: int, m: ToolMeta, order: seq<int>, at: map<int, nat>) {
    && m.index in at && at[m.index] < |order| && order[at[m.index]] == t
    && m.index in client.open && m.index < client.nextIndex
    && client.open[m.index].item.CallItem? && client.open[m.index].item.id == m.fcId
    && client.open[m.index].text == m.args && !client.open[m.index].partOpen
    && m.fcId in client.ids.all
  }

  /** What a client that has read everything so far will have of each text channel. */
  function SaidMessage(client: Client, current: Option<ItemMeta>): string {
    client.message + if current.Some? && current.value.item.MessageItem? then current.value.text else ""
  }

  function SaidReasoning(client: Client, current: Option<ItemMeta>): string {
    client.reasoning + if current.Some? && current.value.item.ReasoningItem? then current.value.text else ""
  }

  /** The accumulator for the final object agrees with the events and with the tool items. */
  ghost predicate Booked(c: Collected, tools: map<int, ToolMeta>, order: seq<int>, heard: seq<StreamEvent>) {
    && c.content == AllText(heard) && c.reasoning == AllReasoning(heard)
    && c.finishReason == KeptFinish(heard) && c.usage == LastUsage(heard)
    && c.toolOrder == order == ToolIndexes(heard)
    && c.toolCalls.Keys == tools.Keys
    && forall t :: t in tools ==> CallBooked(c, t, tools, heard)
  }

  ghost predicate CallBooked(c: Collected, t: int, tools: map<int, ToolMeta>, heard: seq<StreamEvent>) {
    && t in tools && t in c.toolCalls
    && c.toolCalls[t].id == tools[t].callId && c.toolCalls[t].name == tools[t].name
    && c.toolCalls[t].args == tools[t].args
    && tools[t].args == ToolArguments(heard, t) && tools[t].name == ToolName(heard, t)
    && (ToolId(heard, t) != "" ==> tools[t].callId == ToolId(heard, t))
    && (ToolId(heard, t) == "" ==> "call_" <= tools[t].callId)
  }

  /** Ids kept for the final object are ids of announced items. */
  ghost predicate IdsKept(stable: map<IdKey, string>, ids: Ids, tools: map<int, ToolMeta>, order: seq<int>) {
    && (forall key :: key in stable ==> stable[key] in ids.all && stable[key] != "")
    && (MessageKey in stable ==> ids.message == Some(stable[MessageKey]))
    && (ReasoningKey in stable ==> ids.reasoning == Some(stable[ReasoningKey]))
    && (forall k :: 0 <= k < |order| ==> CallKey(k) in stable && order[k] in tools
                                         && stable[CallKey(k)] == tools[order[k]].fcId)
  }

  class Stream {
    const respId: string
    const model: string
    const uuids: Uuids
    var drawn: nat
    var seqNo: int
    var frames: seq<Frame>
    var c: Collected
    var stable: map<IdKey, string>
    var itemOpen: bool
    var itemIndex: int
    var partOpen: bool
    var current: Option<ItemMeta>
    var tools: map<int, ToolMeta>
    var toolOrder: seq<int>
    ghost var client: Client
    ghost var at: map<int, nat>      // output index of a tool item -> its place in toolOrder
    ghost var heard: seq<StreamEvent>

    /** A strict client has accepted every frame so far and is in step with the server. */
    ghost predicate Wire()
      reads `frames, `client, `seqNo, `itemIndex, `itemOpen, `partOpen, `current, `tools, `toolOrder, `at
    {
      && Replay(frames) == Some(client) && client.phase.Live?
      && client.lastSeq == seqNo && client.nextIndex == itemIndex + 1 && client.calls == []
      && itemOpen == current.Some?
      && InStep(client, current, partOpen, tools, toolOrder, at)
    }

    /** The client has been shown the transcript of these events, and the ids of its items are kept. */
    ghost predicate Presents(es: seq<StreamEvent>)
      reads `frames, `client, `seqNo, `itemIndex, `itemOpen, `partOpen, `current, `tools, `toolOrder, `at, `stable
    {
      && Wire()
      && client.pieces == Transcript(es) && Shows(current, partOpen, OpenKind(es))
      && IdsKept(stable, client.ids, tools, toolOrder) && Announces(client.ids.items, es)
      && client.ids.response == respId && client.ids.model == model
      && (current.Some? ==> (if current.value.item.MessageItem? then MessageKey else ReasoningKey) in stable)
    }

    ghost predicate Valid()
      reads this
    {
      && Presents(heard)
      && Booked(c, tools, toolOrder, heard)
      && SaidMessage(client, current) == c.content && SaidReasoning(client, current) == c.reasoning
      && (c.content != "" ==> MessageKey in stable) && (c.reasoning != "" ==> ReasoningKey in stable)
    }

    constructor (respId: string, model: string, uuids: Uuids)
      ensures Valid() && heard == []
      ensures this.respId == respId && this.model == model
    {
      this.respId, this.model, this.uuids := respId, model, uuids;
      drawn, seqNo := 0, 1;
      var created := CreatedFrame(1, respId, model);
      frames := [created];
      c, stable := EMPTY, map[];
      itemOpen, itemIndex, partOpen, current := false, -1, false, None;
      tools, toolOrder := map[], [];
      client := NEW_CLIENT.(phase := Live, lastSeq := 1, ids := NEW_CLIENT.ids.(response := respId, model := model));
      at, heard := map[], [];
      new;
      hide Replay, InStep, Booked, IdsKept, Transcript, OpenKind, Shows, SaidMessage, SaidReasoning, Announces;
      CreatedIsRead(respId, model);
      NothingYet(client);
    }

    /** A fresh id with the given prefix. */
    method NewId(prefix: string) returns (id: string)
      modifies `drawn
      ensures prefix <= id && (prefix != "" ==> id != "")
    {
      id := prefix + uuids(drawn);
      drawn := drawn + 1;
    }

    /** Writes one frame carrying the next sequence number. */
    method Emit(f: Frame)
      requires Replay(frames) == Some(client) && client.lastSeq == seqNo && Expects(client, f)
      modifies `frames, `client, `seqNo
      ensures frames == old(frames) + [f] && client == Read(old(client), f) && seqNo == old(seqNo) + 1
      ensures Replay(frames) == Some(client) && client.lastSeq == seqNo
    {
      ReplaySnoc(frames, client, f);
      seqNo := seqNo + 1;
      frames := frames + [f];
      client := Read(client, f);
    }

    method ClosePart()
      requires Wire()
      modifies `frames, `client, `seqNo, `partOpen
      ensures Wire() && !partOpen
      ensures client.ids == old(client.ids) && client.pieces == old(client.pieces)
      ensures client.message == old(client.message) && client.reasoning == old(client.reasoning)
    {
      hide Replay, Expects, Read, InStep, Transcript, OpenKind, Shows, WithDone;
      PartOpenInStep(client, current, partOpen, tools, toolOrder, at);
      if partOpen && current.Some? && current.value.item.MessageItem? {
        PartClosedInStep(client, current.value, tools, toolOrder, at);
        Emit(PartDone(seqNo + 1, current.value.item.id, current.value.index, current.value.text));
        partOpen := false;
      }
    }

    /** Finishes the current text or reasoning item; running tool items stay open. */
    method CloseItem()
      requires Wire()
      modifies `frames, `client, `seqNo, `partOpen, `itemOpen, `current
      ensures Wire() && !itemOpen && !partOpen
      ensures client.ids == old(client.ids)
      ensures client.pieces == WithDone(old(client.pieces), old(itemOpen), c.finishReason)
      ensures SaidMessage(client, current) == old(SaidMessage(client, current))
      ensures SaidReasoning(client, current) == old(SaidReasoning(client, current))
    {
      hide Replay, Expects, Read, InStep, StatusOf;
      ClosePart();
      if itemOpen && current.Some? {
        var m := current.value;
        var (status, details) := StatusOf(c.finishReason);
        var out := if m.item.ReasoningItem? then OutReasoning(m.item.id, status, details, m.text)
                   else OutMessage(m.item.id, status, details, m.text);
        ClosedInStep(client, m, out, tools, toolOrder, at);
        Emit(ItemDone(seqNo + 1, m.index, out));
        itemOpen, current := false, None;
      }
    }

    /** Announces a new text or reasoning item at the next output index. */
    method Announce(key: IdKey, item: Item)
      requires Wire() && !itemOpen && !partOpen && !item.CallItem?
      modifies `frames, `client, `seqNo, `itemOpen, `current, `itemIndex, `stable
      ensures Wire() && itemOpen && client.ids == WithId(old(client.ids), item)
      ensures client.pieces == old(client.pieces) + [Opened(KindOf(item))]
      ensures itemIndex == old(itemIndex) + 1 && current == Some(ItemMeta(item, itemIndex, ""))
      ensures SaidMessage(client, current) == old(SaidMessage(client, current))
      ensures SaidReasoning(client, current) == old(SaidReasoning(client, current))
      ensures stable == old(stable)[key := item.id]
    {
      hide Replay, Expects, Read, InStep, Transcript, OpenKind, Shows, WithDone, SaidMessage, SaidReasoning;
      SaidNothing(client, current, item, itemIndex + 1);
      itemIndex := itemIndex + 1;
      stable := stable[key := item.id];
      current := Some(ItemMeta(item, itemIndex, ""));
      OpenedInStep(client, item, tools, toolOrder, at);
      Emit(ItemAdded(seqNo + 1, itemIndex, item));
      itemOpen := true;
    }

    method OpenTextItem()
      requires Wire() && !itemOpen && !partOpen
      modifies `frames, `client, `seqNo, `partOpen, `itemOpen, `current, `itemIndex, `stable, `drawn
      ensures Wire() && itemOpen && partOpen && client.ids == WithId(old(client.ids), current.value.item)
      ensures current.value.item.MessageItem? && current.value.item.id != "" && WellNamed(current.value.item)
      ensures client.pieces == old(client.pieces) + [Opened(Message)]
      ensures SaidMessage(client, current) == old(SaidMessage(client, current))
      ensures SaidReasoning(client, current) == old(SaidReasoning(client, current))
      ensures stable == old(stable)[MessageKey := current.value.item.id]
    {
      hide Replay, Expects, Read, InStep, SaidMessage, SaidReasoning;
      var id := NewId("msg_");
      Announce(MessageKey, MessageItem(id));
      OpenPart();
    }

    /** Announces the content part of the message item just announced. */
    method OpenPart()
      requires Wire() && itemOpen && !partOpen && current.value.item.MessageItem? && current.value.text == ""
      modifies `frames, `client, `seqNo, `partOpen
      ensures Wire() && partOpen && current == old(current)
      ensures client.ids == old(client.ids) && client.pieces == old(client.pieces)
      ensures SaidMessage(client, current) == old(SaidMessage(client, current))
      ensures SaidReasoning(client, current) == old(SaidReasoning(client, current))
    {
      hide Replay, Expects, Read, InStep;
      PartInStep(client, current.value, tools, toolOrder, at);
      Emit(PartAdded(seqNo + 1, current.value.item.id, current.value.index));
      partOpen := true;
    }

    method OpenReasoningItem()
      requires Wire() && !itemOpen && !partOpen
      modifies `frames, `client, `seqNo, `itemOpen, `current, `itemIndex, `stable, `drawn
      ensures Wire() && itemOpen && client.ids == WithId(old(client.ids), current.value.item)
      ensures current.value.item.ReasoningItem? && current.value.item.id != "" && WellNamed(current.value.item)
      ensures client.pieces == old(client.pieces) + [Opened(Thinking)]
      ensures SaidMessage(client, current) == old(SaidMessage(client, current))
      ensures SaidReasoning(client, current) == old(SaidReasoning(client, current))
      ensures stable == old(stable)[ReasoningKey := current.value.item.id]
    {
      hide Replay, Expects, Read, InStep, Transcript, OpenKind, Shows, WithDone;
      var id := NewId("rs_");
      Announce(ReasoningKey, ReasoningItem(id));
    }

    /** Adds one increment to the current item and sends it. */
    method Append(delta: string)
      requires Wire() && itemOpen && (current.value.item.MessageItem? ==> partOpen)
      modifies `frames, `client, `seqNo, `current
      ensures Wire() && client.ids == old(client.ids)
      ensures client.pieces
              == old(client.pieces)
                 + [if old(current).value.item.MessageItem? then TextPiece(delta) else ReasoningPiece(delta)]
      ensures current.Some? && current.value.item == old(current).value.item
      ensures var was := old(SaidMessage(client, current));
              SaidMessage(client, current) == if old(current).value.item.MessageItem? then was + delta else was
      ensures var was := old(SaidReasoning(client, current));
              SaidReasoning(client, current) == if old(current).value.item.ReasoningItem? then was + delta else was
    {
      hide Replay, Expects, Read, InStep, Transcript, OpenKind, Shows, WithDone;
      var m := current.value;
      PartOpenInStep(client, current, partOpen, tools, toolOrder, at);
      GrownInStep(client, m, partOpen, delta, tools, toolOrder, at);
      Assoc(if m.item.MessageItem? then client.message else client.reasoning, m.text, delta);
      current := Some(m.(text := m.text + delta));
      if m.item.MessageItem? {
        Emit(TextDelta(seqNo + 1, m.item.id, m.index, delta));
      } else {
        Emit(ReasoningDelta(seqNo + 1, m.item.id, m.index, delta));
      }
    }

    /** Closes the item that is open, if any, and opens a reasoning item. */
    method SwitchToReasoning()
      requires Wire() && IdsKept(stable, client.ids, tools, toolOrder)
      modifies `frames, `client, `seqNo, `partOpen, `itemOpen, `current, `itemIndex, `stable, `drawn
      ensures Wire() && IdsKept(stable, client.ids, tools, toolOrder)
      ensures itemOpen && current.value.item.ReasoningItem? && WellNamed(current.value.item)
      ensures client.ids == WithId(old(client.ids), current.value.item)
      ensures client.pieces == WithDone(old(client.pieces), old(itemOpen), c.finishReason) + [Opened(Thinking)]
      ensures SaidMessage(client, current) == old(SaidMessage(client, current))
      ensures SaidReasoning(client, current) == old(SaidReasoning(client, current))
      ensures stable == old(stable)[ReasoningKey := current.value.item.id]
    {
      hide Replay, Expects, Read, InStep, IdsKept, SaidMessage, SaidReasoning;
      CloseItem();
      OpenReasoningItem();
      KeepId(old(stable), ReasoningKey, current.value.item, old(client.ids), tools, toolOrder);
    }

    /** Sends one reasoning increment; a reasoning item is opened unless one is open. */
    method ShowReasoning(delta: string)
      requires Presents(heard) && c.finishReason == KeptFinish(heard)
      modifies `frames, `client, `seqNo, `partOpen, `itemOpen, `current, `itemIndex, `stable, `drawn
      ensures Presents(heard + [Reasoning(delta)]) && ReasoningKey in stable
      ensures SaidReasoning(client, current) == old(SaidReasoning(client, current)) + delta
      ensures SaidMessage(client, current) == old(SaidMessage(client, current))
      ensures forall key :: key in old(stable) ==> key in stable
    {
      hide Replay, Expects, Read, InStep, Transcript, OpenKind, Shows, WithDone, IdsKept, SaidMessage, SaidReasoning,
           KeptFinish, Announces, WithId, WellNamed;
      ReasoningStep(heard, current, partOpen, c.finishReason, delta);
      AnnouncesNothing(client.ids.items, heard, Reasoning(delta));
      if !itemOpen || current.None? || !current.value.item.ReasoningItem? {
        SwitchToReasoning();
        AnnouncesText(old(client.ids.items), heard + [Reasoning(delta)], current.value.item);
        WithIdFields(old(client.ids), current.value.item);
      }
      Append(delta);
    }

    /** Carries one reasoning increment. */
    method OnReasoning(delta: string)
      requires Valid()
      modifies this
      ensures Valid() && heard == old(heard) + [Reasoning(delta)]
    {
      hide Presents, Booked, SaidMessage, SaidReasoning;
      BookedEnd(c, tools, toolOrder, heard);
      BookedOther(c, tools, toolOrder, heard, Reasoning(delta));
      c := c.(reasoning := c.reasoning + delta);
      ShowReasoning(delta);
      heard := heard + [Reasoning(delta)];
    }

    /** Closes the item that is open, if any, and opens a message item. */
    method SwitchToText()
      requires Wire() && IdsKept(stable, client.ids, tools, toolOrder)
      modifies `frames, `client, `seqNo, `partOpen, `itemOpen, `current, `itemIndex, `stable, `drawn
      ensures Wire() && IdsKept(stable, client.ids, tools, toolOrder)
      ensures itemOpen && current.value.item.MessageItem? && partOpen && WellNamed(current.value.item)
      ensures client.ids == WithId(old(client.ids), current.value.item)
      ensures client.pieces == WithDone(old(client.pieces), old(itemOpen), c.finishReason) + [Opened(Message)]
      ensures SaidMessage(client, current) == old(SaidMessage(client, current))
      ensures SaidReasoning(client, current) == old(SaidReasoning(client, current))
      ensures stable == old(stable)[MessageKey := current.value.item.id]
    {
      hide Replay, Expects, Read, InStep, IdsKept, SaidMessage, SaidReasoning;
      CloseItem();
      OpenTextItem();
      KeepId(old(stable), MessageKey, current.value.item, old(client.ids), tools, toolOrder);
    }

    /** Sends one text increment; a message item is opened unless one with an open part is open. */
    method ShowText(delta: string)
      requires Presents(heard) && c.finishReason == KeptFinish(heard)
      modifies `frames, `client, `seqNo, `partOpen, `itemOpen, `current, `itemIndex, `stable, `drawn
      ensures Presents(heard + [Text(delta)]) && MessageKey in stable
      ensures SaidMessage(client, current) == old(SaidMessage(client, current)) + delta
      ensures SaidReasoning(client, current) == old(SaidReasoning(client, current))
      ensures forall key :: key in old(stable) ==> key in stable
    {
      hide Replay, Expects, Read, InStep, Transcript, OpenKind, Shows, WithDone, IdsKept, SaidMessage, SaidReasoning,
           KeptFinish, Announces, WithId, WellNamed;
      TextStep(heard, current, partOpen, c.finishReason, delta);
      AnnouncesNothing(client.ids.items, heard, Text(delta));
      if !itemOpen || current.None? || !current.value.item.MessageItem? || !partOpen {
        SwitchToText();
        AnnouncesText(old(client.ids.items), heard + [Text(delta)], current.value.item);
        WithIdFields(old(client.ids), current.value.item);
      }
      Append(delta);
    }

    /** Carries one text increment. */
    method OnText(delta: string)
      requires Valid()
      modifies this
      ensures Valid() && heard == old(heard) + [Text(delta)]
    {
      hide Presents, Booked, SaidMessage, SaidReasoning;
      BookedEnd(c, tools, toolOrder, heard);
      BookedOther(c, tools, toolOrder, heard, Text(delta));
      c := c.(content := c.content + delta);
      ShowText(delta);
      heard := heard + [Text(delta)];
    }

    /** Announces a tool item at the next output index. */
    method AnnounceTool(t: int, m: ToolMeta)
      requires Wire() && !itemOpen && !partOpen && IdsKept(stable, client.ids, tools, toolOrder)
      requires t !in tools && m.index == itemIndex + 1 && m.args == "" && m.fcId != ""
      modifies `frames, `client, `seqNo, `itemIndex, `tools, `toolOrder, `stable, `at
      ensures Wire() && IdsKept(stable, client.ids, tools, toolOrder)
      ensures tools == old(tools)[t := m] && toolOrder == old(toolOrder) + [t]
      ensures client.message == old(client.message) && client.reasoning == old(client.reasoning)
      ensures client.pieces == old(client.pieces) + [Opened(Call)]
      ensures client.ids == WithId(old(client.ids), CallItem(m.fcId, m.callId, m.name))
      ensures stable == old(stable)[CallKey(|old(toolOrder)|) := m.fcId]
    {
      hide Replay, Expects, Read, InStep, Transcript, OpenKind, Shows, WithDone, IdsKept;
      ToolOpenedInStep(client, t, m, tools, toolOrder, at);
      KeepCallId(stable, client.ids, tools, toolOrder, t, m);
      itemIndex := itemIndex + 1;
      at := at[itemIndex := |toolOrder|];
      tools := tools[t := m];
      toolOrder := toolOrder + [t];
      stable := stable[CallKey(|toolOrder| - 1) := m.fcId];
      Emit(ItemAdded(seqNo + 1, m.index, CallItem(m.fcId, m.callId, m.name)));
    }

    /** Opens the tool item of an index seen for the first time. */
    method OpenTool(tc: ToolCallDelta)
      requires Wire() && !itemOpen && !partOpen && IdsKept(stable, client.ids, tools, toolOrder)
      requires tc.index !in tools
      modifies `frames, `client, `seqNo, `itemIndex, `drawn, `tools, `toolOrder, `stable, `at
      ensures Wire() && IdsKept(stable, client.ids, tools, toolOrder)
      ensures tc.index in tools && tools == old(tools)[tc.index := tools[tc.index]]
      ensures FirstMeta(tools[tc.index], tc) && toolOrder == old(toolOrder) + [tc.index]
      ensures client.message == old(client.message) && client.reasoning == old(client.reasoning)
      ensures client.pieces == old(client.pieces) + [Opened(Call)]
      ensures exists item: Item ::
                AnnouncesDelta(item, tc) && WellNamed(item) && client.ids == WithId(old(client.ids), item)
      ensures forall key: IdKey :: !key.CallKey? && key in old(stable) ==> key in stable
    {
      hide Replay, Expects, Read, InStep, Transcript, OpenKind, Shows, WithDone, IdsKept;
      var callId := tc.id;
      if callId == "" {
        callId := NewId("call_");
      }
      var fcId := NewId("fc_");
      AnnounceTool(tc.index, ToolMeta(fcId, callId, tc.name, itemIndex + 1, ""));
      assert AnnouncesDelta(CallItem(fcId, callId, tc.name), tc) && WellNamed(CallItem(fcId, callId, tc.name));
    }

    /** Closes a running text or reasoning item, leaving other tool items alone, and makes sure the
        delta's tool item is open. */
    method PrepareTool(tc: ToolCallDelta)
      requires Wire() && IdsKept(stable, client.ids, tools, toolOrder)
      modifies `frames, `client, `seqNo, `partOpen, `itemOpen, `current, `itemIndex, `drawn, `tools, `toolOrder,
               `stable, `at
      ensures Wire() && IdsKept(stable, client.ids, tools, toolOrder) && !itemOpen && !partOpen
      ensures var closed := WithDone(old(client.pieces), old(itemOpen), c.finishReason);
              client.pieces == if tc.index in old(tools) then closed else closed + [Opened(Call)]
      ensures if tc.index in old(tools) then client.ids == old(client.ids)
              else exists item: Item ::
                     AnnouncesDelta(item, tc) && WellNamed(item) && client.ids == WithId(old(client.ids), item)
      ensures tc.index in tools && tools == old(tools)[tc.index := tools[tc.index]]
      ensures if tc.index in old(tools) then tools == old(tools) && toolOrder == old(toolOrder)
              else FirstMeta(tools[tc.index], tc) && toolOrder == old(toolOrder) + [tc.index]
      ensures SaidMessage(client, current) == old(SaidMessage(client, current))
      ensures SaidReasoning(client, current) == old(SaidReasoning(client, current))
      ensures forall key: IdKey :: !key.CallKey? && key in old(stable) ==> key in stable
    {
      hide Replay, Expects, Read, InStep, IdsKept, FirstMeta, StatusOf, WithId, AnnouncesDelta, WellNamed;
      if itemOpen && current.Some? {
        CloseItem();
      }
      PartOpenInStep(client, current, partOpen, tools, toolOrder, at);
      if tc.index !in tools {
        OpenTool(tc);
      }
    }

    /** Carries one tool-call increment. */
    method OnToolCall(tc: ToolCallDelta)
      requires Valid()
      modifies this
      ensures Valid() && heard == old(heard) + [ToolCall(tc)]
    {
      hide Booked, IdsKept, InStep, Replay, Transcript, OpenKind, Shows, SaidMessage, SaidReasoning, FirstMeta,
           MergeMeta,
           WithCall;
      BookedEnd(c, tools, toolOrder, heard);
      ToolsTracked(client, current, partOpen, tools, toolOrder, at);
      ghost var m := ShowTool(tc);
      BookedToolDelta(old(c), old(tools), old(toolOrder), heard, tc, m);
      WithCallFields(old(c), tc, m.callId);
      heard := heard + [ToolCall(tc)];
    }

    /** Makes sure the delta's tool item is open, books the delta and sends the increment; m is the tool's
        record before it. */
    method ShowTool(tc: ToolCallDelta) returns (ghost m: ToolMeta)
      requires Presents(heard) && c.finishReason == KeptFinish(heard) && toolOrder == ToolIndexes(heard)
      requires forall t :: t in tools <==> t in toolOrder
      modifies `c, `frames, `client, `seqNo, `partOpen, `itemOpen, `current, `itemIndex, `drawn, `tools, `toolOrder,
               `stable, `at
      ensures Presents(heard + [ToolCall(tc)]) && c == WithCall(old(c), tc, m.callId)
      ensures tools == old(tools)[tc.index := MergeMeta(m, tc)]
      ensures if tc.index in old(tools) then m == old(tools)[tc.index] && toolOrder == old(toolOrder)
              else FirstMeta(m, tc) && toolOrder == old(toolOrder) + [tc.index]
      ensures SaidMessage(client, current) == old(SaidMessage(client, current))
      ensures SaidReasoning(client, current) == old(SaidReasoning(client, current))
      ensures forall key: IdKey :: !key.CallKey? && key in old(stable) ==> key in stable
    {
      hide Replay, Expects, Read, InStep, Transcript, OpenKind, Shows, WithDone, WithArgs, IdsKept, FirstMeta,
           MergeMeta,
           SaidMessage, SaidReasoning, ToolIndexes, KeptFinish, WithCall, Announces, AnnouncesDelta, WellNamed, WithId;
      ToolStep(heard, current, partOpen, c.finishReason, tc);
      PrepareTool(tc);
      if tc.index in old(tools) {
        AnnouncesNothing(client.ids.items, heard, ToolCall(tc));
      } else {
        var item: Item :| AnnouncesDelta(item, tc) && WellNamed(item) && client.ids == WithId(old(client.ids), item);
        AnnouncesCall(old(client.ids.items), heard, tc, item);
        WithIdFields(old(client.ids), item);
      }
      m := tools[tc.index];
      BookCall(tc, tools[tc.index].callId);
      UpdateTool(tc);
    }

    /** Merges the delta into the accumulator of the final object. */
    method BookCall(tc: ToolCallDelta, callId: string)
      modifies `c
      ensures c == WithCall(old(c), tc, callId)
    {
      var acc := ToolCallAcc(callId, "function", tc.name, "");
      if tc.index in c.toolCalls {
        acc := c.toolCalls[tc.index];
      } else {
        c := c.(toolOrder := c.toolOrder + [tc.index]);
      }
      c := c.(toolCalls := c.toolCalls[tc.index := MergeCall(acc, tc)]);
    }

    /** Updates a tool's record and sends its argument increment, if there is one. */
    method UpdateTool(tc: ToolCallDelta)
      requires Wire() && !itemOpen && !partOpen && IdsKept(stable, client.ids, tools, toolOrder)
      requires tc.index in tools
      modifies `frames, `client, `seqNo, `tools
      ensures Wire() && IdsKept(stable, client.ids, tools, toolOrder)
      ensures tools == old(tools)[tc.index := MergeMeta(old(tools)[tc.index], tc)]
      ensures client.pieces == WithArgs(old(client.pieces), tc.arguments) && client.ids == old(client.ids)
      ensures SaidMessage(client, current) == old(SaidMessage(client, current))
      ensures SaidReasoning(client, current) == old(SaidReasoning(client, current))
    {
      hide Replay, Expects, Read, InStep, Transcript, OpenKind, Shows, WithDone;
      var m := MergeMeta(tools[tc.index], tc);
      if tc.arguments == "" {
        ToolRenamedInStep(client, tc.index, m, tools, toolOrder, at);
      } else {
        ToolGrownInStep(client, tc.index, m, tc.arguments, tools, toolOrder, at);
      }
      tools := tools[tc.index := m];
      if tc.arguments != "" {
        Emit(ArgsDelta(seqNo + 1, m.fcId, m.index, tc.arguments));
      }
    }

    /** The callback given to the upstream call. */
    method OnEvent(e: StreamEvent) returns (err: Option<string>)
      requires Valid()
      modifies this
      ensures Valid() && err == (if Aborts(e) then e.err else None)
      ensures heard == if Aborts(e) then old(heard) else old(heard) + [e]
    {
      hide Replay, Expects, Read, InStep, Transcript, OpenKind, Shows, WithDone, Booked, IdsKept, SaidMessage,
           SaidReasoning, Announces;
      err := None;
      match e {
        case Reasoning(delta) => OnReasoning(delta);
        case Text(delta) => OnText(delta);
        case ToolCall(tc) => OnToolCall(tc);
        case Finish(reason) => OnFinish(reason);
        case UsageReport(usage) => OnUsage(usage);
        case Error(Some(message)) => err := Some(message);
        case _ =>
          BookedOther(c, tools, toolOrder, heard, e);
          OtherStep(heard, e);
          AnnouncesNothing(client.ids.items, heard, e);
          heard := heard + [e];
      }
    }

    /** The end of an error-free stream: the open item, every tool item in order, the final object. */
    method Complete() returns (res: Response)
      requires Valid()
      modifies this
      ensures Replay(frames) == Some(client) && client.phase == Ended(res)
      ensures Faithful(res, client, heard) && client.pieces == WholeTranscript(heard) && heard == old(heard)
      ensures res.id == respId && res.model == model
      ensures Announces(client.ids.items, heard) && client.ids.response == respId && client.ids.model == model
    {
      hide Replay, InStep, Transcript, OpenKind, Shows, WithDone, Booked, IdsKept, Faithful, DoneCalls, WithCallsDone,
           WholeTranscript, Announces, ToolIndexes, CallStatus, SaidMessage, SaidReasoning, KeptFinish;
      BookedEnd(c, tools, toolOrder, heard);
      EndStep(heard, current, partOpen, c.finishReason);
      CloseItem();
      CloseTools();
      res := FinalObject();
      SendEnd(res);
    }

    /** Ends every tool item, in order of first appearance. */
    method CloseTools()
      requires Wire() && !itemOpen && !partOpen
      modifies `frames, `client, `seqNo
      ensures Replay(frames) == Some(client) && client.phase.Live? && client.lastSeq == seqNo && client.open == map[]
      ensures DoneCalls(client.calls, |toolOrder|, tools, toolOrder, CallStatus(c.finishReason))
      ensures client.pieces == WithCallsDone(old(client.pieces), |toolOrder|, CallStatus(c.finishReason))
      ensures client.ids == old(client.ids)
      ensures SaidMessage(client, None) == old(SaidMessage(client, current))
      ensures SaidReasoning(client, None) == old(SaidReasoning(client, current))
    {
      hide Replay, Expects, Read, InStep, Draining, DoneCalls, WithCallsDone, CallStatus;
      DrainingStarts(client, tools, toolOrder, at);
      ghost var was := client;
      CallDoneStep(was.pieces, 0, CallStatus(c.finishReason));
      for i := 0 to |toolOrder|
        invariant Replay(frames) == Some(client) && client.phase.Live? && client.lastSeq == seqNo
        invariant Draining(client, i, tools, toolOrder, at)
        invariant DoneCalls(client.calls, i, tools, toolOrder, CallStatus(c.finishReason))
        invariant client.pieces == WithCallsDone(was.pieces, i, CallStatus(c.finishReason))
        invariant client.message == was.message && client.reasoning == was.reasoning && client.ids == was.ids
        modifies `frames, `client, `seqNo
      {
        CallDoneStep(was.pieces, i, CallStatus(c.finishReason));
        ToolPresent(client, i, tools, toolOrder, at);
        var m := tools[toolOrder[i]];
        var status := CallStatus(c.finishReason);
        var out := OutCall(m.fcId, status, m.callId, m.name, m.args);
        DrainingStep(client, i, out, tools, toolOrder, at);
        Emit(ItemDone(seqNo + 1, m.index, out));
      }
      DrainingEnds(client, tools, toolOrder, at);
    }

    /** The response object, once all items are done. */
    method FinalObject() returns (res: Response)
      requires Booked(c, tools, toolOrder, heard) && IdsKept(stable, client.ids, tools, toolOrder)
      requires DoneCalls(client.calls, |toolOrder|, tools, toolOrder, CallStatus(c.finishReason))
      requires SaidMessage(client, None) == c.content && SaidReasoning(client, None) == c.reasoning
      requires (c.content != "" ==> MessageKey in stable) && (c.reasoning != "" ==> ReasoningKey in stable)
      ensures Faithful(res, client, heard) && res.id == respId && res.model == model
    {
      hide Booked, IdsKept, DoneCalls, StatusOf, IsOutputOf, Faithful, CallStatus, SaidMessage, SaidReasoning;
      BookedKeys(c, tools, toolOrder, heard);
      DoneCallsTracked(client.calls, tools, toolOrder, CallStatus(c.finishReason));
      res := ResponseObject(respId, model, c, stable, uuids, drawn);
      FaithfulAtEnd(res, client, c, stable, tools, toolOrder, heard);
    }

    /** response.done, then the terminal event of the object's status. */
    method SendEnd(res: Response)
      requires Replay(frames) == Some(client) && client.phase.Live? && client.lastSeq == seqNo && client.open == map[]
      requires Faithful(res, client, heard) && res.id == client.ids.response && res.model == client.ids.model
      modifies `frames, `client, `seqNo
      ensures Replay(frames) == Some(client) && client.phase == Ended(res)
      ensures Faithful(res, client, heard) && client.pieces == old(client.pieces) && client.ids == old(client.ids)
    {
      hide Replay, Expects, Read, Faithful;
      EndFrames(client, res);
      FaithfulIgnoresPhase(res, client, heard);
      Emit(DoneFrame(seqNo + 1, res));
      if res.status == Completed {
        Emit(CompletedFrame(seqNo + 1, res));
      } else {
        Emit(IncompleteFrame(seqNo + 1, res));
      }
    }

    /** The end of a stream whose upstream call failed. */
    method Fail(message: string)
      requires Valid()
      modifies `frames, `client, `seqNo
      ensures Replay(frames) == Some(client) && client.phase == Failed(message) && client.pieces == Transcript(heard)
      ensures Announces(client.ids.items, heard) && client.ids.response == respId && client.ids.model == model
    {
      Emit(FailedFrame(seqNo + 1, respId, message));
    }

    method OnFinish(reason: string)
      requires Valid()
      modifies `c, `heard
      ensures Valid() && heard == old(heard) + [Finish(reason)]
    {
      hide Replay, InStep, IdsKept, Booked, Transcript, OpenKind, Shows, WithDone, Announces;
      BookedOther(c, tools, toolOrder, heard, Finish(reason));
      OtherStep(heard, Finish(reason));
      AnnouncesNothing(client.ids.items, heard, Finish(reason));
      if c.finishReason == "" || (reason != "stop" && reason != "") {
        c := c.(finishReason := reason);
      }
      heard := heard + [Finish(reason)];
    }

    method OnUsage(usage: Option<Usage>)
      requires Valid()
      modifies `c, `heard
      ensures Valid() && heard == old(heard) + [UsageReport(usage)]
    {
      hide Replay, InStep, IdsKept, Booked, Transcript, OpenKind, Shows, WithDone, Announces;
      BookedOther(c, tools, toolOrder, heard, UsageReport(usage));
      OtherStep(heard, UsageReport(usage));
      AnnouncesNothing(client.ids.items, heard, UsageReport(usage));
      c := c.(usage := usage);
      heard := heard + [UsageReport(usage)];
    }
  }

  /** The whole streaming handler: one callback per upstream event until one aborts, then the end. */
  method HandleStreaming(es: seq<StreamEvent>, transport: Option<string>, respId: string, model: string, uuids: Uuids)
    returns (frames: seq<Frame>)
    ensures Replay(frames).Some? && frames != [] && frames[0] == CreatedFrame(1, respId, model)
    ensures Announces(AnnouncedItems(frames), Heard(es))
    ensures Fault(es, transport).None? ==>
              var client := Replay(frames).value;
              && client.pieces == WholeTranscript(es)
              && client.phase.Ended? && Faithful(client.phase.response, client, es)
              && client.phase.response.id == respId && client.phase.response.model == model
    ensures Fault(es, transport).Some? ==>
              var client := Replay(frames).value;
              client.phase == Failed(Fault(es, transport).value) && client.pieces == Transcript(Heard(es))
  {
    hide Heard, Stream.Valid, Faithful, Replay, Transcript, WholeTranscript, Announces, AnnouncedItems;
    var s := new Stream(respId, model, uuids);
    assert es[..0] == [];
    for i := 0 to |es|
      invariant fresh(s) && s.Valid() && s.respId == respId && s.model == model
      invariant forall k :: 0 <= k < i ==> !Aborts(es[k])
      invariant s.heard == es[..i]
    {
      HeardSoFar(es, i);
      var err := s.OnEvent(es[i]);
      if err.Some? {
        s.Fail(err.value);
        ClientAnnounced(s.frames);
        EndedIsNotEmpty(s.frames);
        return s.frames;
      }
    }
    assert Heard(es) == es && es[..|es|] == es;
    if transport.Some? {
      s.Fail(transport.value);
    } else {
      var res := s.Complete();
    }
    ClientAnnounced(s.frames);
    EndedIsNotEmpty(s.frames);
    frames := s.frames;
  }

  lemma {:induction false} EndedIsNotEmpty(frames: seq<Frame>)
    requires Replay(frames).Some? && !Replay(frames).value.phase.Start?
    ensures frames != []
  {
  }

  /** The non-streaming handler: collect everything, then build the object with fresh ids. */
  method HandleNonStreaming(es: seq<StreamEvent>, transport: Option<string>, respId: string, model: string,
                            uuids: Uuids)
    returns (res: Option<Response>, err: Option<string>)
    ensures err == Fault(es, transport) && res.Some? == err.None?
    ensures res.Some? ==> AnswersWith(res.value, es) && res.value.id == respId && res.value.model == model
  {
    hide StatusOf, IsOutputOf, AnswersWith, Heard;
    var c;
    c, err := CollectEvents(es, transport);
    if err.Some? {
      return None, err;
    }
    assert Heard(es) == es;
    AccountsOrder(c, es);
    var r := ResponseObject(respId, model, c, map[], uuids, 0);
    res := Some(r);
    Answered(r, c, es);
  }

  lemma {:induction false} AccountsOrder(c: Collected, es: seq<StreamEvent>)
    requires Accounts(c, es)
    ensures forall k :: 0 <= k < |c.toolOrder| ==> c.toolOrder[k] in c.toolCalls
  {
    assert forall k :: 0 <= k < |c.toolOrder| ==> c.toolOrder[k] in c.toolOrder;
  }

  /** The object says what the events said: all reasoning, all text, every tool call. */
  ghost predicate AnswersWith(res: Response, es: seq<StreamEvent>) {
    var r := if AllReasoning(es) != "" then 1 else 0;
    var m := if AllText(es) != "" then r + 1 else r;
    && (res.status, res.details) == StatusOf(LastFinish(es, ""))
    && res.usage == (if LastUsage(es).Some? then LastUsage(es).value else Usage(0, 0, 0))
    && |res.output| == m + |ToolIndexes(es)|
    && (AllReasoning(es) != "" ==>
          res.output[0] == OutReasoning(res.output[0].id, res.status, None, AllReasoning(es))
          && "rs_" <= res.output[0].id)
    && (AllText(es) != "" ==>
          res.output[r] == OutMessage(res.output[r].id, res.status, None, AllText(es)) && "msg_" <= res.output[r].id)
    && forall k :: 0 <= k < |ToolIndexes(es)| ==> IsToolOutput(res.output[m + k], res.status, ToolIndexes(es)[k], es)
  }

  ghost predicate IsToolOutput(out: OutItem, status: Status, t: int, es: seq<StreamEvent>) {
    out == OutCall(out.id, status, ToolId(es, t), ToolName(es, t), ToolArguments(es, t)) && "fc_" <= out.id
  }

  lemma {:induction false} Answered(res: Response, c: Collected, es: seq<StreamEvent>)
    requires Accounts(c, es) && IsOutputOf(res.output, c, map[])
    requires (res.status, res.details) == StatusOf(c.finishReason)
    requires res.usage == if c.usage.Some? then c.usage.value else Usage(0, 0, 0)
    ensures AnswersWith(res, es)
  {
    hide StatusOf, AllText, AllReasoning, LastFinish, LastUsage, ToolIndexes, ToolArguments, ToolName, ToolId,
         ToolType;
    var r := if AllReasoning(es) != "" then 1 else 0;
    var m := if AllText(es) != "" then r + 1 else r;
    forall k | 0 <= k < |ToolIndexes(es)|
      ensures IsToolOutput(res.output[m + k], res.status, ToolIndexes(es)[k], es)
    {
      assert IsCallOutput(res.output[m + k], c, c.toolOrder[k], CallKey(k), map[]);
    }
  }

  lemma {:induction false} CreatedIsRead(respId: string, model: string)
    ensures Replay([CreatedFrame(1, respId, model)])
            == Some(NEW_CLIENT.(phase := Live, lastSeq := 1,
                                ids := NEW_CLIENT.ids.(response := respId, model := model)))
  {
    ReplaySnoc([], NEW_CLIENT, CreatedFrame(1, respId, model));
    assert [] + [CreatedFrame(1, respId, model)] == [CreatedFrame(1, respId, model)];
  }

  lemma {:induction false} NothingYet(client: Client)
    requires client.open == map[] && client.message == "" && client.reasoning == "" && client.ids.items == []
    ensures InStep(client, None, false, map[], [], map[]) && Booked(EMPTY, map[], [], [])
    ensures IdsKept(map[], client.ids, map[], []) && Transcript([]) == [] && Shows(None, false, OpenKind([]))
    ensures SaidMessage(client, None) == "" && SaidReasoning(client, None) == "" && Announces(client.ids.items, [])
  {
  }

  lemma {:induction false} WithIdFields(ids: Ids, item: Item)
    ensures var more := WithId(ids, item);
            more.items == ids.items + [item] && more.response == ids.response && more.model == ids.model
  {
  }

  lemma {:induction false} KeepId(stable: map<IdKey, string>, key: IdKey, item: Item, ids: Ids,
               tools: map<int, ToolMeta>, order: seq<int>)
    requires IdsKept(stable, ids, tools, order) && item.id != ""
    requires (key.MessageKey? && item.MessageItem?) || (key.ReasoningKey? && item.ReasoningItem?)
    ensures IdsKept(stable[key := item.id], WithId(ids, item), tools, order)
  {
  }

  /** A new item has said nothing yet; what a client has read of the channels depends only on the done texts. */
  lemma {:induction false} SaidNothing(client: Client, current: Option<ItemMeta>, item: Item, index: int)
    requires current.None?
    ensures forall c: Client :: c.message == client.message && c.reasoning == client.reasoning ==>
              SaidMessage(c, Some(ItemMeta(item, index, ""))) == SaidMessage(client, current)
              && SaidReasoning(c, Some(ItemMeta(item, index, ""))) == SaidReasoning(client, current)
  {
  }

  /** Announcing a text or reasoning item while none is open. */
  lemma {:induction false} OpenedInStep(client: Client, item: Item, tools: map<int, ToolMeta>, order: seq<int>,
                                        at: map<int, nat>)
    requires InStep(client, None, false, tools, order, at) && client.phase.Live? && !item.CallItem?
    ensures var f := ItemAdded(client.lastSeq + 1, client.nextIndex, item);
            && Expects(client, f)
            && InStep(Read(client, f), Some(ItemMeta(item, client.nextIndex, "")), false, tools, order, at)
            && Read(client, f) == client.(lastSeq := client.lastSeq + 1, nextIndex := client.nextIndex + 1,
                                          open := client.open[client.nextIndex := OpenItem(item, "", false)],
                                          ids := WithId(client.ids, item),
                                          pieces := client.pieces + [Opened(KindOf(item))])
  {
    forall i | i in client.open ensures client.open[i].item.CallItem? {
      assert ToolOpen(client, order[at[i]], tools[order[at[i]]], order, at);
    }
  }

  /** Announcing the content part of a message item that was just opened. */
  lemma {:induction false} PartInStep(client: Client, m: ItemMeta, tools: map<int, ToolMeta>, order: seq<int>,
                                      at: map<int, nat>)
    requires InStep(client, Some(m), false, tools, order, at) && client.phase.Live?
    requires m.item.MessageItem? && m.text == ""
    ensures var f := PartAdded(client.lastSeq + 1, m.item.id, m.index);
            && Expects(client, f) && InStep(Read(client, f), Some(m), true, tools, order, at)
            && Read(client, f) == client.(lastSeq := client.lastSeq + 1, open := Read(client, f).open)
  {
  }

  lemma {:induction false} PartOpenInStep(client: Client, current: Option<ItemMeta>, partOpen: bool,
                       tools: map<int, ToolMeta>, order: seq<int>, at: map<int, nat>)
    requires InStep(client, current, partOpen, tools, order, at)
    ensures partOpen ==> current.Some? && current.value.item.MessageItem?
    ensures current.Some? ==> !current.value.item.CallItem?
  {
  }

  lemma {:induction false} PartClosedInStep(client: Client, m: ItemMeta, tools: map<int, ToolMeta>, order: seq<int>,
                                            at: map<int, nat>)
    requires InStep(client, Some(m), true, tools, order, at) && client.phase.Live?
    ensures var f := PartDone(client.lastSeq + 1, m.item.id, m.index, m.text);
            && Expects(client, f) && InStep(Read(client, f), Some(m), false, tools, order, at)
            && Read(client, f) == client.(lastSeq := client.lastSeq + 1, open := Read(client, f).open)
  {
  }

  lemma {:induction false} GrownInStep(client: Client, m: ItemMeta, partOpen: bool, delta: string,
                    tools: map<int, ToolMeta>, order: seq<int>, at: map<int, nat>)
    requires InStep(client, Some(m), partOpen, tools, order, at) && client.phase.Live?
    requires m.item.MessageItem? ==> partOpen
    ensures var f := if m.item.MessageItem? then TextDelta(client.lastSeq + 1, m.item.id, m.index, delta)
                     else ReasoningDelta(client.lastSeq + 1, m.item.id, m.index, delta);
            && Expects(client, f)
            && InStep(Read(client, f), Some(m.(text := m.text + delta)), partOpen, tools, order, at)
            && Read(client, f)
               == client.(lastSeq := client.lastSeq + 1, open := Read(client, f).open,
                          pieces := client.pieces
                                    + [if m.item.MessageItem? then TextPiece(delta) else ReasoningPiece(delta)])
  {
  }

  lemma {:induction false} ClosedInStep(client: Client, m: ItemMeta, out: OutItem,
                     tools: map<int, ToolMeta>, order: seq<int>, at: map<int, nat>)
    requires InStep(client, Some(m), false, tools, order, at) && client.phase.Live?
    requires out.id == m.item.id && !out.OutCall? && out.text == m.text
    requires out.OutReasoning? == m.item.ReasoningItem?
    ensures var f := ItemDone(client.lastSeq + 1, m.index, out);
            && Expects(client, f) && InStep(Read(client, f), None, false, tools, order, at)
            && Read(client, f)
               == client.(lastSeq := client.lastSeq + 1, open := Read(client, f).open,
                          message := SaidMessage(client, Some(m)), reasoning := SaidReasoning(client, Some(m)),
                          pieces := client.pieces + [DonePiece(out.status, out.details)])
  {
    assert client.message + "" == client.message && client.reasoning + "" == client.reasoning;
    var c := Read(client, ItemDone(client.lastSeq + 1, m.index, out));
    forall t | t in tools ensures ToolOpen(c, t, tools[t], order, at) {
      assert ToolOpen(client, t, tools[t], order, at);
    }
  }

  // ---- Tool items ----

  /** The record made from the first delta of an index. */
  ghost predicate FirstMeta(m: ToolMeta, tc: ToolCallDelta) {
    && m.args == "" && m.name == tc.name
    && (if tc.id != "" then m.callId == tc.id else "call_" <= m.callId)
  }

  function MergeMeta(m: ToolMeta, tc: ToolCallDelta): ToolMeta {
    var acc := MergeDelta(ToolCallAcc(m.callId, "function", m.name, m.args), tc);
    m.(callId := acc.id, name := acc.name, args := acc.args)
  }

  /** This adapter keeps the type a call began with. */
  function MergeCall(acc: ToolCallAcc, tc: ToolCallDelta): ToolCallAcc {
    MergeDelta(acc, tc).(typ := acc.typ)
  }

  /** The accumulator with one more delta; the first one of an index takes the call id of its item. */
  function WithCall(c: Collected, tc: ToolCallDelta, callId: string): Collected {
    if tc.index in c.toolCalls then
      c.(toolCalls := c.toolCalls[tc.index := MergeCall(c.toolCalls[tc.index], tc)])
    else
      c.(toolOrder := c.toolOrder + [tc.index],
         toolCalls := c.toolCalls[tc.index := MergeCall(ToolCallAcc(callId, "function", tc.name, ""), tc)])
  }

  lemma {:induction false} WithCallFields(c: Collected, tc: ToolCallDelta, callId: string)
    ensures var d := WithCall(c, tc, callId); d.content == c.content && d.reasoning == c.reasoning
  {
  }

  lemma {:induction false} ToolOpenedInStep(client: Client, t: int, m: ToolMeta,
                         tools: map<int, ToolMeta>, order: seq<int>, at: map<int, nat>)
    requires InStep(client, None, false, tools, order, at) && client.phase.Live?
    requires t !in tools && m.index == client.nextIndex && m.args == ""
    ensures var f := ItemAdded(client.lastSeq + 1, m.index, CallItem(m.fcId, m.callId, m.name));
            && Expects(client, f)
            && InStep(Read(client, f), None, false, tools[t := m], order + [t], at[m.index := |order|])
            && Read(client, f) == client.(lastSeq := client.lastSeq + 1, nextIndex := client.nextIndex + 1,
                                          open := Read(client, f).open,
                                          ids := WithId(client.ids, CallItem(m.fcId, m.callId, m.name)),
                                          pieces := client.pieces + [Opened(Call)])
  {
    var c := Read(client, ItemAdded(client.lastSeq + 1, m.index, CallItem(m.fcId, m.callId, m.name)));
    var tools', order', at' := tools[t := m], order + [t], at[m.index := |order|];
    forall u | u in tools' ensures ToolOpen(c, u, tools'[u], order', at') {
      if u != t {
        assert ToolOpen(client, u, tools[u], order, at);
      }
    }
    forall i | i in at' ensures at'[i] < |order'| && order'[at'[i]] in tools' && tools'[order'[at'[i]]].index == i {
      if i != m.index {
        assert order[at[i]] in tools;
      }
    }
  }

  lemma {:induction false} ToolGrownInStep(client: Client, t: int, m: ToolMeta, delta: string,
                        tools: map<int, ToolMeta>, order: seq<int>, at: map<int, nat>)
    requires InStep(client, None, false, tools, order, at) && client.phase.Live?
    requires t in tools && m == tools[t].(callId := m.callId, name := m.name, args := tools[t].args + delta)
    ensures var f := ArgsDelta(client.lastSeq + 1, m.fcId, m.index, delta);
            && Expects(client, f)
            && InStep(Read(client, f), None, false, tools[t := m], order, at)
            && Read(client, f) == client.(lastSeq := client.lastSeq + 1, open := Read(client, f).open,
                                          pieces := client.pieces + [ArgsPiece(delta)])
  {
    assert ToolOpen(client, t, tools[t], order, at);
    var f := ArgsDelta(client.lastSeq + 1, m.fcId, m.index, delta);
    OnlyToolsOpen(client, tools, order, at);
    ArgsRead(client, f);
    ToolUpdated(client, Read(client, f), t, m, delta, tools, order, at);
  }

  lemma {:induction false} OnlyToolsOpen(client: Client, tools: map<int, ToolMeta>, order: seq<int>, at: map<int,
                                         nat>)
    requires InStep(client, None, false, tools, order, at)
    ensures NoTextItemOpen(client)
  {
    forall i | i in client.open ensures client.open[i].item.CallItem? {
      assert ToolOpen(client, order[at[i]], tools[order[at[i]]], order, at);
    }
  }

  lemma {:induction false} ArgsRead(client: Client, f: Frame)
    requires f.ArgsDelta? && f.seqNo == client.lastSeq + 1 && client.phase.Live?
    requires Names(client, f.index, f.itemId) && client.open[f.index].item.CallItem? && NoTextItemOpen(client)
    ensures Expects(client, f)
    ensures Read(client, f) == client.(lastSeq := client.lastSeq + 1,
                                       open := client.open[f.index := Grow(client.open[f.index], f.delta)],
                                       pieces := client.pieces + [ArgsPiece(f.delta)])
  {
  }

  /** A tool's record without new arguments leaves the client in step as it is. */
  lemma {:induction false} ToolRenamedInStep(client: Client, t: int, m: ToolMeta,
                        tools: map<int, ToolMeta>, order: seq<int>, at: map<int, nat>)
    requires InStep(client, None, false, tools, order, at)
    requires t in tools && m == tools[t].(callId := m.callId, name := m.name, args := tools[t].args + "")
    ensures InStep(client, None, false, tools[t := m], order, at)
  {
    assert ToolOpen(client, t, tools[t], order, at);
    assert tools[t].args + "" == tools[t].args;
    var o := client.open[m.index];
    assert Grow(o, "") == o;
    assert client.open == client.open[m.index := o];
    ToolUpdated(client, client, t, m, "", tools, order, at);
  }

  lemma {:induction false} ToolUpdated(client: Client, c: Client, t: int, m: ToolMeta, delta: string,
                        tools: map<int, ToolMeta>, order: seq<int>, at: map<int, nat>)
    requires InStep(client, None, false, tools, order, at)
    requires t in tools && m == tools[t].(callId := m.callId, name := m.name, args := tools[t].args + delta)
    requires m.index in client.open && c.open == client.open[m.index := Grow(client.open[m.index], delta)]
    requires c.nextIndex == client.nextIndex && c.ids == client.ids
    ensures InStep(c, None, false, tools[t := m], order, at)
  {
    hide ToolOpen;
    var tools' := tools[t := m];
    forall u | u in tools' ensures ToolOpen(c, u, tools'[u], order, at) {
      assert ToolOpen(client, u, tools[u], order, at) && ToolOpen(client, t, tools[t], order, at);
      ToolStaysOpen(client, c, t, m, delta, tools, order, at, u);
    }
    forall i | i in at ensures order[at[i]] in tools' && tools'[order[at[i]]].index == i {
      assert order[at[i]] in tools;
    }
  }

  lemma {:induction false} ToolStaysOpen(client: Client, c: Client, t: int, m: ToolMeta, delta: string,
                        tools: map<int, ToolMeta>, order: seq<int>, at: map<int, nat>, u: int)
    requires t in tools && m == tools[t].(callId := m.callId, name := m.name, args := tools[t].args + delta)
    requires u in tools && ToolOpen(client, u, tools[u], order, at) && ToolOpen(client, t, tools[t], order, at)
    requires c.open == client.open[m.index := Grow(client.open[m.index], delta)]
    requires c.nextIndex == client.nextIndex && c.ids == client.ids
    ensures ToolOpen(c, u, tools[t := m][u], order, at)
  {
  }

  lemma {:induction false} ToolsTracked(client: Client, current: Option<ItemMeta>, partOpen: bool,
                     tools: map<int, ToolMeta>, order: seq<int>, at: map<int, nat>)
    requires InStep(client, current, partOpen, tools, order, at)
    ensures forall t :: t in tools <==> t in order
    ensures forall k :: 0 <= k < |order| ==> order[k] in tools
  {
    assert forall k :: 0 <= k < |order| ==> order[k] in order;
  }

  lemma {:induction false} KeepCallId(stable: map<IdKey, string>, ids: Ids, tools: map<int, ToolMeta>,
                                      order: seq<int>,
                   t: int, m: ToolMeta)
    requires IdsKept(stable, ids, tools, order) && t !in tools && m.fcId != ""
    ensures IdsKept(stable[CallKey(|order|) := m.fcId], WithId(ids, CallItem(m.fcId, m.callId, m.name)),
                    tools[t := m], order + [t])
  {
  }

  lemma {:induction false} BookedEnd(c: Collected, tools: map<int, ToolMeta>, order: seq<int>,
                                     heard: seq<StreamEvent>)
    requires Booked(c, tools, order, heard)
    ensures c.finishReason == KeptFinish(heard) && order == ToolIndexes(heard)
  {
  }

  lemma {:induction false} BookedKeys(c: Collected, tools: map<int, ToolMeta>, order: seq<int>,
                                      heard: seq<StreamEvent>)
    requires Booked(c, tools, order, heard)
    ensures c.toolOrder == order && c.toolCalls.Keys == tools.Keys
    ensures forall k :: 0 <= k < |order| && order[k] in tools ==> c.toolOrder[k] in c.toolCalls
  {
  }

  lemma {:induction false} BookedToolDelta(c: Collected, tools: map<int, ToolMeta>, order: seq<int>,
                                           heard: seq<StreamEvent>,
                        tc: ToolCallDelta, m: ToolMeta)
    requires Booked(c, tools, order, heard)
    requires forall t :: t in tools <==> t in order
    requires if tc.index in tools then m == tools[tc.index] else FirstMeta(m, tc)
    ensures Booked(WithCall(c, tc, m.callId), tools[tc.index := MergeMeta(m, tc)],
                   if tc.index !in tools then order + [tc.index] else order, heard + [ToolCall(tc)])
  {
    hide AllText, AllReasoning, KeptFinish, LastUsage, ToolIndexes, ToolArguments, ToolName, ToolId;
    var e := ToolCall(tc);
    TextSnoc(heard, e);
    EndSnoc(heard, e, "");
    KeptSnoc(heard, e);
    OrderSnoc(heard, e);
    assert c.reasoning + "" == c.reasoning && c.content + "" == c.content;
    var isNew := tc.index !in tools;
    if isNew {
      UnseenTool(heard, tc.index);
    }
    var c' := WithCall(c, tc, m.callId);
    var tools' := tools[tc.index := MergeMeta(m, tc)];
    forall t | t in tools' ensures CallBooked(c', t, tools', heard + [e]) {
      ToolSnoc(heard, e, t);
      if t != tc.index {
        assert CallBooked(c, t, tools, heard);
        assert ToolArguments(heard, t) + "" == ToolArguments(heard, t);
      } else if !isNew {
        assert CallBooked(c, t, tools, heard);
      }
    }
  }

  // ---- Closing the tool items in order ----

  /** Tool items from place i on are open, and nothing else is. */
  ghost predicate Draining(client: Client, i: nat, tools: map<int, ToolMeta>, order: seq<int>, at: map<int, nat>) {
    && (forall k :: i <= k < |order| ==> order[k] in tools && ToolOpen(client, order[k], tools[order[k]], order, at)
                                         && at[tools[order[k]].index] == k)
    && (forall j :: j in client.open ==> j in at && i <= at[j] < |order|
                                         && order[at[j]] in tools && tools[order[at[j]]].index == j)
  }

  ghost predicate DoneCalls(calls: seq<DoneCall>, i: nat, tools: map<int, ToolMeta>, order: seq<int>,
                            status: Status) {
    && |calls| == i <= |order|
    && forall k :: 0 <= k < i ==> order[k] in tools && calls[k] == CallOf(tools[order[k]], status)
  }

  function CallOf(m: ToolMeta, status: Status): DoneCall {
    DoneCall(m.fcId, status, m.callId, m.name, m.args)
  }

  lemma {:induction false} DrainingStarts(client: Client, tools: map<int, ToolMeta>, order: seq<int>, at: map<int,
                                          nat>)
    requires InStep(client, None, false, tools, order, at) && client.calls == []
    ensures Draining(client, 0, tools, order, at) && forall s: Status :: DoneCalls(client.calls, 0, tools, order, s)
  {
    forall k | 0 <= k < |order|
      ensures order[k] in tools && ToolOpen(client, order[k], tools[order[k]], order, at)
              && at[tools[order[k]].index] == k
    {
      assert order[k] in order;
      assert ToolOpen(client, order[k], tools[order[k]], order, at);
    }
  }

  lemma {:induction false} ToolPresent(client: Client, i: nat, tools: map<int, ToolMeta>, order: seq<int>,
                                       at: map<int, nat>)
    requires Draining(client, i, tools, order, at) && i < |order|
    ensures order[i] in tools
  {
  }

  lemma {:induction false} DrainingStep(client: Client, i: nat, out: OutItem, tools: map<int, ToolMeta>,
                                        order: seq<int>, at: map<int, nat>)
    requires Draining(client, i, tools, order, at) && i < |order| && client.phase.Live?
    requires order[i] in tools && out.OutCall?
    requires DoneCalls(client.calls, i, tools, order, out.status)
    requires DoneCall(out.id, out.status, out.callId, out.name, out.args) == CallOf(tools[order[i]], out.status)
    ensures var f := ItemDone(client.lastSeq + 1, tools[order[i]].index, out);
            && Expects(client, f) && Draining(Read(client, f), i + 1, tools, order, at)
            && DoneCalls(Read(client, f).calls, i + 1, tools, order, out.status)
            && Read(client, f) == client.(lastSeq := client.lastSeq + 1, open := Read(client, f).open,
                                          calls := Read(client, f).calls,
                                          pieces := client.pieces + [DonePiece(out.status, None)])
  {
    assert ToolOpen(client, order[i], tools[order[i]], order, at);
    var c := Read(client, ItemDone(client.lastSeq + 1, tools[order[i]].index, out));
    forall k | i + 1 <= k < |order|
      ensures order[k] in tools && ToolOpen(c, order[k], tools[order[k]], order, at)
              && at[tools[order[k]].index] == k
    {
      assert order[k] in tools && ToolOpen(client, order[k], tools[order[k]], order, at);
    }
  }

  lemma {:induction false} DoneCallsTracked(calls: seq<DoneCall>, tools: map<int, ToolMeta>, order: seq<int>,
                                            status: Status)
    requires DoneCalls(calls, |order|, tools, order, status)
    ensures forall k :: 0 <= k < |order| ==> order[k] in tools
  {
  }

  lemma {:induction false} DrainingEnds(client: Client, tools: map<int, ToolMeta>, order: seq<int>, at: map<int, nat>)
    requires Draining(client, |order|, tools, order, at)
    ensures client.open == map[]
  {
    assert forall j :: j !in client.open;
  }

  // ---- The final object against the client's own account of the stream ----

  /** Texts, calls and ids of the object are those the client gathered from the done events; message and
      reasoning go under the id of the newest item of their kind. */
  ghost predicate OutputMatches(res: Response, client: Client) {
    var r := if client.reasoning != "" then 1 else 0;
    var m := if client.message != "" then r + 1 else r;
    && |res.output| == m + |client.calls|
    && (client.reasoning != "" ==>
          res.output[0] == OutReasoning(res.output[0].id, res.status, None, client.reasoning)
          && res.output[0].id in client.ids.all && client.ids.reasoning == Some(res.output[0].id))
    && (client.message != "" ==>
          res.output[r] == OutMessage(res.output[r].id, res.status, None, client.message)
          && res.output[r].id in client.ids.all && client.ids.message == Some(res.output[r].id))
    && forall k :: 0 <= k < |client.calls| ==>
         CallMatches(res.output[m + k], res.status, client.calls[k], client.ids.all)
  }

  ghost predicate CallMatches(out: OutItem, status: Status, call: DoneCall, ids: set<string>) {
    out == OutCall(call.id, status, call.callId, call.name, call.args) && call.id in ids
  }

  /** The client's calls are the upstream tool calls, in order of first appearance. */
  ghost predicate CallsMatch(calls: seq<DoneCall>, heard: seq<StreamEvent>) {
    && |calls| == |ToolIndexes(heard)|
    && forall k :: 0 <= k < |calls| ==> CallIsTool(calls[k], ToolIndexes(heard)[k], heard)
  }

  ghost predicate CallIsTool(call: DoneCall, t: int, heard: seq<StreamEvent>) {
    && call.name == ToolName(heard, t) && call.args == ToolArguments(heard, t)
    && call.status == CallStatus(KeptFinish(heard))
    && (if ToolId(heard, t) != "" then call.callId == ToolId(heard, t) else "call_" <= call.callId)
  }

  ghost predicate Faithful(res: Response, client: Client, heard: seq<StreamEvent>) {
    && client.message == AllText(heard) && client.reasoning == AllReasoning(heard)
    && CallsMatch(client.calls, heard)
    && OutputMatches(res, client)
    && (res.status, res.details) == StatusOf(KeptFinish(heard))
    && res.usage == (if LastUsage(heard).Some? then LastUsage(heard).value else Usage(0, 0, 0))
  }

  lemma {:induction false} FaithfulAtEnd(res: Response, client: Client, c: Collected, stable: map<IdKey, string>,
                      tools: map<int, ToolMeta>, order: seq<int>, heard: seq<StreamEvent>)
    requires Booked(c, tools, order, heard) && IdsKept(stable, client.ids, tools, order)
    requires DoneCalls(client.calls, |order|, tools, order, CallStatus(c.finishReason))
    requires SaidMessage(client, None) == c.content && SaidReasoning(client, None) == c.reasoning
    requires c.content != "" ==> MessageKey in stable
    requires c.reasoning != "" ==> ReasoningKey in stable
    requires IsOutputOf(res.output, c, stable)
    requires (res.status, res.details) == StatusOf(c.finishReason)
    requires res.usage == if c.usage.Some? then c.usage.value else Usage(0, 0, 0)
    ensures Faithful(res, client, heard)
  {
    hide AllText, AllReasoning, KeptFinish, LastUsage, ToolIndexes, ToolArguments, ToolName, ToolId, StatusOf;
    assert client.message + "" == client.message && client.reasoning + "" == client.reasoning;
    var r := if client.reasoning != "" then 1 else 0;
    var m := if client.message != "" then r + 1 else r;
    forall k | 0 <= k < |client.calls|
      ensures CallIsTool(client.calls[k], ToolIndexes(heard)[k], heard)
      ensures CallMatches(res.output[m + k], res.status, client.calls[k], client.ids.all)
    {
      var t := order[k];
      assert t in tools && client.calls[k] == CallOf(tools[t], CallStatus(c.finishReason));
      assert CallBooked(c, t, tools, heard);
      assert IsCallOutput(res.output[m + k], c, c.toolOrder[k], CallKey(k), stable);
      assert stable[CallKey(k)] == tools[t].fcId;
    }
  }

  /** Tool items done in the stream and in the response object have the same status, unless a content
      filter cut the response off: only the object then says that they are incomplete. */
  lemma {:induction false} CallStatusesAgreeIff(res: Response, client: Client, heard: seq<StreamEvent>)
    requires Faithful(res, client, heard)
    ensures (forall k :: 0 <= k < |client.calls| ==> client.calls[k].status == res.status)
            <==> client.calls == [] || KeptFinish(heard) != "content_filter"
  {
    hide AllText, AllReasoning, KeptFinish, LastUsage, ToolIndexes, ToolArguments, ToolName, ToolId, OutputMatches;
    assert forall k :: 0 <= k < |client.calls| ==> CallIsTool(client.calls[k], ToolIndexes(heard)[k], heard);
    assert client.calls != [] ==> client.calls[0].status == CallStatus(KeptFinish(heard));
  }

  /** Such a stream: one tool delta, then a content filter. */
  lemma {:induction false} CallStatusesCanDiffer(tc: ToolCallDelta, res: Response, client: Client)
    requires Faithful(res, client, [ToolCall(tc), Finish("content_filter")])
    ensures |client.calls| == 1 && client.calls[0].status == Completed && res.status == Incomplete
  {
    hide AllText, AllReasoning, LastUsage, ToolArguments, ToolName, ToolId, OutputMatches;
    var first, both := [ToolCall(tc)], [ToolCall(tc), Finish("content_filter")];
    assert Front(first) == [] && Front(both) == first;
    OrderSnoc([], ToolCall(tc));
    OrderSnoc(first, Finish("content_filter"));
    assert [] + [ToolCall(tc)] == first && first + [Finish("content_filter")] == both;
    assert CallIsTool(client.calls[0], ToolIndexes(both)[0], both);
  }

  lemma {:induction false} EndFrames(client: Client, res: Response)
    requires client.phase.Live? && client.open == map[]
    requires res.id == client.ids.response && res.model == client.ids.model
    ensures var done := DoneFrame(client.lastSeq + 1, res);
            && Expects(client, done)
            && Read(client, done) == client.(lastSeq := client.lastSeq + 1, phase := Finished(res))
            && var last := if res.status == Completed then CompletedFrame(client.lastSeq + 2, res)
                           else IncompleteFrame(client.lastSeq + 2, res);
               && Expects(Read(client, done), last)
               && Read(Read(client, done), last) == client.(lastSeq := client.lastSeq + 2, phase := Ended(res))
  {
  }

  lemma {:induction false} FaithfulIgnoresPhase(res: Response, client: Client, heard: seq<StreamEvent>)
    requires Faithful(res, client, heard)
    ensures forall n: int, p: Phase :: Faithful(res, client.(lastSeq := n, phase := p), heard)
  {
  }

  /** An event other than a tool delta changes exactly the field it carries. */
  lemma {:induction false} BookedOther(c: Collected, tools: map<int, ToolMeta>, order: seq<int>,
                                       heard: seq<StreamEvent>, e: StreamEvent)
    requires Booked(c, tools, order, heard) && !e.ToolCall?
    ensures match e
            case Text(text) => Booked(c.(content := c.content + text), tools, order, heard + [e])
            case Reasoning(reasoning) => Booked(c.(reasoning := c.reasoning + reasoning), tools, order, heard + [e])
            case UsageReport(usage) => Booked(c.(usage := usage), tools, order, heard + [e])
            case Finish(reason) =>
              Booked(c.(finishReason := if c.finishReason == "" || (reason != "stop" && reason != "") then reason
                                        else c.finishReason), tools, order, heard + [e])
            case _ => Booked(c, tools, order, heard + [e])
  {
    hide AllText, AllReasoning, KeptFinish, LastUsage, ToolIndexes, ToolArguments, ToolName, ToolId;
    TextSnoc(heard, e);
    EndSnoc(heard, e, "");
    KeptSnoc(heard, e);
    OrderSnoc(heard, e);
    assert c.reasoning + "" == c.reasoning && c.content + "" == c.content;
    forall t | t in tools ensures CallBooked(c, t, tools, heard + [e]) {
      assert CallBooked(c, t, tools, heard);
      ToolSnoc(heard, e, t);
      assert ToolArguments(heard, t) + "" == ToolArguments(heard, t);
    }
    forall d: Collected | d.toolCalls == c.toolCalls
      ensures forall t :: t in tools ==> CallBooked(d, t, tools, heard + [e])
    {
    }
  }
}
