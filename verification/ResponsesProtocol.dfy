/** The wire of the OpenAI Responses adapter (internal/protocol/responses.go): its frames, and a
    strict client that rejects any stream breaking the protocol. */
module ResponsesProtocol {
  import opened Basics
  import opened StreamEvents

  datatype Status = Completed | Incomplete

  /** The head of an item when it is announced. */
  datatype Item =
    | ReasoningItem(id: string)
    | MessageItem(id: string)
    | CallItem(id: string, callId: string, name: string)

  /** An item with its final contents, in a done event or in the response object. */
  datatype OutItem =
    | OutReasoning(id: string, status: Status, details: Option<string>, text: string)
    | OutMessage(id: string, status: Status, details: Option<string>, text: string)
    | OutCall(id: string, status: Status, callId: string, name: string, args: string)

  datatype Response = Response(
    id: string,
    model: string,
    status: Status,
    details: Option<string>,
    output: seq<OutItem>,
    usage: Usage)

  datatype Frame =
    | CreatedFrame(seqNo: int, respId: string, model: string)
    | ItemAdded(seqNo: int, index: int, item: Item)
    | PartAdded(seqNo: int, itemId: string, index: int)
    | PartDone(seqNo: int, itemId: string, index: int, text: string)
    | ReasoningDelta(seqNo: int, itemId: string, index: int, delta: string)
    | TextDelta(seqNo: int, itemId: string, index: int, delta: string)
    | ArgsDelta(seqNo: int, itemId: string, index: int, delta: string)
    | ItemDone(seqNo: int, index: int, out: OutItem)
    | DoneFrame(seqNo: int, response: Response)
    | CompletedFrame(seqNo: int, response: Response)
    | IncompleteFrame(seqNo: int, response: Response)
    | FailedFrame(seqNo: int, respId: string, message: string)

  // ---- The client ----

  /** An item announced and not yet done, with the text its deltas have carried. */
  datatype OpenItem = OpenItem(item: Item, text: string, partOpen: bool)

  datatype Phase =
    | Start
    | Live
    | Finished(response: Response)   // response.done seen
    | Ended(response: Response)      // the terminal event seen
    | Failed(message: string)

  datatype DoneCall = DoneCall(id: string, status: Status, callId: string, name: string, args: string)

  datatype Kind = Thinking | Message | Call

  /** What the client is shown, frame by frame, but for ids, indexes and the framing of parts. */
  datatype Piece =
    | Opened(kind: Kind)
    | TextPiece(text: string)
    | ReasoningPiece(text: string)
    | ArgsPiece(text: string)
    | DonePiece(status: Status, details: Option<string>)

  function KindOf(item: Item): Kind {
    match item
    case ReasoningItem(_) => Thinking
    case MessageItem(_) => Message
    case CallItem(_, _, _) => Call
  }

  function DetailsOf(out: OutItem): Option<string> {
    if out.OutCall? then None else out.details
  }

  /** What has been announced: the response, its items in order, the ids of all of them, and those of the
      newest message and reasoning item. */
  datatype Ids = Ids(
    response: string,
    model: string,
    items: seq<Item>,
    all: set<string>,
    message: Option<string>,
    reasoning: Option<string>)

  function WithId(ids0: Ids, item: Item): Ids {
    var ids := ids0.(all := ids0.all + {item.id}, items := ids0.items + [item]);
    match item
    case ReasoningItem(id) => ids.(reasoning := Some(id))
    case MessageItem(id) => ids.(message := Some(id))
    case CallItem(_, _, _) => ids
  }

  datatype Client = Client(
    phase: Phase,
    lastSeq: int,
    nextIndex: int,
    open: map<int, OpenItem>,
    ids: Ids,
    message: string,          // texts of the done message items, joined
    reasoning: string,
    calls: seq<DoneCall>,     // done function calls, in order
    pieces: seq<Piece>)       // all items and increments, in order of arrival

  const NEW_CLIENT := Client(Start, 0, 0, map[], Ids("", "", [], {}, None, None), "", "", [], [])

  ghost predicate NoTextItemOpen(c: Client) {
    forall i :: i in c.open ==> c.open[i].item.CallItem?
  }

  predicate Names(c: Client, index: int, id: string) {
    index in c.open && c.open[index].item.id == id
  }

  /** May f come next? */
  ghost predicate Expects(c: Client, f: Frame) {
    && f.seqNo == c.lastSeq + 1
    && match f
       case CreatedFrame(_, _, _) => c.phase.Start?
       case ItemAdded(_, index, item) => c.phase.Live? && index == c.nextIndex && NoTextItemOpen(c)
       case PartAdded(_, id, index) =>
         c.phase.Live? && Names(c, index, id) && c.open[index].item.MessageItem?
         && !c.open[index].partOpen && c.open[index].text == ""
       case PartDone(_, id, index, text) =>
         c.phase.Live? && Names(c, index, id) && c.open[index].item.MessageItem? && c.open[index].partOpen
         && text == c.open[index].text
       case ReasoningDelta(_, id, index, _) =>
         c.phase.Live? && Names(c, index, id) && c.open[index].item.ReasoningItem?
       case TextDelta(_, id, index, _) =>
         c.phase.Live? && Names(c, index, id) && c.open[index].item.MessageItem? && c.open[index].partOpen
       case ArgsDelta(_, id, index, _) =>
         c.phase.Live? && Names(c, index, id) && c.open[index].item.CallItem? && NoTextItemOpen(c)
       case ItemDone(_, index, out) =>
         && c.phase.Live? && Names(c, index, out.id) && !c.open[index].partOpen
         && (match out
             case OutReasoning(_, _, _, text) => c.open[index].item.ReasoningItem? && text == c.open[index].text
             case OutMessage(_, _, _, text) => c.open[index].item.MessageItem? && text == c.open[index].text
             case OutCall(_, _, _, _, args) => c.open[index].item.CallItem? && args == c.open[index].text)
       case DoneFrame(_, response) =>
         c.phase.Live? && c.open == map[] && response.id == c.ids.response && response.model == c.ids.model
       case CompletedFrame(_, response) => c.phase == Finished(response) && response.status == Completed
       case IncompleteFrame(_, response) => c.phase == Finished(response) && response.status == Incomplete
       case FailedFrame(_, respId, _) => c.phase.Live? && respId == c.ids.response
  }

  function Grow(o: OpenItem, delta: string): OpenItem {
    o.(text := o.text + delta)
  }

  function AddPiece(c: Client, index: int, delta: string, piece: Piece): Client
    requires index in c.open
  {
    c.(open := c.open[index := Grow(c.open[index], delta)], pieces := c.pieces + [piece])
  }

  function Read(c0: Client, f: Frame): Client
    requires Expects(c0, f)
  {
    var c := c0.(lastSeq := f.seqNo);
    match f
    case CreatedFrame(_, respId, model) => c.(phase := Live, ids := c.ids.(response := respId, model := model))
    case ItemAdded(_, index, item) =>
      c.(nextIndex := index + 1, open := c.open[index := OpenItem(item, "", false)], ids := WithId(c.ids, item),
          pieces := c.pieces + [Opened(KindOf(item))])
    case PartAdded(_, _, index) => c.(open := c.open[index := c.open[index].(partOpen := true)])
    case PartDone(_, _, index, _) => c.(open := c.open[index := c.open[index].(partOpen := false)])
    case ReasoningDelta(_, _, index, delta) => AddPiece(c, index, delta, ReasoningPiece(delta))
    case TextDelta(_, _, index, delta) => AddPiece(c, index, delta, TextPiece(delta))
    case ArgsDelta(_, _, index, delta) => AddPiece(c, index, delta, ArgsPiece(delta))
    case ItemDone(_, index, out) =>
      var d := c.(open := c.open - {index}, pieces := c.pieces + [DonePiece(out.status, DetailsOf(out))]);
      (match out
       case OutReasoning(_, _, _, text) => d.(reasoning := d.reasoning + text)
       case OutMessage(_, _, _, text) => d.(message := d.message + text)
       case OutCall(id, status, callId, name, args) =>
         d.(calls := d.calls + [DoneCall(id, status, callId, name, args)]))
    case DoneFrame(_, response) => c.(phase := Finished(response))
    case CompletedFrame(_, response) => c.(phase := Ended(response))
    case IncompleteFrame(_, response) => c.(phase := Ended(response))
    case FailedFrame(_, _, message) => c.(phase := Failed(message))
  }

  /** The client after a whole stream, or None if it rejected a frame. */
  ghost function Replay(frames: seq<Frame>): Option<Client> {
    if frames == [] then Some(NEW_CLIENT)
    else
      match Replay(Front(frames))
      case None => None
      case Some(c) => if Expects(c, Last(frames)) then Some(Read(c, Last(frames))) else None
  }

  lemma {:induction false} ReplaySnoc(frames: seq<Frame>, c: Client, f: Frame)
    requires Replay(frames) == Some(c) && Expects(c, f)
    ensures Replay(frames + [f]) == Some(Read(c, f))
  {
    SnocParts(frames, f);
  }

  lemma {:induction false} ReplayLast(frames: seq<Frame>)
    requires Replay(frames).Some? && frames != []
    ensures Replay(Front(frames)).Some? && Expects(Replay(Front(frames)).value, Last(frames))
    ensures Replay(frames) == Some(Read(Replay(Front(frames)).value, Last(frames)))
  {
    hide Expects, Read;
  }

  lemma {:induction false} ReplayNothing()
    ensures Replay([]) == Some(NEW_CLIENT)
  {
  }

  // ---- What an accepted stream is, said without the client ----

  /** How often an index was announced, and how often done. */
  function Announced(frames: seq<Frame>, index: int): nat {
    if frames == [] then 0
    else Announced(Front(frames), index) + if Last(frames).ItemAdded? && Last(frames).index == index then 1 else 0
  }

  function Closed(frames: seq<Frame>, index: int): nat {
    if frames == [] then 0
    else Closed(Front(frames), index) + if Last(frames).ItemDone? && Last(frames).index == index then 1 else 0
  }

  /** The items announced, in order. */
  function AnnouncedItems(frames: seq<Frame>): seq<Item> {
    if frames == [] then []
    else AnnouncedItems(Front(frames)) + if Last(frames).ItemAdded? then [Last(frames).item] else []
  }

  /** What a client knows of the announcements is what the frames say. */
  lemma {:induction false} ClientAnnounced(frames: seq<Frame>)
    requires Replay(frames).Some?
    ensures var ids := Replay(frames).value.ids;
            && ids.items == AnnouncedItems(frames)
            && (frames != [] ==> frames[0] == CreatedFrame(1, ids.response, ids.model))
  {
    hide Replay, Expects, Read;
    ReplayNothing();
    if frames != [] {
      var before, f := Front(frames), Last(frames);
      ReplayLast(frames);
      ClientAnnounced(before);
      ClientCounts(before, 0);
      AnnouncedStep(Replay(before).value, f);
      if before == [] {
        FirstFrame(f);
      } else {
        assert frames[0] == before[0];
        NotAtStart(before);
      }
    }
  }

  lemma {:induction false} AnnouncedStep(c: Client, f: Frame)
    requires Expects(c, f)
    ensures Read(c, f).ids.items == c.ids.items + if f.ItemAdded? then [f.item] else []
    ensures c.phase.Start? || (Read(c, f).ids.response == c.ids.response && Read(c, f).ids.model == c.ids.model)
  {
    assert c.ids.items + [] == c.ids.items;
  }

  lemma {:induction false} NotAtStart(frames: seq<Frame>)
    requires Replay(frames).Some? && frames != []
    ensures !Replay(frames).value.phase.Start?
  {
    hide Replay, Expects, Read;
    ReplayLast(frames);
    PhaseStep(Replay(Front(frames)).value, Last(frames));
  }

  lemma {:induction false} FirstFrame(f: Frame)
    requires Expects(NEW_CLIENT, f)
    ensures var ids := Read(NEW_CLIENT, f).ids; f == CreatedFrame(1, ids.response, ids.model)
  {
  }

  /** The increments of one item, joined. */
  function DeltaText(frames: seq<Frame>, index: int): string {
    if frames == [] then ""
    else
      var f := Last(frames);
      DeltaText(Front(frames), index)
      + if (f.TextDelta? || f.ReasoningDelta? || f.ArgsDelta?) && f.index == index then f.delta else ""
  }

  /** Frames that speak of one open item. */
  predicate Addresses(f: Frame) {
    f.PartAdded? || f.PartDone? || f.ReasoningDelta? || f.TextDelta? || f.ArgsDelta?
  }

  /** Prefixes of accepted streams are accepted. */
  lemma {:induction false} PrefixAccepted(frames: seq<Frame>, n: nat)
    requires n <= |frames| && Replay(frames).Some?
    ensures Replay(frames[..n]).Some?
    decreases |frames| - n
  {
    if n == |frames| {
      assert frames[..n] == frames;
    } else {
      PrefixAccepted(frames, n + 1);
      assert Front(frames[..n + 1]) == frames[..n];
    }
  }

  /** Step n of an accepted stream: the client so far expected frame n. */
  lemma {:induction false} StepAccepted(frames: seq<Frame>, n: nat)
    requires n < |frames| && Replay(frames).Some?
    ensures Replay(frames[..n]).Some?
    ensures Expects(Replay(frames[..n]).value, frames[n])
    ensures Replay(frames[..n + 1]) == Some(Read(Replay(frames[..n]).value, frames[n]))
  {
    hide Expects, Read;
    PrefixAccepted(frames, n + 1);
    assert Front(frames[..n + 1]) == frames[..n] && Last(frames[..n + 1]) == frames[n];
  }

  /** An index is announced once when it is below the next free one, and open until it is done. */
  lemma {:induction false} ClientCounts(frames: seq<Frame>, index: int)
    requires Replay(frames).Some?
    ensures var c := Replay(frames).value;
            && c.lastSeq == |frames| && 0 <= c.nextIndex
            && Announced(frames, index) == (if 0 <= index < c.nextIndex then 1 else 0)
            && Closed(frames, index) == (if 0 <= index < c.nextIndex && index !in c.open then 1 else 0)
            && (index in c.open ==> 0 <= index < c.nextIndex)
  {
    if frames != [] {
      ClientCounts(Front(frames), index);
      CountStep(Front(frames), Last(frames), index);
      assert Front(frames) + [Last(frames)] == frames;
    }
  }

  lemma {:induction false} CountStep(before: seq<Frame>, f: Frame, index: int)
    requires Replay(before).Some? && Expects(Replay(before).value, f)
    requires Replay(before).value.lastSeq == |before|
    requires var c := Replay(before).value;
             && 0 <= c.nextIndex
             && Announced(before, index) == (if 0 <= index < c.nextIndex then 1 else 0)
             && Closed(before, index) == (if 0 <= index < c.nextIndex && index !in c.open then 1 else 0)
             && (index in c.open ==> 0 <= index < c.nextIndex)
    ensures Replay(before + [f]).Some?
    ensures var c := Replay(before + [f]).value;
            && c.lastSeq == |before| + 1 && 0 <= c.nextIndex
            && Announced(before + [f], index) == (if 0 <= index < c.nextIndex then 1 else 0)
            && Closed(before + [f], index) == (if 0 <= index < c.nextIndex && index !in c.open then 1 else 0)
            && (index in c.open ==> 0 <= index < c.nextIndex)
  {
    SnocParts(before, f);
    var c := Replay(before).value;
    ReplaySnoc(before, c, f);
  }

  /** The meaning of acceptance for a whole stream: frame n carries sequence number n + 1, the
      announced output indexes are 0, 1, 2, ... once each, and every one of them is done exactly once. */
  lemma {:induction false} EndedStreamBalanced(frames: seq<Frame>)
    requires Replay(frames).Some? && Replay(frames).value.phase.Ended?
    ensures forall n :: 0 <= n < |frames| ==> frames[n].seqNo == n + 1
    ensures forall i :: Announced(frames, i) == Closed(frames, i)
                        == (if 0 <= i < Replay(frames).value.nextIndex then 1 else 0)
  {
    forall n | 0 <= n < |frames| ensures frames[n].seqNo == n + 1 {
      StepAccepted(frames, n);
      ClientCounts(frames[..n], 0);
    }
    forall i ensures Announced(frames, i) == Closed(frames, i)
                     == (if 0 <= i < Replay(frames).value.nextIndex then 1 else 0) {
      ClientCounts(frames, i);
      NothingOpenAtEnd(frames);
    }
  }

  /** The stream begins with response.created; response.done and one terminal event, carrying the same
      object and matching its status, come last. */
  lemma {:induction false} EndedStreamEnds(frames: seq<Frame>)
    requires Replay(frames).Some? && Replay(frames).value.phase.Ended?
    ensures |frames| >= 3 && frames[0].CreatedFrame?
    ensures var n := |frames|; var res := Replay(frames).value.phase.response;
            && frames[n - 2] == DoneFrame(n - 1, res)
            && frames[n - 1] == (if res.status == Completed then CompletedFrame(n, res) else IncompleteFrame(n, res))
    ensures forall i :: 0 <= i < |frames| - 2 ==> !Closes(frames[i])
  {
    hide *;
    LastFrame(frames);
    NextToLastFrame(Front(frames));
    EarlierPhases(Front(Front(frames)));
    PrefixElements(frames);
  }

  lemma {:induction false} PrefixElements(frames: seq<Frame>)
    ensures |frames| >= 2 ==> Last(Front(frames)) == frames[|frames| - 2]
    ensures |frames| >= 2 ==> forall i :: 0 <= i < |frames| - 2 ==> Front(Front(frames))[i] == frames[i]
    ensures |frames| >= 2 ==> |Front(Front(frames))| == |frames| - 2
    ensures |frames| >= 1 ==> |Front(frames)| == |frames| - 1 && Last(frames) == frames[|frames| - 1]
  {
  }

  /** The terminal event follows response.done and carries the same object. */
  lemma {:induction false} LastFrame(frames: seq<Frame>)
    requires Replay(frames).Some? && Replay(frames).value.phase.Ended?
    ensures var n := |frames|; var res := Replay(frames).value.phase.response;
            && n > 0 && Replay(Front(frames)).Some? && Replay(Front(frames)).value.phase == Finished(res)
            && Last(frames) == (if res.status == Completed then CompletedFrame(n, res) else IncompleteFrame(n, res))
  {
    hide Replay, Expects, Read;
    ReplayNothing();
    ReplayLast(frames);
    PhaseStep(Replay(Front(frames)).value, Last(frames));
    ClientCounts(Front(frames), 0);
  }

  /** response.done follows a stream with nothing but frames of items. */
  lemma {:induction false} NextToLastFrame(frames: seq<Frame>)
    requires Replay(frames).Some? && Replay(frames).value.phase.Finished?
    ensures frames != [] && Replay(Front(frames)).Some? && Replay(Front(frames)).value.phase.Live?
    ensures Last(frames) == DoneFrame(|frames|, Replay(frames).value.phase.response)
  {
    hide Replay, Expects, Read;
    ReplayNothing();
    ReplayLast(frames);
    PhaseStep(Replay(Front(frames)).value, Last(frames));
    ClientCounts(Front(frames), 0);
  }

  /** The frames that end a response. */
  predicate Closes(f: Frame) {
    f.DoneFrame? || f.CompletedFrame? || f.IncompleteFrame? || f.FailedFrame?
  }

  /** A client that is still live has seen the opening frame first and no closing frame. */
  lemma {:induction false} EarlierPhases(frames: seq<Frame>)
    requires Replay(frames).Some? && Replay(frames).value.phase.Live?
    ensures frames != [] && frames[0].CreatedFrame?
    ensures forall i :: 0 <= i < |frames| ==> !Closes(frames[i])
  {
    hide Replay, Expects, Read;
    ReplayNothing();
    ReplayLast(frames);
    var before, f := Front(frames), Last(frames);
    PhaseStep(Replay(before).value, f);
    if Replay(before).value.phase.Live? {
      EarlierPhases(before);
      assert forall i :: 0 <= i < |frames| - 1 ==> frames[i] == before[i];
    } else {
      StartIsEmpty(before);
    }
  }

  lemma {:induction false} PhaseStep(c: Client, f: Frame)
    requires Expects(c, f)
    ensures var p := Read(c, f).phase;
            && !p.Start?
            && (p.Live? ==> (if c.phase.Live? then !Closes(f) else c.phase.Start? && f.CreatedFrame?))
            && (p.Finished? ==> c.phase.Live? && f == DoneFrame(c.lastSeq + 1, p.response))
            && (p.Ended? ==>
                  c.phase == Finished(p.response)
                  && f == if p.response.status == Completed then CompletedFrame(c.lastSeq + 1, p.response)
                          else IncompleteFrame(c.lastSeq + 1, p.response))
  {
  }

  lemma {:induction false} StartIsEmpty(frames: seq<Frame>)
    requires Replay(frames).Some? && Replay(frames).value.phase.Start?
    ensures frames == []
  {
    hide Replay, Expects, Read;
    if frames != [] {
      ReplayLast(frames);
      PhaseStep(Replay(Front(frames)).value, Last(frames));
    }
  }

  lemma {:induction false} NothingOpenAtEnd(frames: seq<Frame>)
    requires Replay(frames).Some?
    requires var p := Replay(frames).value.phase; p.Ended? || p.Finished?
    ensures Replay(frames).value.open == map[]
  {
    var c := Replay(Front(frames)).value;
    if c.phase.Ended? || c.phase.Finished? {
      NothingOpenAtEnd(Front(frames));
    }
  }

  /** Every delta or part event names an index announced once and not yet done, under its own id. */
  lemma {:induction false} AddressedItemIsOpen(frames: seq<Frame>, n: nat)
    requires Replay(frames).Some? && n < |frames| && Addresses(frames[n])
    ensures Announced(frames[..n], frames[n].index) == 1 && Closed(frames[..n], frames[n].index) == 0
    ensures exists k :: 0 <= k < n && frames[k].ItemAdded?
              && frames[k].index == frames[n].index && frames[k].item.id == frames[n].itemId
              && (if frames[n].ReasoningDelta? then frames[k].item.ReasoningItem?
                  else if frames[n].ArgsDelta? then frames[k].item.CallItem? else frames[k].item.MessageItem?)
  {
    hide Replay, Read, Announced, Closed;
    StepAccepted(frames, n);
    ClientCounts(frames[..n], frames[n].index);
    var k := OpenWasAnnounced(frames[..n], frames[n].index);
    assert frames[k] == frames[..n][k];
  }

  /** What the client has read of an open item is its increments; an index not yet in use has none. */
  lemma {:induction false} OpenText(frames: seq<Frame>, index: int)
    requires Replay(frames).Some?
    ensures var c := Replay(frames).value;
            && (index in c.open ==> c.open[index].text == DeltaText(frames, index))
            && (index >= c.nextIndex ==> DeltaText(frames, index) == "")
  {
    hide Replay, Expects, Read;
    ReplayNothing();
    if frames != [] {
      ReplayLast(frames);
      OpenText(Front(frames), index);
      ClientCounts(Front(frames), index);
      ClientCounts(Front(frames), if Addresses(Last(frames)) then Last(frames).index else index);
      TextOfStep(Replay(Front(frames)).value, Last(frames), index, DeltaText(Front(frames), index));
    }
  }

  lemma {:induction false} TextOfStep(c: Client, f: Frame, index: int, text: string)
    requires Expects(c, f) && (index in c.open ==> c.open[index].text == text) && (index >= c.nextIndex ==> text == "")
    requires Addresses(f) && f.index in c.open ==> f.index < c.nextIndex
    ensures var shown := f.TextDelta? || f.ReasoningDelta? || f.ArgsDelta?;
            var delta := if shown && f.index == index then f.delta else "";
            && (index in Read(c, f).open ==> Read(c, f).open[index].text == text + delta)
            && (index >= Read(c, f).nextIndex ==> text + delta == "")
  {
    assert text + "" == text;
  }

  /** An item is done under the id and as the kind it was announced with, its text is all its increments
      joined, and so is that of its content part. */
  lemma {:induction false} DoneItemIsItsDeltas(frames: seq<Frame>, n: nat) returns (k: nat)
    requires Replay(frames).Some? && n < |frames| && (frames[n].ItemDone? || frames[n].PartDone?)
    ensures k < n && frames[k].ItemAdded? && frames[k].index == frames[n].index
    ensures var text := DeltaText(frames[..n], frames[n].index); var item := frames[k].item;
            match frames[n]
            case PartDone(_, id, _, partText) => id == item.id && partText == text
            case ItemDone(_, _, OutReasoning(id, _, _, itemText)) =>
              item.ReasoningItem? && id == item.id && itemText == text
            case ItemDone(_, _, OutMessage(id, _, _, itemText)) =>
              item.MessageItem? && id == item.id && itemText == text
            case ItemDone(_, _, OutCall(id, _, _, _, args)) => item.CallItem? && id == item.id && args == text
            case _ => false
  {
    hide Replay, Read, Announced, Closed;
    StepAccepted(frames, n);
    OpenText(frames[..n], frames[n].index);
    k := OpenWasAnnounced(frames[..n], frames[n].index);
    assert frames[k] == frames[..n][k];
  }

  /** Text and reasoning items never overlap with each other, nor with what is said of tools: when an item is
      announced or an argument increment sent, every earlier one is done. Tool items are free to stay open. */
  lemma {:induction false} TextItemsDoNotOverlap(frames: seq<Frame>, k: nat, n: nat)
    requires Replay(frames).Some? && k < n < |frames|
    requires frames[k].ItemAdded? && !frames[k].item.CallItem?
    requires frames[n].ItemAdded? || frames[n].ArgsDelta?
    ensures Closed(frames[..n], frames[k].index) == 1
  {
    hide Replay, Read, Announced, Closed;
    StepAccepted(frames, n);
    ClientCounts(frames[..n], frames[k].index);
    assert frames[..n][k] == frames[k];
    AnnouncedItem(frames[..n], k);
  }

  /** An announced index is in use, and while it is open the item is the one announced. */
  lemma {:induction false} AnnouncedItem(frames: seq<Frame>, k: nat)
    requires Replay(frames).Some? && k < |frames| && frames[k].ItemAdded?
    ensures var c := Replay(frames).value; var i := frames[k].index;
            0 <= i < c.nextIndex && (i in c.open ==> c.open[i].item == frames[k].item)
    decreases |frames|
  {
    hide Replay, Expects, Read;
    var before, f := Front(frames), Last(frames);
    ReplayLast(frames);
    ClientCounts(before, 0);
    if k < |frames| - 1 {
      assert before[k] == frames[k];
      AnnouncedItem(before, k);
      KeepsAnnounced(Replay(before).value, f, frames[k].index, frames[k].item);
    } else {
      AnnouncesItem(Replay(before).value, f);
    }
  }

  lemma {:induction false} AnnouncesItem(c: Client, f: Frame)
    requires Expects(c, f) && f.ItemAdded?
    ensures f.index == c.nextIndex && Read(c, f).nextIndex == f.index + 1
    ensures f.index in Read(c, f).open && Read(c, f).open[f.index].item == f.item
  {
  }

  /** A frame leaves the items of the open indexes as they were announced. */
  lemma {:induction false} KeepsAnnounced(c: Client, f: Frame, index: int, item: Item)
    requires Expects(c, f) && 0 <= index < c.nextIndex && (index in c.open ==> c.open[index].item == item)
    ensures index < Read(c, f).nextIndex && (index in Read(c, f).open ==> Read(c, f).open[index].item == item)
  {
  }

  lemma {:induction false} OpenWasAnnounced(frames: seq<Frame>, index: int) returns (k: nat)
    requires Replay(frames).Some? && index in Replay(frames).value.open
    ensures k < |frames| && frames[k].ItemAdded? && frames[k].index == index
    ensures frames[k].item == Replay(frames).value.open[index].item
  {
    var before, f := Front(frames), Last(frames);
    if f.ItemAdded? && f.index == index {
      k := |frames| - 1;
    } else {
      k := OpenWasAnnounced(before, index);
    }
  }
}
