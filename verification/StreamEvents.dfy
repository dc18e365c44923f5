/** The protocol-neutral events of internal/proxy/events.go, and what a list of them says. */
module StreamEvents {
  import opened Basics

  datatype ToolCallDelta = ToolCallDelta(index: int, id: string, typ: string, name: string, arguments: string)

  datatype Usage = Usage(promptTokens: int, completionTokens: int, totalTokens: int)

  datatype StreamEvent =
    | Text(text: string)
    | Reasoning(reasoning: string)
    | ToolCall(call: ToolCallDelta)
    | Queue(position: int)
    | TaskCreated(taskId: string)
    | Finish(reason: string)
    | UsageReport(usage: Option<Usage>)
    | Error(err: Option<string>)

  // ---- What a finished list of events says; every function reads the list oldest first ----

  /** Events reach the handler until one of them makes it return an error. */
  predicate Aborts(e: StreamEvent) {
    e.Error? && e.err.Some?
  }

  /** The events before the first aborting one. */
  function Heard(es: seq<StreamEvent>): (r: seq<StreamEvent>)
    ensures r <= es
    ensures forall e :: e in r ==> !Aborts(e)
    ensures r == es || Aborts(es[|r|])
  {
    if es == [] || Aborts(es[0]) then [] else
    var rest := Heard(es[1..]);
    assert [es[0]] + es[1..] == es;
    [es[0]] + rest
  }

  /** The error the upstream call returns: the aborting event's, else the transport's. */
  function Fault(es: seq<StreamEvent>, transport: Option<string>): Option<string> {
    if Heard(es) == es then transport else es[|Heard(es)|].err
  }

  function AllText(es: seq<StreamEvent>): string {
    if es == [] then "" else AllText(Front(es)) + if Last(es).Text? then Last(es).text else ""
  }

  function AllReasoning(es: seq<StreamEvent>): string {
    if es == [] then "" else AllReasoning(Front(es)) + if Last(es).Reasoning? then Last(es).reasoning else ""
  }

  /** The deltas of one tool call. */
  predicate IsToolDelta(e: StreamEvent, tool: int) {
    e.ToolCall? && e.call.index == tool
  }

  /** Tool indexes in order of first appearance. */
  function ToolIndexes(es: seq<StreamEvent>): (r: seq<int>)
    ensures forall i, j :: 0 <= i < j < |r| ==> r[i] != r[j]
    ensures forall t :: t in r <==> exists k :: 0 <= k < |es| && IsToolDelta(es[k], t)
  {
    if es == [] then [] else
    var before := ToolIndexes(Front(es));
    if Last(es).ToolCall? && Last(es).call.index !in before then
      var r := before + [Last(es).call.index];
      assert forall t :: t in r ==> exists k :: 0 <= k < |es| && IsToolDelta(es[k], t) by {
        assert IsToolDelta(es[|es| - 1], Last(es).call.index);
      }
      r
    else before
  }

  function ToolArguments(es: seq<StreamEvent>, tool: int): string {
    if es == [] then "" else
    ToolArguments(Front(es), tool) + if IsToolDelta(Last(es), tool) then Last(es).call.arguments else ""
  }

  /** The newest non-empty name; later empty ones do not erase it. */
  function ToolName(es: seq<StreamEvent>, tool: int): string {
    if es == [] then ""
    else if IsToolDelta(Last(es), tool) && Last(es).call.name != "" then Last(es).call.name
    else ToolName(Front(es), tool)
  }

  /** The newest non-empty id the upstream supplied, or "" if it never did. */
  function ToolId(es: seq<StreamEvent>, tool: int): string {
    if es == [] then ""
    else if IsToolDelta(Last(es), tool) && Last(es).call.id != "" then Last(es).call.id
    else ToolId(Front(es), tool)
  }

  function ToolType(es: seq<StreamEvent>, tool: int): string {
    if es == [] then "function"
    else if IsToolDelta(Last(es), tool) && Last(es).call.typ != "" then Last(es).call.typ
    else ToolType(Front(es), tool)
  }

  /** The last finish reason, or the given one if no Finish event came. */
  function LastFinish(es: seq<StreamEvent>, initial: string): string {
    if es == [] then initial
    else if Last(es).Finish? then Last(es).reason
    else LastFinish(Front(es), initial)
  }

  function LastUsage(es: seq<StreamEvent>): Option<Usage> {
    if es == [] then None
    else if Last(es).UsageReport? then Last(es).usage
    else LastUsage(Front(es))
  }

  // ---- One more event ----

  lemma {:induction false} TextSnoc(es: seq<StreamEvent>, e: StreamEvent)
    ensures AllText(es + [e]) == AllText(es) + if e.Text? then e.text else ""
    ensures AllReasoning(es + [e]) == AllReasoning(es) + if e.Reasoning? then e.reasoning else ""
  {
    SnocParts(es, e);
  }

  lemma {:induction false} EndSnoc(es: seq<StreamEvent>, e: StreamEvent, initial: string)
    ensures LastFinish(es + [e], initial) == if e.Finish? then e.reason else LastFinish(es, initial)
    ensures LastUsage(es + [e]) == if e.UsageReport? then e.usage else LastUsage(es)
  {
    SnocParts(es, e);
  }

  lemma {:induction false} OrderSnoc(es: seq<StreamEvent>, e: StreamEvent)
    ensures ToolIndexes(es + [e])
            == ToolIndexes(es) + if e.ToolCall? && e.call.index !in ToolIndexes(es) then [e.call.index] else []
  {
    SnocParts(es, e);
  }

  lemma {:induction false} ToolSnoc(es: seq<StreamEvent>, e: StreamEvent, t: int)
    ensures ToolArguments(es + [e], t) == ToolArguments(es, t) + if IsToolDelta(e, t) then e.call.arguments else ""
    ensures ToolName(es + [e], t) == if IsToolDelta(e, t) && e.call.name != "" then e.call.name else ToolName(es, t)
    ensures ToolId(es + [e], t) == if IsToolDelta(e, t) && e.call.id != "" then e.call.id else ToolId(es, t)
    ensures ToolType(es + [e], t) == if IsToolDelta(e, t) && e.call.typ != "" then e.call.typ else ToolType(es, t)
  {
    SnocParts(es, e);
  }

  /** An index no delta has mentioned yet. */
  lemma {:induction false} UnseenTool(es: seq<StreamEvent>, t: int)
    requires t !in ToolIndexes(es)
    ensures ToolId(es, t) == "" && ToolType(es, t) == "function"
    ensures ToolName(es, t) == "" && ToolArguments(es, t) == ""
  {
    if es != [] {
      UnseenTool(Front(es), t);
      assert IsToolDelta(es[|es| - 1], t) ==> t in ToolIndexes(es);
    }
  }

  lemma {:induction false} HeardSoFar(es: seq<StreamEvent>, i: nat)
    requires i < |es| && forall k :: 0 <= k < i ==> !Aborts(es[k])
    ensures i <= |Heard(es)| && es[..i + 1] == es[..i] + [es[i]]
    ensures Aborts(es[i]) ==> Heard(es) == es[..i]
  {
    hide Heard;
    var r := Heard(es);
    assert i < |r| ==> r[i] == es[i] && r[i] in r;
  }

  lemma {:induction false} TextConcat(a: seq<StreamEvent>, b: seq<StreamEvent>)
    ensures AllText(a + b) == AllText(a) + AllText(b)
    ensures AllReasoning(a + b) == AllReasoning(a) + AllReasoning(b)
  {
    if b == [] {
      assert a + b == a;
    } else {
      TextConcat(a, Front(b));
      TextSnocConcat(a, Front(b), Last(b));
      assert Front(b) + [Last(b)] == b;
    }
  }

  lemma {:induction false} TextSnocConcat(a: seq<StreamEvent>, b: seq<StreamEvent>, e: StreamEvent)
    requires AllText(a + b) == AllText(a) + AllText(b)
    requires AllReasoning(a + b) == AllReasoning(a) + AllReasoning(b)
    ensures AllText(a + (b + [e])) == AllText(a) + AllText(b + [e])
    ensures AllReasoning(a + (b + [e])) == AllReasoning(a) + AllReasoning(b + [e])
  {
    hide *;
    assert a + (b + [e]) == (a + b) + [e];
    TextSnoc(a + b, e);
    TextSnoc(b, e);
  }

  // ---- What the words mean, said by position ----

  /** Tools come in the order of their first deltas. */
  lemma {:induction false} ToolsInOrder(es: seq<StreamEvent>, i: nat, j: nat) returns (k: nat)
    requires i < j < |ToolIndexes(es)|
    ensures k < |es| && IsToolDelta(es[k], ToolIndexes(es)[i])
    ensures forall l :: 0 <= l <= k ==> !IsToolDelta(es[l], ToolIndexes(es)[j])
  {
    var before := ToolIndexes(Front(es));
    assert before <= ToolIndexes(es);
    if j < |before| {
      k := ToolsInOrder(Front(es), i, j);
      assert forall l :: 0 <= l <= k ==> Front(es)[l] == es[l];
    } else {
      assert before[i] in before;
      k :| 0 <= k < |Front(es)| && IsToolDelta(Front(es)[k], before[i]);
      assert ToolIndexes(es)[j] !in before;
      assert forall l :: 0 <= l <= k ==> es[l] == Front(es)[l];
    }
  }

  /** The name of a tool is the newest that is not empty; its id and type likewise. */
  lemma {:induction false} NewestToolFields(es: seq<StreamEvent>, t: int, k: nat)
    requires k < |es| && IsToolDelta(es[k], t)
    ensures es[k].call.name != "" && (forall j :: k < j < |es| && IsToolDelta(es[j], t) ==> es[j].call.name == "") ==>
              ToolName(es, t) == es[k].call.name
    ensures es[k].call.id != "" && (forall j :: k < j < |es| && IsToolDelta(es[j], t) ==> es[j].call.id == "") ==>
              ToolId(es, t) == es[k].call.id
    ensures es[k].call.typ != "" && (forall j :: k < j < |es| && IsToolDelta(es[j], t) ==> es[j].call.typ == "") ==>
              ToolType(es, t) == es[k].call.typ
  {
    if k < |es| - 1 {
      NewestToolFields(Front(es), t, k);
      assert forall j :: 0 <= j < |es| - 1 ==> Front(es)[j] == es[j];
      assert Last(es) == es[|es| - 1];
    }
  }

  lemma {:induction false} NoToolFields(es: seq<StreamEvent>, t: int)
    ensures (forall j :: 0 <= j < |es| && IsToolDelta(es[j], t) ==> es[j].call.name == "") ==> ToolName(es, t) == ""
    ensures (forall j :: 0 <= j < |es| && IsToolDelta(es[j], t) ==> es[j].call.id == "") ==> ToolId(es, t) == ""
    ensures (forall j :: 0 <= j < |es| && IsToolDelta(es[j], t) ==> es[j].call.typ == "") ==>
              ToolType(es, t) == "function"
  {
    if es != [] {
      NoToolFields(Front(es), t);
      assert forall j :: 0 <= j < |es| - 1 ==> Front(es)[j] == es[j];
      assert Last(es) == es[|es| - 1];
    }
  }

  /** The arguments of a tool are those of its deltas, joined in order. */
  lemma {:induction false} ArgumentsJoin(a: seq<StreamEvent>, b: seq<StreamEvent>, t: int)
    ensures ToolArguments(a + b, t) == ToolArguments(a, t) + ToolArguments(b, t)
    ensures b == [] ==> ToolArguments(b, t) == ""
    ensures |b| == 1 ==> ToolArguments(b, t) == if IsToolDelta(b[0], t) then b[0].call.arguments else ""
  {
    if b == [] {
      assert a + b == a;
    } else {
      ArgumentsJoin(a, Front(b), t);
      assert Front(a + b) == a + Front(b) && Last(a + b) == Last(b);
      Assoc(ToolArguments(a, t), ToolArguments(Front(b), t),
            if IsToolDelta(Last(b), t) then Last(b).call.arguments else "");
      if |b| == 1 {
        assert Front(b) == [];
      }
    }
  }

  /** The finish reason and the usage are those of the newest such event. */
  lemma {:induction false} NewestEnd(es: seq<StreamEvent>, k: nat, initial: string)
    requires k < |es|
    ensures es[k].Finish? && (forall j :: k < j < |es| ==> !es[j].Finish?) ==> LastFinish(es, initial) == es[k].reason
    ensures es[k].UsageReport? && (forall j :: k < j < |es| ==> !es[j].UsageReport?) ==> LastUsage(es) == es[k].usage
  {
    if k < |es| - 1 {
      NewestEnd(Front(es), k, initial);
      assert forall j :: 0 <= j < |es| - 1 ==> Front(es)[j] == es[j];
      assert Last(es) == es[|es| - 1];
    }
  }

  lemma {:induction false} NoEnd(es: seq<StreamEvent>, initial: string)
    ensures (forall j :: 0 <= j < |es| ==> !es[j].Finish?) ==> LastFinish(es, initial) == initial
    ensures (forall j :: 0 <= j < |es| ==> !es[j].UsageReport?) ==> LastUsage(es) == None
  {
    if es != [] {
      NoEnd(Front(es), initial);
      assert forall j :: 0 <= j < |es| - 1 ==> Front(es)[j] == es[j];
      assert Last(es) == es[|es| - 1];
    }
  }

  /** The call fails with the message of the first event that carries an error, else as the transport did. */
  lemma {:induction false} FaultIs(es: seq<StreamEvent>, transport: Option<string>, k: nat)
    requires forall j :: 0 <= j < k && j < |es| ==> es[j].Error? ==> es[j].err == None
    ensures k >= |es| ==> Heard(es) == es && Fault(es, transport) == transport
    ensures k < |es| && es[k].Error? && es[k].err.Some? ==> Heard(es) == es[..k] && Fault(es, transport) == es[k].err
  {
    if es != [] && !Aborts(es[0]) {
      FaultIs(es[1..], transport, if k == 0 then 0 else k - 1);
      assert [es[0]] + es[1..] == es;
      assert forall j :: 0 < j < |es| ==> es[1..][j - 1] == es[j];
      assert 0 < k <= |es| ==> es[..k] == [es[0]] + es[1..][..k - 1];
    }
  }
}
