/** internal/protocol/common.go: the accumulator of the non-streaming paths. */
module Collect {
  import opened Basics
  import opened StreamEvents

  datatype ToolCallAcc = ToolCallAcc(id: string, typ: string, name: string, args: string)

  datatype Collected = Collected(
    content: string,
    reasoning: string,
    toolCalls: map<int, ToolCallAcc>,
    toolOrder: seq<int>,
    finishReason: string,
    usage: Option<Usage>)

  const EMPTY := Collected("", "", map[], [], "", None)

  /** The accumulated tool calls say of every index what its deltas say, in order of appearance. */
  ghost predicate ToolsOf(c: Collected, es: seq<StreamEvent>) {
    && c.toolOrder == ToolIndexes(es)
    && (forall t :: t in c.toolCalls <==> t in c.toolOrder)
    && forall t :: t in c.toolCalls ==>
         c.toolCalls[t] == ToolCallAcc(ToolId(es, t), ToolType(es, t), ToolName(es, t), ToolArguments(es, t))
  }

  ghost predicate Accounts(c: Collected, es: seq<StreamEvent>) {
    && c.content == AllText(es)
    && c.reasoning == AllReasoning(es)
    && c.finishReason == LastFinish(es, "")
    && c.usage == LastUsage(es)
    && ToolsOf(c, es)
  }

  /** Merges one delta into the call it belongs to. */
  function MergeDelta(acc: ToolCallAcc, tc: ToolCallDelta): ToolCallAcc {
    ToolCallAcc(
      if tc.id != "" then tc.id else acc.id,
      if tc.typ != "" then tc.typ else acc.typ,
      if tc.name != "" then tc.name else acc.name,
      acc.args + tc.arguments)
  }

  /** An event other than a tool delta changes exactly the field it carries. */
  lemma {:induction false} AccountsOtherEvent(c: Collected, es: seq<StreamEvent>, e: StreamEvent)
    requires Accounts(c, es) && !e.ToolCall?
    ensures match e
            case Text(text) => Accounts(c.(content := c.content + text), es + [e])
            case Reasoning(reasoning) => Accounts(c.(reasoning := c.reasoning + reasoning), es + [e])
            case Finish(reason) => Accounts(c.(finishReason := reason), es + [e])
            case UsageReport(usage) => Accounts(c.(usage := usage), es + [e])
            case _ => Accounts(c, es + [e])
  {
    hide AllText, AllReasoning, LastFinish, LastUsage, ToolIndexes, ToolId, ToolType, ToolName, ToolArguments;
    TextSnoc(es, e);
    EndSnoc(es, e, "");
    OrderSnoc(es, e);
    assert c.reasoning + "" == c.reasoning && c.content + "" == c.content;
    forall t ensures ToolId(es + [e], t) == ToolId(es, t) && ToolType(es + [e], t) == ToolType(es, t)
                  && ToolName(es + [e], t) == ToolName(es, t) && ToolArguments(es + [e], t) == ToolArguments(es, t) {
      ToolSnoc(es, e, t);
      assert ToolArguments(es, t) + "" == ToolArguments(es, t);
    }
  }

  /** Merging a delta into the accumulator of its index. */
  lemma {:induction false} AccountsToolDelta(c: Collected, es: seq<StreamEvent>, tc: ToolCallDelta)
    requires Accounts(c, es)
    ensures Accounts(AddDelta(c, tc), es + [ToolCall(tc)])
  {
    hide AllText, AllReasoning, LastFinish, LastUsage, ToolIndexes, ToolId, ToolType, ToolName, ToolArguments;
    var e := ToolCall(tc);
    TextSnoc(es, e);
    EndSnoc(es, e, "");
    OrderSnoc(es, e);
    assert c.reasoning + "" == c.reasoning && c.content + "" == c.content;
    if tc.index !in c.toolCalls {
      UnseenTool(es, tc.index);
    }
    var d := AddDelta(c, tc);
    forall t | t in d.toolCalls
      ensures d.toolCalls[t] == ToolCallAcc(ToolId(es + [e], t), ToolType(es + [e], t),
                                            ToolName(es + [e], t), ToolArguments(es + [e], t))
    {
      ToolSnoc(es, e, t);
      assert ToolArguments(es, t) + "" == ToolArguments(es, t);
    }
  }

  /** The map entry of a delta's index, created on first sight, with the delta merged in. */
  function AddDelta(c: Collected, tc: ToolCallDelta): Collected {
    if tc.index in c.toolCalls then
      c.(toolCalls := c.toolCalls[tc.index := MergeDelta(c.toolCalls[tc.index], tc)])
    else
      c.(toolCalls := c.toolCalls[tc.index := MergeDelta(ToolCallAcc("", "function", "", ""), tc)],
         toolOrder := c.toolOrder + [tc.index])
  }

  /** The callback: what one event adds. */
  method CollectEvent(c0: Collected, evt: StreamEvent, ghost es: seq<StreamEvent>) returns (c: Collected)
    requires !Aborts(evt) && Accounts(c0, es)
    ensures Accounts(c, es + [evt])
  {
    hide Accounts, MergeDelta;
    c := c0;
    if !evt.ToolCall? {
      AccountsOtherEvent(c, es, evt);
    }
    match evt {
      case Text(text) => c := c.(content := c.content + text);
      case Reasoning(reasoning) => c := c.(reasoning := c.reasoning + reasoning);
      case ToolCall(tc) =>
        AccountsToolDelta(c, es, tc);
        var acc := ToolCallAcc("", "function", "", "");
        if tc.index in c.toolCalls {
          acc := c.toolCalls[tc.index];
        } else {
          c := c.(toolOrder := c.toolOrder + [tc.index]);
        }
        c := c.(toolCalls := c.toolCalls[tc.index := MergeDelta(acc, tc)]);
      case Finish(reason) => c := c.(finishReason := reason);
      case UsageReport(usage) => c := c.(usage := usage);
      case _ =>
    }
  }

  /** Drains the events into one response; stops at the first event that carries an error. */
  method CollectEvents(es: seq<StreamEvent>, transport: Option<string>)
    returns (c: Collected, err: Option<string>)
    ensures Accounts(c, Heard(es))
    ensures err == Fault(es, transport)
  {
    c := EMPTY;
    assert es[..0] == [];
    for i := 0 to |es|
      invariant forall k :: 0 <= k < i ==> !Aborts(es[k])
      invariant Accounts(c, es[..i])
    {
      hide Accounts, Heard;
      HeardSoFar(es, i);
      if Aborts(es[i]) {
        return c, es[i].err;
      }
      c := CollectEvent(c, es[i], es[..i]);
    }
    assert Heard(es) == es && es[..|es|] == es;
    err := transport;
  }
}
