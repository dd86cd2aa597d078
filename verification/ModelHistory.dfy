/**
 Estimating and trimming the canonical model history
 (crates/harness-agent/src/lib.rs, `estimate_model_history_tokens` and
 `trim_model_history_to_budget`).

 Byte counts are 64-bit and unreachable in size, so they are unbounded here; the 32-bit token
 totals saturate as in the code.
 */
module ModelHistory {
  import opened Utf8Text
  import opened ContextPacking

  datatype Role = System | Developer | User | Assistant | Tool

  /** An image block carries its base64 data and its media type. */
  datatype Block = Text(text: Bytes) | Reasoning(reasoning: Bytes) | Image(data: Bytes, mediaType: Bytes)

  /** `arguments` is the JSON text of the call's arguments. */
  datatype ToolCall = ToolCall(id: Bytes, name: Bytes, arguments: Bytes)

  datatype Message = Message(role: Role, content: seq<Block>, resultId: Bytes, calls: seq<ToolCall>)

  // ----- estimates -----

  function BlockBytes(b: Block): nat {
    match b
    case Text(text) => |text|
    case Reasoning(text) => |text|
    case Image(data, mediaType) => |data| + |mediaType|
  }

  function ContentBytes(bs: seq<Block>): nat
    decreases |bs|
  {
    if bs == [] then 0 else BlockBytes(bs[0]) + ContentBytes(bs[1..])
  }

  function CallBytes(cs: seq<ToolCall>): nat
    decreases |cs|
  {
    if cs == [] then 0
    else |cs[0].id| + |cs[0].name| + |cs[0].arguments| + CallBytes(cs[1..])
  }

  function MessageTokens(m: Message): nat {
    Min((ContentBytes(m.content) + CallBytes(m.calls) + 3) / 4, U32_MAX)
  }

  /** The exact sum of the message estimates selected by `tool`. */
  function TokensOf(ms: seq<Message>, tool: bool): nat
    decreases |ms|
  {
    if ms == [] then 0
    else (if (ms[0].role == Tool) == tool then MessageTokens(ms[0]) else 0) + TokensOf(ms[1..], tool)
  }

  function ToolMessages(ms: seq<Message>): (n: nat)
    ensures n <= |ms|
    decreases |ms|
  {
    if ms == [] then 0 else (if ms[0].role == Tool then 1 else 0) + ToolMessages(ms[1..])
  }

  /** The saturating fold over all messages. */
  function EstimateHistory(ms: seq<Message>): nat {
    Min(TokensOf(ms, true) + TokensOf(ms, false), U32_MAX)
  }

  // ----- trimming -----

  const EXECUTED: Bytes := Ascii("{\"previously_executed\":true}")

  function WithoutArguments(cs: seq<ToolCall>): (r: seq<ToolCall>)
    ensures |r| == |cs|
    ensures forall i :: 0 <= i < |cs| ==> r[i] == cs[i].(arguments := EXECUTED)
  {
    seq(|cs|, i requires 0 <= i < |cs| => cs[i].(arguments := EXECUTED))
  }

  function DropArguments(m: Message): Message {
    m.(calls := WithoutArguments(m.calls))
  }

  function TrimBlocks(bs: seq<Block>, max: nat): (r: seq<Block>)
    ensures |r| == |bs|
    ensures forall i :: 0 <= i < |bs| ==>
              r[i] == if bs[i].Text? then Text(HistoryTrimmed(bs[i].text, max)) else bs[i]
  {
    seq(|bs|, i requires 0 <= i < |bs| =>
      if bs[i].Text? then Text(HistoryTrimmed(bs[i].text, max)) else bs[i])
  }

  function TrimResult(m: Message, max: nat): Message {
    if m.role == Tool then m.(content := TrimBlocks(m.content, max)) else m
  }

  function DropAllArguments(ms: seq<Message>): (r: seq<Message>)
    ensures |r| == |ms|
    ensures forall i :: 0 <= i < |ms| ==> r[i] == DropArguments(ms[i])
  {
    seq(|ms|, i requires 0 <= i < |ms| => DropArguments(ms[i]))
  }

  function TrimAllResults(ms: seq<Message>, max: nat): (r: seq<Message>)
    ensures |r| == |ms|
    ensures forall i :: 0 <= i < |ms| ==> r[i] == TrimResult(ms[i], max)
  {
    seq(|ms|, i requires 0 <= i < |ms| => TrimResult(ms[i], max))
  }

  /** The bytes each tool result may keep. */
  function PerResultBytes(ms: seq<Message>, max: nat): nat {
    var results := Max(ToolMessages(ms), 1);
    var fixed := SaturatingAdd(Min(TokensOf(ms, false), U32_MAX), Min(results, U32_MAX));
    SubOrZero(max, fixed) * 4 / results
  }

  function Trimmed(ms: seq<Message>, max: nat): seq<Message> {
    if EstimateHistory(ms) <= max then ms
    else
      var bare := DropAllArguments(ms);
      if EstimateHistory(bare) <= max then bare else TrimAllResults(bare, PerResultBytes(bare, max))
  }

  // ----- what trimming keeps -----

  /** The same calls, up to their arguments. */
  ghost predicate SameCalls(a: seq<ToolCall>, b: seq<ToolCall>) {
    |a| == |b| && forall i :: 0 <= i < |a| ==> a[i].id == b[i].id && a[i].name == b[i].name
  }

  /** The same message for provider pairing: role, result id, calls, and all content outside tool results. */
  ghost predicate SameProtocol(a: Message, b: Message) {
    && a.role == b.role && a.resultId == b.resultId && SameCalls(a.calls, b.calls)
    && |a.content| == |b.content|
    && (a.role != Tool ==> a.content == b.content)
    && forall i :: 0 <= i < |a.content| && !a.content[i].Text? ==> a.content[i] == b.content[i]
  }

  lemma TrimmingKeepsProtocol(ms: seq<Message>, max: nat)
    ensures |Trimmed(ms, max)| == |ms|
    ensures forall i :: 0 <= i < |ms| ==> SameProtocol(ms[i], Trimmed(ms, max)[i])
  {
  }

  // ----- the token bound -----

  /** The shape `Message::tool_result` gives a tool message: one text block and no calls. */
  predicate ResultShape(m: Message) {
    m.role == Tool ==> |m.content| == 1 && m.content[0].Text? && m.calls == []
  }

  predicate ResultShapes(ms: seq<Message>) {
    forall i :: 0 <= i < |ms| ==> ResultShape(ms[i])
  }

  lemma {:induction false} TrimKeepsOthers(ms: seq<Message>, max: nat)
    ensures TokensOf(TrimAllResults(ms, max), false) == TokensOf(ms, false)
    ensures ToolMessages(TrimAllResults(ms, max)) == ToolMessages(ms)
    decreases |ms|
  {
    if ms != [] {
      TrimKeepsOthers(ms[1..], max);
      assert TrimAllResults(ms, max)[1..] == TrimAllResults(ms[1..], max);
    }
  }

  /** A trimmed result costs at most its byte share rounded up to a token. */
  lemma TrimmedResultTokens(m: Message, max: nat)
    requires m.role == Tool && ResultShape(m)
    ensures MessageTokens(TrimResult(m, max)) <= (max + 3) / 4
  {
    HistoryTrimmedFits(m.content[0].text, max);
    var content := TrimBlocks(m.content, max);
    assert content[1..] == [];
    assert ContentBytes(content) == |HistoryTrimmed(m.content[0].text, max)|;
  }

  lemma {:induction false} TrimmedToolTokens(ms: seq<Message>, max: nat, cost: nat)
    requires ResultShapes(ms) && (max + 3) / 4 <= cost
    ensures TokensOf(TrimAllResults(ms, max), true) <= ToolMessages(ms) * cost
    decreases |ms|
  {
    if ms == [] {
      assert ToolMessages(ms) * cost == 0;
    } else {
      assert forall i :: 0 <= i < |ms[1..]| ==> ms[1..][i] == ms[i + 1];
      TrimmedToolTokens(ms[1..], max, cost);
      assert TrimAllResults(ms, max)[1..] == TrimAllResults(ms[1..], max);
      if ms[0].role == Tool {
        TrimmedResultTokens(ms[0], max);
        OneMore(ToolMessages(ms[1..]), cost);
      }
    }
  }

  lemma OneMore(n: nat, cost: nat)
    ensures (1 + n) * cost == cost + n * cost
  {
  }

  /** n results of floor(4r / n) bytes each cost at most r + n tokens, and nothing when r is 0. */
  lemma SharesFit(n: nat, r: nat)
    requires n >= 1
    ensures n * ((4 * r / n + 3) / 4) <= if r == 0 then 0 else r + n
  {
  }

  /** Dropping arguments changes no tool result of the usual shape. */
  lemma BareShapes(ms: seq<Message>)
    requires ResultShapes(ms)
    ensures ResultShapes(DropAllArguments(ms))
  {
  }

  /**
   Main result: for tool results of the usual shape the trimmed history is within the maximum
   exactly when the untrimmed history was, or the messages other than tool results fit once their
   calls have lost their arguments.
   */
  lemma TrimmedFitsExactlyWhen(ms: seq<Message>, max: nat)
    requires ResultShapes(ms) && max <= U32_MAX
    ensures EstimateHistory(Trimmed(ms, max)) <= max
            <==> EstimateHistory(ms) <= max || TokensOf(DropAllArguments(ms), false) <= max
  {
    var bare := DropAllArguments(ms);
    if EstimateHistory(ms) > max && EstimateHistory(bare) > max {
      var share := PerResultBytes(bare, max);
      BareShapes(ms);
      TrimKeepsOthers(bare, share);
      TrimmedToolTokens(bare, share, (share + 3) / 4);
      var results := Max(ToolMessages(bare), 1);
      var fixed := SaturatingAdd(Min(TokensOf(bare, false), U32_MAX), Min(results, U32_MAX));
      SharesFit(results, SubOrZero(max, fixed));
      if ToolMessages(bare) == 0 {
        assert ToolMessages(bare) * ((share + 3) / 4) == 0;
      }
    }
  }

  // ----- trimming in place -----

  method TrimModelHistoryToBudget(messages: array<Message>, max: nat)
    modifies messages
    ensures messages[..] == Trimmed(old(messages[..]), max)
  {
    ghost var before := messages[..];
    if EstimateHistory(messages[..]) <= max {
      return;
    }
    var i := 0;
    while i < messages.Length
      invariant 0 <= i <= messages.Length
      invariant forall k :: 0 <= k < i ==> messages[k] == DropArguments(before[k])
      invariant forall k :: i <= k < messages.Length ==> messages[k] == before[k]
    {
      if messages[i].calls != [] {
        messages[i] := messages[i].(calls := WithoutArguments(messages[i].calls));
      }
      i := i + 1;
    }
    ghost var bare := DropAllArguments(before);
    assert messages[..] == bare;
    if EstimateHistory(messages[..]) <= max {
      return;
    }
    var share := PerResultBytes(messages[..], max);
    i := 0;
    while i < messages.Length
      invariant 0 <= i <= messages.Length
      invariant forall k :: 0 <= k < i ==> messages[k] == TrimResult(bare[k], share)
      invariant forall k :: i <= k < messages.Length ==> messages[k] == bare[k]
    {
      if messages[i].role == Tool {
        messages[i] := messages[i].(content := TrimBlocks(messages[i].content, share));
      }
      i := i + 1;
    }
  }

}
