/** Chat transcripts: the merge of system messages, and the pairing of tool calls with results. */
module Transcript {
  import opened Prelude
  import opened Json

  const PARAGRAPH: string := "\n\n"

  function RoleOf(m: Value): string { StrOr(Get(m, Role), "") }

  predicate IsSystem(m: Value) { Get(m, Role) == Some(Str("system")) }

  predicate NotSystem(m: Value) { !IsSystem(m) }

  predicate IsTool(m: Value) { RoleOf(m) == "tool" }

  function SystemMessage(text: string): Value {
    Object(map[Role := Str("system"), Content := Str(text)])
  }

  // ---- system_messages_first ------------------------------------------------------------

  function SystemMessageText(codec: Codec, m: Value): Option<string> {
    match Get(m, Content)
    case None => None
    case Some(Null) => None
    case Some(content) =>
      if content.Str? && !IsBlank(content.s) then Some(content.s)
      else Some(codec.encode(content))
  }

  /** Contents that are no plain text are merged as JSON text, and can be read back from it. */
  lemma MergedAsJson(codec: Codec, m: Value, content: Value)
    requires codec.Lawful() && Get(m, Content) == Some(content) && content != Null
    ensures var text := SystemMessageText(codec, m);
      && text.Some? && !IsBlank(text.value)
      && (text.value == StrOr(Some(content), "") || codec.decode(text.value) == Some(content))
  {
    assert codec.decode(codec.encode(content)) == Some(content);
  }

  /** What one message contributes to the merged system text. */
  function PartOf(codec: Codec, m: Value): seq<string> {
    if !IsSystem(m) then []
    else match SystemMessageText(codec, m)
         case Some(text) => [text]
         case None => []
  }

  /** Texts that the merge keeps, in transcript order. */
  function SystemParts(codec: Codec, ms: seq<Value>): seq<string> { Collect(PartBy(codec), ms) }

  function PartBy(codec: Codec): Value -> seq<string> { (m: Value) => PartOf(codec, m) }

  function Conversation(ms: seq<Value>): seq<Value> { Filter(NotSystem, ms) }

  function SystemFirst(codec: Codec, ms: seq<Value>): seq<Value> {
    var parts := SystemParts(codec, ms);
    (if parts == [] then [] else [SystemMessage(Join(parts, PARAGRAPH))]) + Conversation(ms)
  }

  lemma SystemStep(codec: Codec, ms: seq<Value>, i: nat)
    requires i < |ms|
    ensures SystemParts(codec, ms[..i + 1]) == SystemParts(codec, ms[..i]) + PartOf(codec, ms[i])
    ensures Conversation(ms[..i + 1]) == Conversation(ms[..i]) + (if IsSystem(ms[i]) then [] else [ms[i]])
  {
    CollectStep(PartBy(codec), ms, i);
    FilterStep(NotSystem, ms, i);
  }

  method SystemMessagesFirst(codec: Codec, messages: seq<Value>) returns (ordered: seq<Value>)
    ensures ordered == SystemFirst(codec, messages)
  {
    var parts: seq<string> := [];
    for i := 0 to |messages|
      invariant parts == SystemParts(codec, messages[..i])
    {
      SystemStep(codec, messages, i);
      if IsSystem(messages[i]) {
        var text := SystemMessageText(codec, messages[i]);
        if text.Some? {
          parts := parts + [text.value];
        }
      }
    }
    assert messages[..|messages|] == messages;
    ordered := if parts == [] then [] else [SystemMessage(Join(parts, PARAGRAPH))];
    var rest: seq<Value> := [];
    for i := 0 to |messages|
      invariant rest == Conversation(messages[..i])
    {
      SystemStep(codec, messages, i);
      if !IsSystem(messages[i]) {
        rest := rest + [messages[i]];
      }
    }
    ordered := ordered + rest;
  }

  /** What is left of the system messages after one merge is a single non-blank text. */
  lemma {:induction false} MergedPartsNotBlank(codec: Codec, ms: seq<Value>)
    requires codec.Lawful()
    ensures forall part :: part in SystemParts(codec, ms) ==> !IsBlank(part)
  {
    if ms != [] {
      var n := |ms| - 1;
      MergedPartsNotBlank(codec, ms[..n]);
      CollectStep(PartBy(codec), ms, n);
      assert ms[..n + 1] == ms;
      hide Collect;
      forall part | part in PartOf(codec, ms[n]) ensures !IsBlank(part) {
      }
    }
  }

  lemma JoinNotBlank(parts: seq<string>, separator: string)
    requires parts != [] && !IsBlank(parts[0])
    ensures !IsBlank(Join(parts, separator))
  {
    var i :| 0 <= i < |parts[0]| && !IsWhitespace(parts[0][i]);
    assert Join(parts, separator)[i] == parts[0][i];
  }

  lemma ConversationHasNoParts(codec: Codec, ms: seq<Value>)
    ensures SystemParts(codec, Conversation(ms)) == []
    ensures Conversation(Conversation(ms)) == Conversation(ms)
  {
    hide Collect;
    FilterMembers(NotSystem, ms);
    FilterKeepsAll(NotSystem, Conversation(ms));
    CollectNothing(PartBy(codec), Conversation(ms));
  }

  /** Merging twice is merging once, whatever the system contents are. */
  lemma SystemFirstIdempotent(codec: Codec, ms: seq<Value>)
    requires codec.Lawful()
    ensures SystemFirst(codec, SystemFirst(codec, ms)) == SystemFirst(codec, ms)
  {
    var parts, rest := SystemParts(codec, ms), Conversation(ms);
    ConversationHasNoParts(codec, ms);
    if parts != [] {
      MergedPartsNotBlank(codec, ms);
      JoinNotBlank(parts, PARAGRAPH);
      MergedFirst(codec, Join(parts, PARAGRAPH), rest);
    } else {
      assert SystemFirst(codec, ms) == rest;
    }
  }

  lemma MergedFirst(codec: Codec, text: string, rest: seq<Value>)
    requires !IsBlank(text) && SystemParts(codec, rest) == [] && Conversation(rest) == rest
    ensures SystemFirst(codec, [SystemMessage(text)] + rest) == [SystemMessage(text)] + rest
  {
    hide Collect;
    var merged := SystemMessage(text);
    assert IsSystem(merged) && PartOf(codec, merged) == [text];
    CollectFirst(PartBy(codec), merged, rest);
    assert SystemParts(codec, [merged] + rest) == [text] + [] == [text];
    hide SystemParts;
    FilterFirst(NotSystem, merged, rest);
    assert [] + rest == rest;
  }

  /** The merge moves system messages only: at most one, in front; all others keep their order. */
  lemma SystemFirstKeepsConversation(codec: Codec, ms: seq<Value>)
    ensures var out := SystemFirst(codec, ms);
      && Conversation(out) == Conversation(ms)
      && (forall i :: 0 < i < |out| ==> NotSystem(out[i]))
      && (out != [] && IsSystem(out[0]) <==> SystemParts(codec, ms) != [])
  {
    hide Collect, SystemParts;
    var parts, rest := SystemParts(codec, ms), Conversation(ms);
    ConversationHasNoParts(codec, ms);
    FilterMembers(NotSystem, ms);
    assert forall i :: 0 <= i < |rest| ==> rest[i] in rest;
    if parts == [] {
      assert SystemFirst(codec, ms) == rest;
    } else {
      var merged := SystemMessage(Join(parts, PARAGRAPH));
      FilterFirst(NotSystem, merged, rest);
      assert [] + rest == rest;
    }
  }

  // ---- Pairing of tool calls and results --------------------------------------------------

  /** The tool calls an assistant message carries. */
  function CallsOf(m: Value): seq<Value> {
    if RoleOf(m) == "assistant" then ItemsOf(Get(m, ToolCalls)) else []
  }

  function CallId(call: Value): string { StrOr(Get(call, Id), "") }

  function CallName(call: Value): string { StrOr(Get2(call, Function, Name), "") }

  function EmptyObject(): Value { Object(map[]) }

  /** `serde_json::from_str(text).unwrap_or({})` */
  function ParseOrEmpty(codec: Codec, text: string): Value {
    match codec.decode(text)
    case Some(v) => v
    case None => EmptyObject()
  }

  /** Both the turn loop and the provider client read a call's arguments this way. */
  function CallArguments(codec: Codec, call: Value): Value {
    ParseOrEmpty(codec, StrOr(Get2(call, Function, Arguments), "{}"))
  }

  /** Arguments that are no JSON text count as none at all, and absent ones as an empty object. */
  lemma UnreadableArguments(codec: Codec, call: Value)
    ensures var text := Get2(call, Function, Arguments);
      && (text.Some? && text.value.Str? && codec.decode(text.value.s).None? ==>
           CallArguments(codec, call) == Object(map[]))
      && (text == None && codec.decode("{}") == Some(Object(map[])) ==> CallArguments(codec, call) == Object(map[]))
  {
  }

  function ResultId(m: Value): string { StrOr(Get(m, ToolCallId), "") }

  /** The message the turn loop appends for a reply that calls tools. */
  function AssistantCallTurn(contentRaw: string, toolCalls: Value): Value {
    Object(map[Role := Str("assistant"), Content := Str(contentRaw), ToolCalls := toolCalls])
  }

  /** All tool calls of a transcript, in order. */
  function AllCalls(ms: seq<Value>): seq<Value> { Collect(CallsOf, ms) }

  function ToolText(m: Value): seq<string> { if IsTool(m) then [StrOr(Get(m, Content), "")] else [] }

  /** What all tool messages of a transcript say, in order. */
  function ToolTexts(ms: seq<Value>): seq<string> { Collect(ToolText, ms) }

  predicate Answers(m: Value, call: Value) { IsTool(m) && ResultId(m) == CallId(call) }

  /** Reading `ms` with the calls in `pending` still to be answered, in that order, next. */
  predicate Pairs(pending: seq<Value>, ms: seq<Value>)
    decreases |ms|
  {
    if ms == [] then pending == []
    else if pending != [] then Answers(ms[0], pending[0]) && Pairs(pending[1..], ms[1..])
    else !IsTool(ms[0]) && Pairs(CallsOf(ms[0]), ms[1..])
  }

  /** Every assistant message with k calls is followed at once by k results with the same ids in
      the same order, and there is no other result. */
  predicate WellPaired(ms: seq<Value>) { Pairs([], ms) }

  lemma {:induction false} PairsAppend(pending: seq<Value>, a: seq<Value>, b: seq<Value>)
    requires WellPaired(b)
    ensures Pairs(pending, a + b) <==> Pairs(pending, a)
    decreases |a|
  {
    if a == [] {
      assert a + b == b;
    } else {
      assert (a + b)[1..] == a[1..] + b;
      PairsAppend(if pending != [] then pending[1..] else CallsOf(a[0]), a[1..], b);
    }
  }

  lemma WellPairedAppend(a: seq<Value>, b: seq<Value>)
    requires WellPaired(b)
    ensures WellPaired(a + b) <==> WellPaired(a)
  {
    PairsAppend([], a, b);
  }

  lemma {:induction false} PlainIsWellPaired(ms: seq<Value>)
    requires forall m :: m in ms ==> !IsTool(m) && CallsOf(m) == []
    ensures WellPaired(ms)
    decreases |ms|
  {
    if ms != [] {
      assert ms[0] in ms;
      PlainIsWellPaired(ms[1..]);
    }
  }

  lemma {:induction false} AnsweredInOrder(calls: seq<Value>, results: seq<Value>)
    requires |calls| == |results|
    requires forall i :: 0 <= i < |calls| ==> Answers(results[i], calls[i])
    ensures Pairs(calls, results)
    decreases |results|
  {
    if calls != [] {
      AnsweredInOrder(calls[1..], results[1..]);
    }
  }

  lemma {:induction false} PendingAnsweredFirst(pending: seq<Value>, ms: seq<Value>, j: nat)
    requires Pairs(pending, ms) && j < |pending|
    ensures j < |ms| && Answers(ms[j], pending[j])
    decreases |ms|
  {
    if j > 0 {
      PendingAnsweredFirst(pending[1..], ms[1..], j - 1);
    }
  }

  lemma {:induction false} PairedAt(pending: seq<Value>, ms: seq<Value>, i: nat, j: nat)
    requires Pairs(pending, ms) && i < |ms| && j < |CallsOf(ms[i])|
    ensures i + 1 + j < |ms| && Answers(ms[i + 1 + j], CallsOf(ms[i])[j])
    decreases |ms|
  {
    var next := if pending != [] then pending[1..] else CallsOf(ms[0]);
    if i > 0 {
      PairedAt(next, ms[1..], i - 1, j);
    } else {
      PendingAnsweredFirst(CallsOf(ms[0]), ms[1..], j);
    }
  }

  /** The predicate, read at one position: the calls there are answered right after it. */
  lemma PairedEverywhere(ms: seq<Value>, i: nat, j: nat)
    requires WellPaired(ms) && i < |ms| && j < |CallsOf(ms[i])|
    ensures i + 1 + j < |ms| && Answers(ms[i + 1 + j], CallsOf(ms[i])[j])
  {
    PairedAt([], ms, i, j);
  }

  lemma {:induction false} ResultAt(pending: seq<Value>, ms: seq<Value>, t: nat) returns (i: nat, j: nat)
    requires Pairs(pending, ms) && |pending| <= t < |ms| && IsTool(ms[t])
    ensures i < t && j < |CallsOf(ms[i])| && t == i + 1 + j
    decreases |ms|
  {
    if pending != [] {
      i, j := ResultAt(pending[1..], ms[1..], t - 1);
      i := i + 1;
    } else if t <= |CallsOf(ms[0])| {
      i, j := 0, t - 1;
    } else {
      i, j := ResultAt(CallsOf(ms[0]), ms[1..], t - 1);
      i := i + 1;
    }
  }

  /** ... and a result at position t answers a call made before it. */
  lemma EveryResultAnswers(ms: seq<Value>, t: nat) returns (i: nat, j: nat)
    requires WellPaired(ms) && t < |ms| && IsTool(ms[t])
    ensures i < t && j < |CallsOf(ms[i])| && t == i + 1 + j && Answers(ms[t], CallsOf(ms[i])[j])
  {
    i, j := ResultAt([], ms, t);
    PairedEverywhere(ms, i, j);
  }

  lemma SystemIsNoCallAndNoResult(m: Value)
    requires IsSystem(m)
    ensures !IsTool(m) && CallsOf(m) == []
  {
    assert RoleOf(m) == "system";
    assert "system"[0] != "tool"[0];
  }

  lemma {:induction false} ConversationPairs(pending: seq<Value>, ms: seq<Value>)
    requires Pairs(pending, ms)
    ensures Pairs(pending, Conversation(ms))
    decreases |ms|
  {
    if ms != [] {
      ConversationPairs(if pending != [] then pending[1..] else CallsOf(ms[0]), ms[1..]);
      var rest := Conversation(ms[1..]);
      FilterFirst(NotSystem, ms[0], ms[1..]);
      assert ms == [ms[0]] + ms[1..];
      if IsSystem(ms[0]) {
        SystemIsNoCallAndNoResult(ms[0]);
        assert Conversation(ms) == [] + rest == rest;
      } else {
        assert Conversation(ms) == [ms[0]] + rest;
      }
    }
  }

  lemma ConversationWellPaired(ms: seq<Value>)
    requires WellPaired(ms)
    ensures WellPaired(Conversation(ms))
  {
    ConversationPairs([], ms);
  }

  /** Sending the merged transcript instead of the stored one does not break the pairing; it repairs
      it where only a system message stood between a call and its results. */
  lemma SystemFirstWellPaired(codec: Codec, ms: seq<Value>)
    ensures WellPaired(SystemFirst(codec, ms)) <==> WellPaired(Conversation(ms))
    ensures WellPaired(ms) ==> WellPaired(SystemFirst(codec, ms))
  {
    if WellPaired(ms) {
      ConversationWellPaired(ms);
    }
    var parts := SystemParts(codec, ms);
    if parts != [] {
      var merged := SystemMessage(Join(parts, PARAGRAPH));
      SystemIsNoCallAndNoResult(merged);
      assert ([merged] + Conversation(ms))[1..] == Conversation(ms);
    } else {
      assert SystemFirst(codec, ms) == Conversation(ms);
    }
  }
}
