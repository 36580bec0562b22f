/** `AssistantService::run_turn`: the loop that asks the model, runs its tool calls and stops. */
module TurnLoop {
  import opened Prelude
  import opened Json
  import opened Transcript
  import opened Pairing
  import opened TurnTrace
  import Sorting

  datatype Lookup = Candidate(enabled: bool, anthropic: bool) | Unavailable

  datatype TurnError = LlmFailed(message: string) | Cancelled | LifecycleRefused

  datatype Nudge = FinalAnswer | GateClosed | RepeatedCall

  datatype Invocation = Invocation(
    capability: string, arguments: Value, result: Option<Value>, error: Option<string>)

  datatype CallRecord = CallRecord(
    idx: nat, callId: string, fnName: string, arguments: Value, skipReason: Option<string>)

  datatype Output = Output(record: CallRecord, result: ToolOutcome, wasGated: bool, wasDuplicate: bool)

  /** Everything the loop cannot see: the model, the tools and who provides them, the credential
      store, cancellation, the order in which parallel tools finish, and fixed texts. The natural
      numbers count requests, candidates, checks, batches and calls of the turn, so any behaviour is
      possible. `outside` is what others have done to the taint of the session since the batch
      before: tainted it, cleared its taint, or left it alone. */
  datatype World = World(
    codec: Codec,
    llm: nat -> LlmOutcome,
    lifecycleAllows: nat -> bool,
    lookup: nat -> Lookup,
    cancelled: nat -> bool,
    outside: nat -> Option<bool>,
    providers: map<string, string>,
    tool: nat -> ToolOutcome,
    finishOrder: (nat, seq<Output>) -> seq<Output>,
    nudge: Nudge -> string,
    answerText: (Value, seq<Invocation>) -> string)
  {
    /** Tools may finish in any order, but each finishes once. */
    ghost predicate Fair() {
      forall n: nat, outputs: seq<Output> :: multiset(finishOrder(n, outputs)) == multiset(outputs)
    }
  }

  // ---- Pieces of one batch ------------------------------------------------------------------

  function RecordOf(codec: Codec, idx: nat, call: Value): CallRecord {
    CallRecord(idx, CallId(call), CallName(call), CallArguments(codec, call), None)
  }

  function MarkedRecord(codec: Codec, seen: set<string>, idx: nat, call: Value): CallRecord {
    var reason := if CallSignature(codec, call) in seen then Some(DuplicateReason(CallName(call))) else None;
    RecordOf(codec, idx, call).(skipReason := reason)
  }

  /** The records of a batch: a call is skipped if its signature is in `seen`, the signatures of
      the turn so far, or occurred earlier in the batch. */
  function MarkedRecords(codec: Codec, seen: set<string>, start: nat, calls: seq<Value>): (r: seq<CallRecord>)
    ensures |r| == |calls|
    decreases |calls|
  {
    if calls == [] then []
    else
      [MarkedRecord(codec, seen, start, calls[0])]
      + MarkedRecords(codec, seen + {CallSignature(codec, calls[0])}, start + 1, calls[1..])
  }

  lemma {:induction false} MarkNext(codec: Codec, seen: set<string>, start: nat, calls: seq<Value>, call: Value)
    ensures MarkedRecords(codec, seen, start, calls + [call])
         == MarkedRecords(codec, seen, start, calls)
          + [MarkedRecord(codec, seen + CallSignatures(codec, calls), start + |calls|, call)]
    ensures CallSignatures(codec, calls + [call]) == CallSignatures(codec, calls) + {CallSignature(codec, call)}
    decreases |calls|
  {
    if calls == [] {
      assert [] + [call] == [call] && seen + {} == seen;
    } else {
      var seen1 := seen + {CallSignature(codec, calls[0])};
      assert (calls + [call])[1..] == calls[1..] + [call];
      MarkNext(codec, seen1, start + 1, calls[1..], call);
      assert seen1 + CallSignatures(codec, calls[1..]) == seen + CallSignatures(codec, calls);
    }
  }

  lemma MarkLoop(codec: Codec, seen: set<string>, calls: seq<Value>, i: nat, keys: set<string>)
    requires i < |calls| && keys == seen + CallSignatures(codec, calls[..i])
    ensures MarkedRecords(codec, seen, 0, calls[..i + 1])
         == MarkedRecords(codec, seen, 0, calls[..i]) + [MarkedRecord(codec, keys, i, calls[i])]
    ensures seen + CallSignatures(codec, calls[..i + 1]) == keys + {CallSignature(codec, calls[i])}
  {
    MarkNext(codec, seen, 0, calls[..i], calls[i]);
    assert calls[..i + 1] == calls[..i] + [calls[i]];
  }

  lemma {:induction false} MarkedAt(codec: Codec, seen: set<string>, start: nat, calls: seq<Value>, i: nat)
    requires i < |calls|
    ensures var r := MarkedRecords(codec, seen, start, calls)[i];
      r == RecordOf(codec, start + i, calls[i]).(skipReason := r.skipReason)
    decreases |calls|
  {
    if i > 0 {
      MarkedAt(codec, seen + {CallSignature(codec, calls[0])}, start + 1, calls[1..], i - 1);
    }
  }

  lemma {:induction false} SkippedAt(codec: Codec, seen: set<string>, start: nat, calls: seq<Value>, i: nat)
    requires i < |calls|
    ensures MarkedRecords(codec, seen, start, calls)[i].skipReason.Some? <==>
      CallSignature(codec, calls[i]) in seen + CallSignatures(codec, calls[..i])
    decreases |calls|
  {
    if i > 0 {
      var first := CallSignature(codec, calls[0]);
      SkippedAt(codec, seen + {first}, start + 1, calls[1..], i - 1);
      assert calls[..i][1..] == calls[1..][..i - 1];
    }
  }

  /** One of `calls` asks for the same as `call`. */
  predicate AskedAmong(codec: Codec, calls: seq<Value>, call: Value) {
    exists k :: 0 <= k < |calls| && SameCall(codec, calls[k], call)
  }

  lemma {:induction false} SignatureAmong(codec: Codec, calls: seq<Value>, call: Value)
    requires codec.Lawful() && codec.OneLine()
    ensures CallSignature(codec, call) in CallSignatures(codec, calls) <==>
      AskedAmong(codec, calls, call)
  {
    if calls != [] {
      SignatureAmong(codec, calls[1..], call);
      SameSignature(codec, calls[0], call);
      hide SameCall, CallSignature;
      if k :| 0 <= k < |calls| && SameCall(codec, calls[k], call) && k > 0 {
        assert SameCall(codec, calls[1..][k - 1], call);
      }
      if k :| 0 <= k < |calls| - 1 && SameCall(codec, calls[1..][k], call) {
        assert SameCall(codec, calls[k + 1], call);
      }
    }
  }

  /** A call of a batch is skipped exactly if the turn has asked for the same before, in an earlier
      batch (`past`) or in this one. */
  lemma SkippedExactly(codec: Codec, past: seq<Value>, calls: seq<Value>, i: nat)
    requires codec.Lawful() && codec.OneLine() && i < |calls|
    ensures MarkedRecords(codec, CallSignatures(codec, past), 0, calls)[i].skipReason.Some? <==>
      AskedAmong(codec, past, calls[i]) || AskedAmong(codec, calls[..i], calls[i])
  {
    hide AskedAmong, CallSignature, CallSignatures, MarkedRecords;
    SkippedAt(codec, CallSignatures(codec, past), 0, calls, i);
    SignatureAmong(codec, past, calls[i]);
    SignatureAmong(codec, calls[..i], calls[i]);
  }

  /** One dispatched future of a batch; `first` calls of the turn have been handled before it. */
  function RunOne(world: World, first: nat, r: CallRecord, tainted: bool): Output {
    var gated := tainted && r.fnName in SENSITIVE;
    var result :=
      if r.skipReason.Some? then InvalidArgument(r.skipReason.value)
      else if gated then InvalidArgument(GateReason(r.fnName))
      else world.tool(first + r.idx);
    Output(r, result, gated, r.skipReason.Some?)
  }

  function RunAll(world: World, first: nat, records: seq<CallRecord>, tainted: bool): seq<Output> {
    seq(|records|, i requires 0 <= i < |records| => RunOne(world, first, records[i], tainted))
  }

  predicate IdxOrder(a: Output, b: Output) { a.record.idx <= b.record.idx }

  /** Whatever order the tools finish in, sorting by index restores the order of emission. */
  lemma EmittedOrderRestored(world: World, batch: nat, first: nat, records: seq<CallRecord>, tainted: bool)
    requires world.Fair()
    requires forall i :: 0 <= i < |records| ==> records[i].idx == i
    ensures var outputs := RunAll(world, first, records, tainted);
      Sorting.Sort(IdxOrder, world.finishOrder(batch, outputs)) == outputs
  {
    var outputs := RunAll(world, first, records, tainted);
    var finished := world.finishOrder(batch, outputs);
    Sorting.SortPermutes(IdxOrder, finished);
    Sorting.SortSorts(IdxOrder, finished);
    forall x, y | x in outputs && y in outputs && IdxOrder(x, y) && IdxOrder(y, x) ensures x == y {
      var i :| 0 <= i < |outputs| && outputs[i] == x;
      var j :| 0 <= j < |outputs| && outputs[j] == y;
      assert x.record == records[i] && y.record == records[j];
    }
    Sorting.TieFreeArrangement(IdxOrder, outputs, Sorting.Sort(IdxOrder, finished));
  }

  lemma RecordsIndexed(codec: Codec, seen: set<string>, calls: seq<Value>)
    ensures var records := MarkedRecords(codec, seen, 0, calls);
      forall i :: 0 <= i < |records| ==> records[i].idx == i
  {
    forall i | 0 <= i < |calls| ensures MarkedRecords(codec, seen, 0, calls)[i].idx == i {
      MarkedAt(codec, seen, 0, calls, i);
    }
  }

  // ---- Taint of a batch -----------------------------------------------------------------------

  /** `mcp_taint_for_provider`: an answer of this provider taints the session. */
  predicate IsExternal(provider: string) {
    StartsWith(provider, "mcp:") && !StartsWith(provider, "mcp:trusted:")
  }

  lemma ExternalExactly(provider: string)
    ensures IsExternal(provider) <==> exists id :: provider == "mcp:" + id && !StartsWith(id, "trusted:")
  {
    if StartsWith(provider, "mcp:") {
      var id := provider[4..];
      assert provider == "mcp:" + id && "mcp:trusted:" == "mcp:" + "trusted:";
      assert |provider| >= 12 ==> provider[..12] == "mcp:" + id[..8];
      assert |provider| >= 12 ==> id[..8] == provider[..12][4..] && "trusted:" == "mcp:trusted:"[4..];
    }
    forall id | provider == "mcp:" + id ensures StartsWith(provider, "mcp:") && id == provider[4..] {
      assert provider[..4] == "mcp:";
    }
  }

  predicate Taints(world: World, capability: string) {
    capability in world.providers && IsExternal(world.providers[capability])
  }

  predicate Mints(world: World, o: Output) {
    o.result.ToolOk? && Taints(world, o.record.fnName)
  }

  predicate AnyMints(world: World, outputs: seq<Output>) {
    exists i :: 0 <= i < |outputs| && Mints(world, outputs[i])
  }

  /** The taint a batch finds, if the one before it left `tainted` behind. */
  function TaintBefore(world: World, batch: nat, tainted: bool): bool {
    match world.outside(batch)
    case Some(now) => now
    case None => tainted
  }

  lemma OthersDecide(world: World, batch: nat, tainted: bool)
    ensures TaintBefore(world, batch, tainted) <==>
      world.outside(batch) == Some(true) || (tainted && world.outside(batch) != Some(false))
  {
  }

  lemma AnyMintsNext(world: World, outputs: seq<Output>, i: nat)
    requires i < |outputs|
    ensures AnyMints(world, outputs[..i + 1]) <==> AnyMints(world, outputs[..i]) || Mints(world, outputs[i])
  {
    hide Mints;
    if AnyMints(world, outputs[..i]) {
      var k :| 0 <= k < i && Mints(world, outputs[..i][k]);
      assert outputs[..i + 1][k] == outputs[..i][k];
    }
    assert outputs[..i + 1][i] == outputs[i];
  }

  // ---- A batch in the trace ---------------------------------------------------------------------

  function CallOf(world: World, request: Value, o: Output, tainted: bool): Call {
    Call(request, o.result, o.wasDuplicate, o.wasGated, tainted, Mints(world, o))
  }

  function CallsMade(world: World, requests: seq<Value>, outputs: seq<Output>, tainted: bool): seq<Call>
    requires |requests| == |outputs|
  {
    seq(|requests|, i requires 0 <= i < |requests| => CallOf(world, requests[i], outputs[i], tainted))
  }

  lemma {:induction false} BatchAllowed(world: World, first: nat, seen: set<string>, start: nat, requests: seq<Value>,
                                        tainted: bool)
    ensures var outputs := RunAll(world, first, MarkedRecords(world.codec, seen, start, requests), tainted);
      BatchOf(world.codec, seen, tainted, CallsMade(world, requests, outputs, tainted))
    decreases |requests|
  {
    if requests != [] {
      var seen1 := seen + {CallSignature(world.codec, requests[0])};
      var records, rest := MarkedRecords(world.codec, seen, start, requests),
                           MarkedRecords(world.codec, seen1, start + 1, requests[1..]);
      BatchAllowed(world, first, seen1, start + 1, requests[1..], tainted);
      var made := CallsMade(world, requests, RunAll(world, first, records, tainted), tainted);
      assert CallAllowed(world.codec, seen, tainted, made[0]);
      hide CallAllowed, CallSignature, RunOne, CallOf, MarkedRecord;
      assert records[1..] == rest;
      assert made[1..] == CallsMade(world, requests[1..], RunAll(world, first, rest, tainted), tainted);
    }
  }

  function CountGated(outputs: seq<Output>): nat {
    if outputs == [] then 0 else (if outputs[0].wasGated then 1 else 0) + CountGated(outputs[1..])
  }

  function CountDuplicates(outputs: seq<Output>): nat {
    if outputs == [] then 0 else (if outputs[0].wasDuplicate then 1 else 0) + CountDuplicates(outputs[1..])
  }

  lemma {:induction false} CountsOfCalls(world: World, requests: seq<Value>, outputs: seq<Output>, tainted: bool)
    requires |requests| == |outputs|
    ensures GatedIn(CallsMade(world, requests, outputs, tainted)) == CountGated(outputs)
    ensures DuplicatesIn(CallsMade(world, requests, outputs, tainted)) == CountDuplicates(outputs)
    decreases |requests|
  {
    if requests != [] {
      CountsOfCalls(world, requests[1..], outputs[1..], tainted);
      assert CallsMade(world, requests, outputs, tainted)[1..]
          == CallsMade(world, requests[1..], outputs[1..], tainted);
    }
  }

  lemma MintsOfCalls(world: World, requests: seq<Value>, outputs: seq<Output>, tainted: bool)
    requires |requests| == |outputs|
    ensures MintedIn(CallsMade(world, requests, outputs, tainted)) <==> AnyMints(world, outputs)
  {
    hide Mints;
    var made := CallsMade(world, requests, outputs, tainted);
    assert forall i :: 0 <= i < |outputs| ==> (made[i].minted <==> Mints(world, outputs[i]));
  }

  lemma AddedByBatch(world: World, calls: seq<Call>, requests: seq<Value>, outputs: seq<Output>, tainted: bool)
    requires |requests| == |outputs|
    ensures var made := CallsMade(world, requests, outputs, tainted);
      var calls1 := calls + made;
      && calls1[|calls|..] == made && Requests(made) == requests
      && (forall i :: |calls| <= i < |calls1| ==> calls1[i].tainted == tainted)
      && MintedIn(made) == AnyMints(world, outputs)
  {
    MintsOfCalls(world, requests, outputs, tainted);
    hide AnyMints, MintedIn;
    assert Requests(CallsMade(world, requests, outputs, tainted)) == requests;
  }

  lemma RequestsSplit(calls: seq<Call>, calls1: seq<Call>)
    ensures calls <= calls1 ==> Requests(calls1) == Requests(calls) + Requests(calls1[|calls|..])
  {
  }

  /** `outputs` are the outputs of a batch made when `seen` were the known signatures. */
  ghost predicate BatchOutputs(world: World, first: nat, seen: set<string>, requests: seq<Value>, tainted: bool,
                               outputs: seq<Output>)
  {
    outputs == RunAll(world, first, MarkedRecords(world.codec, seen, 0, requests), tainted)
  }

  lemma BatchState(world: World, initial: seq<Value>, past: seq<Event>, first: nat, requests: seq<Value>, tainted: bool,
                   outputs: seq<Output>)
    requires var st := Observe(Setup(world.codec, initial), past);
      && !st.off && st.exposed == tainted && st.due == requests
      && BatchOutputs(world, first, st.signatures, requests, tainted, outputs)
    ensures |outputs| == |requests|
    ensures var setup, made := Setup(world.codec, initial), CallsMade(world, requests, outputs, tainted);
      && Observe(setup, past + Report(made) + [BatchDone]) == CloseBatch(AfterCalls(setup, Observe(setup, past), made))
      && GatedIn(made) == CountGated(outputs) && DuplicatesIn(made) == CountDuplicates(outputs)
      && MintedIn(made) == AnyMints(world, outputs) && Requests(made) == requests
  {
    var setup, made := Setup(world.codec, initial), CallsMade(world, requests, outputs, tainted);
    BatchAllowed(world, first, Observe(setup, past).signatures, 0, requests, tainted);
    CountsOfCalls(world, requests, outputs, tainted);
    MintsOfCalls(world, requests, outputs, tainted);
    hide Observe, BatchOf, AfterCalls, MintedIn, AnyMints;
    assert Requests(made) == requests;
    BatchTrace(setup, past, made);
  }

  // ---- A batch in the transcript ----------------------------------------------------------------

  function ToolMessage(callId: string, content: string): Value {
    Object(map[Role := Str("tool"), ToolCallId := Str(callId), Content := Str(content)])
  }

  function ResultMessage(codec: Codec, o: Output): Value {
    ToolMessage(o.record.callId, AnswerText(codec, o.result))
  }

  function ResultMessages(codec: Codec, outputs: seq<Output>): seq<Value> {
    seq(|outputs|, i requires 0 <= i < |outputs| => ResultMessage(codec, outputs[i]))
  }

  /** A batch on paper: the assistant turn and the results in emitted order are well paired. */
  lemma BatchWellPaired(codec: Codec, contentRaw: string, toolCalls: Value, outputs: seq<Output>)
    requires toolCalls.Array? && |outputs| == |toolCalls.items|
    requires forall i :: 0 <= i < |outputs| ==> outputs[i].record.callId == CallId(toolCalls.items[i])
    ensures WellPaired([AssistantCallTurn(contentRaw, toolCalls)] + ResultMessages(codec, outputs))
  {
    var turn, results := AssistantCallTurn(contentRaw, toolCalls), ResultMessages(codec, outputs);
    assert RoleOf(turn) == "assistant" && CallsOf(turn) == toolCalls.items;
    assert "assistant"[0] != "tool"[0];
    forall i | 0 <= i < |results| ensures Answers(results[i], toolCalls.items[i]) {
      assert RoleOf(results[i]) == "tool";
    }
    AnsweredInOrder(toolCalls.items, results);
    assert ([turn] + results)[1..] == results;
  }

  lemma ResultSays(codec: Codec, o: Output)
    ensures CallsOf(ResultMessage(codec, o)) == []
    ensures ToolText(ResultMessage(codec, o)) == [AnswerText(codec, o.result)]
    ensures Native(ResultMessage(codec, o))
  {
    assert RoleOf(ResultMessage(codec, o)) == "tool";
    assert "assistant"[0] != "tool"[0];
    TextIsNative(ResultMessage(codec, o));
  }

  lemma {:induction false} ResultsSay(codec: Codec, outputs: seq<Output>)
    ensures AllCalls(ResultMessages(codec, outputs)) == []
    ensures ToolTexts(ResultMessages(codec, outputs))
         == seq(|outputs|, i requires 0 <= i < |outputs| => AnswerText(codec, outputs[i].result))
    ensures AllNative(ResultMessages(codec, outputs))
    decreases |outputs|
  {
    hide ResultMessage, AnswerText, CallsOf, ToolText, Native;
    if outputs != [] {
      var n := |outputs| - 1;
      var results := ResultMessages(codec, outputs);
      ResultsSay(codec, outputs[..n]);
      ResultSays(codec, outputs[n]);
      assert results[..n] == ResultMessages(codec, outputs[..n]) && results == results[..n] + [results[n]];
      CollectNext(CallsOf, results[..n], results[n]);
      CollectNext(ToolText, results[..n], results[n]);
    }
  }

  lemma CallTurnSays(contentRaw: string, toolCalls: Value)
    requires toolCalls.Array?
    ensures CallsOf(AssistantCallTurn(contentRaw, toolCalls)) == toolCalls.items
    ensures ToolText(AssistantCallTurn(contentRaw, toolCalls)) == []
    ensures Native(AssistantCallTurn(contentRaw, toolCalls))
  {
    assert RoleOf(AssistantCallTurn(contentRaw, toolCalls)) == "assistant";
    assert "assistant"[0] != "tool"[0];
    TextIsNative(AssistantCallTurn(contentRaw, toolCalls));
  }

  lemma BlockSays(codec: Codec, contentRaw: string, toolCalls: Value, outputs: seq<Output>)
    requires toolCalls.Array?
    ensures var block := [AssistantCallTurn(contentRaw, toolCalls)] + ResultMessages(codec, outputs);
      && AllNative(block) && AllCalls(block) == toolCalls.items
      && ToolTexts(block) == seq(|outputs|, i requires 0 <= i < |outputs| => AnswerText(codec, outputs[i].result))
  {
    var turn, results := AssistantCallTurn(contentRaw, toolCalls), ResultMessages(codec, outputs);
    CallTurnSays(contentRaw, toolCalls);
    ResultsSay(codec, outputs);
    hide Collect, CallsOf, ToolText, ResultMessages, AssistantCallTurn, AnswerText, Native;
    CollectFirst(CallsOf, turn, results);
    CollectFirst(ToolText, turn, results);
    AllNativeAppend([turn], results);
  }

  /** The messages of a batch tell its calls and their answers. */
  lemma BatchTells(world: World, first: nat, seen: set<string>, contentRaw: string, toolCalls: Value, tainted: bool,
                   outputs: seq<Output>)
    requires toolCalls.Array? && |outputs| == |toolCalls.items|
    requires BatchOutputs(world, first, seen, toolCalls.items, tainted, outputs)
    ensures Tells(world.codec, [AssistantCallTurn(contentRaw, toolCalls)] + ResultMessages(world.codec, outputs),
                  CallsMade(world, toolCalls.items, outputs, tainted))
  {
    hide AllNative, AllCalls, ToolTexts, WellPaired, AnswerText, ResultMessages, AssistantCallTurn;
    var requests := toolCalls.items;
    BlockSays(world.codec, contentRaw, toolCalls, outputs);
    forall i | 0 <= i < |outputs| ensures outputs[i].record.callId == CallId(requests[i]) {
      MarkedAt(world.codec, seen, 0, requests, i);
    }
    BatchWellPaired(world.codec, contentRaw, toolCalls, outputs);
    var made := CallsMade(world, requests, outputs, tainted);
    assert Requests(made) == requests;
    assert AnswerTexts(world.codec, made)
        == seq(|outputs|, i requires 0 <= i < |outputs| => AnswerText(world.codec, outputs[i].result));
  }

  lemma {:induction false} TellsAppend(codec: Codec, a: seq<Value>, calls: seq<Call>, b: seq<Value>, more: seq<Call>)
    requires Tells(codec, a, calls) && Tells(codec, b, more)
    ensures Tells(codec, a + b, calls + more)
  {
    hide Collect, AllNative, WellPaired, AnswerText;
    WellPairedAppend(a, b);
    AllNativeAppend(a, b);
    CollectAppend(CallsOf, a, b);
    CollectAppend(ToolText, a, b);
    assert Requests(calls + more) == Requests(calls) + Requests(more);
    assert AnswerTexts(codec, calls + more) == AnswerTexts(codec, calls) + AnswerTexts(codec, more);
  }

  lemma ContinuesAppend(setup: Setup, messages: seq<Value>, calls: seq<Call>, block: seq<Value>, more: seq<Call>)
    requires Continues(setup, messages, calls) && Tells(setup.codec, block, more)
    ensures Continues(setup, messages + block, calls + more)
  {
    hide Tells;
    var n := |setup.initial|;
    TellsAppend(setup.codec, messages[n..], calls, block, more);
    assert (messages + block)[n..] == messages[n..] + block;
  }

  // ---- What a turn records ------------------------------------------------------------------------

  function InvocationOf(o: Output): Invocation {
    match o.result
    case ToolOk(v) => Invocation(o.record.fnName, o.record.arguments, Some(v), None)
    case ToolErr(e) => Invocation(o.record.fnName, o.record.arguments, None, Some(e))
  }

  function InvocationsOf(outputs: seq<Output>): seq<Invocation> {
    seq(|outputs|, i requires 0 <= i < |outputs| => InvocationOf(outputs[i]))
  }

  /** The record of a call: its capability, its arguments, and its answer as a result or an error. */
  function InvocationFor(codec: Codec, c: Call): Invocation {
    Invocation(CallName(c.request), CallArguments(codec, c.request),
               if c.answer.ToolOk? then Some(c.answer.value) else None,
               if c.answer.ToolOk? then None else Some(c.answer.message))
  }

  /** A record tells its call and its answer. */
  lemma RecordTells(codec: Codec, c: Call)
    ensures var inv := InvocationFor(codec, c);
      && inv.capability == CallName(c.request) && inv.arguments == CallArguments(codec, c.request)
      && (forall v :: inv.result == Some(v) <==> c.answer == ToolOk(v))
      && (forall e :: inv.error == Some(e) <==> c.answer == ToolErr(e))
  {
  }

  function InvocationsFor(codec: Codec, calls: seq<Call>): seq<Invocation> {
    seq(|calls|, i requires 0 <= i < |calls| => InvocationFor(codec, calls[i]))
  }

  /** A dispatched call has the tool's own answer; it taints the session if a server outside gave it. */
  predicate AnsweredBy(world: World, n: nat, c: Call) {
    && (Dispatched(c) ==> c.answer == world.tool(n))
    && (c.minted <==> c.answer.ToolOk? && Taints(world, CallName(c.request)))
  }

  predicate Answered(world: World, first: nat, calls: seq<Call>) {
    forall i :: 0 <= i < |calls| ==> AnsweredBy(world, first + i, calls[i])
  }

  /** The transcript, the invocations and the handled calls agree. */
  ghost predicate Recorded(world: World, initial: seq<Value>, messages: seq<Value>, invocations: seq<Invocation>,
                           calls: seq<Call>)
  {
    && Continues(Setup(world.codec, initial), messages, calls)
    && invocations == InvocationsFor(world.codec, calls)
    && Answered(world, 0, calls)
  }

  lemma OneInvocation(world: World, first: nat, request: Value, r: CallRecord, tainted: bool)
    requires r == RecordOf(world.codec, r.idx, request).(skipReason := r.skipReason)
    ensures var o := RunOne(world, first, r, tainted);
      var c := CallOf(world, request, o, tainted);
      InvocationOf(o) == InvocationFor(world.codec, c) && AnsweredBy(world, first + r.idx, c)
  {
  }

  lemma BatchInvocations(world: World, first: nat, seen: set<string>, requests: seq<Value>, tainted: bool,
                         outputs: seq<Output>)
    requires |outputs| == |requests| && BatchOutputs(world, first, seen, requests, tainted, outputs)
    ensures var made := CallsMade(world, requests, outputs, tainted);
      InvocationsOf(outputs) == InvocationsFor(world.codec, made) && Answered(world, first, made)
  {
    hide RunOne, CallOf, InvocationOf, InvocationFor, AnsweredBy, MarkedRecord;
    var made := CallsMade(world, requests, outputs, tainted);
    forall i | 0 <= i < |requests|
      ensures InvocationOf(outputs[i]) == InvocationFor(world.codec, made[i])
      ensures AnsweredBy(world, first + i, made[i])
    {
      var r := MarkedRecords(world.codec, seen, 0, requests)[i];
      MarkedAt(world.codec, seen, 0, requests, i);
      OneInvocation(world, first, requests[i], r, tainted);
    }
  }

  lemma AnsweredAppend(world: World, calls: seq<Call>, more: seq<Call>)
    requires Answered(world, 0, calls) && Answered(world, |calls|, more)
    ensures Answered(world, 0, calls + more)
  {
    hide AnsweredBy;
    forall i | 0 <= i < |calls + more| ensures AnsweredBy(world, i, (calls + more)[i]) {
      if i < |calls| {
        assert AnsweredBy(world, 0 + i, calls[i]);
      } else {
        assert AnsweredBy(world, |calls| + (i - |calls|), more[i - |calls|]);
      }
    }
  }

  /** A batch keeps transcript, invocations and handled calls in agreement. */
  lemma BatchRecorded(world: World, initial: seq<Value>, messages: seq<Value>, invocations: seq<Invocation>,
                      calls: seq<Call>, seen: set<string>, contentRaw: string, toolCalls: Value, tainted: bool,
                      outputs: seq<Output>)
    requires toolCalls.Array? && |outputs| == |toolCalls.items|
    requires Recorded(world, initial, messages, invocations, calls)
    requires BatchOutputs(world, |invocations|, seen, toolCalls.items, tainted, outputs)
    ensures Recorded(world, initial,
                     messages + [AssistantCallTurn(contentRaw, toolCalls)] + ResultMessages(world.codec, outputs),
                     invocations + InvocationsOf(outputs),
                     calls + CallsMade(world, toolCalls.items, outputs, tainted))
  {
    hide Continues, Tells, Answered, InvocationFor, CallsMade, BatchOutputs, AssistantCallTurn, ResultMessages;
    var block := [AssistantCallTurn(contentRaw, toolCalls)] + ResultMessages(world.codec, outputs);
    var made := CallsMade(world, toolCalls.items, outputs, tainted);
    BatchTells(world, |invocations|, seen, contentRaw, toolCalls, tainted, outputs);
    BatchInvocations(world, |invocations|, seen, toolCalls.items, tainted, outputs);
    ContinuesAppend(Setup(world.codec, initial), messages, calls, block, made);
    AnsweredAppend(world, calls, made);
    assert InvocationsFor(world.codec, calls + made)
        == InvocationsFor(world.codec, calls) + InvocationsFor(world.codec, made);
    assert messages + [AssistantCallTurn(contentRaw, toolCalls)] + ResultMessages(world.codec, outputs)
        == messages + block;
  }

  lemma NoResults(world: World)
    ensures ResultMessages(world.codec, []) == [] && InvocationsOf([]) == [] && !AnyMints(world, [])
  {
  }

  lemma ResultsNext(codec: Codec, outputs: seq<Output>, i: nat)
    requires i < |outputs|
    ensures ResultMessages(codec, outputs[..i + 1])
         == ResultMessages(codec, outputs[..i]) + [ResultMessage(codec, outputs[i])]
    ensures InvocationsOf(outputs[..i + 1]) == InvocationsOf(outputs[..i]) + [InvocationOf(outputs[i])]
  {
  }

  // ---- Requests -----------------------------------------------------------------------------------

  /** What the model does on the first `n` requests. */
  function Outcomes(world: World, n: nat): seq<LlmOutcome> {
    seq(n, i requires 0 <= i < n => world.llm(i))
  }

  lemma NothingRequested(outcome: LlmOutcome)
    requires !outcome.Reply?
    ensures RequestedBy(outcome) == []
  {
  }

  lemma PromptOf(world: World, initial: seq<Value>, messages: seq<Value>, invocations: seq<Invocation>,
                 calls: seq<Call>)
    requires Recorded(world, initial, messages, invocations, calls)
    ensures IsPrompt(Setup(world.codec, initial), SystemFirst(world.codec, messages), calls)
  {
    hide Continues, SystemFirst;
    assert Continues(Setup(world.codec, initial), messages, calls);
  }

  /** `n` requests with the same prompt, after `first` others. */
  function Attempts(world: World, prompt: seq<Value>, tools: bool, first: nat, n: nat): seq<Event> {
    seq(n, i requires 0 <= i < n => Asked(prompt, tools, world.llm(first + i)))
  }

  ghost predicate CountersAgree(st: State, counts: map<string, nat>, gateRejections: nat, duplicateRejections: nat) {
    && st.lawful && !st.open
    && counts.Keys == st.signatures && Positive(counts)
    && gateRejections == st.gated && duplicateRejections == st.duplicates
  }

  lemma AskedKeeps(a: State, b: State, counts: map<string, nat>, gateRejections: nat, duplicateRejections: nat)
    requires AskedOnly(a, b)
    ensures b.calls == a.calls && b.minted == a.minted && b.exposed == a.exposed && b.off == a.off
    ensures CountersAgree(a, counts, gateRejections, duplicateRejections)
       ==> CountersAgree(b, counts, gateRejections, duplicateRejections)
  {
  }

  lemma NoAttempts(world: World, prompt: seq<Value>, tools: bool, first: nat)
    ensures Attempts(world, prompt, tools, first, 0) == []
  {
  }

  lemma AttemptAgain(world: World, prompt: seq<Value>, tools: bool, first: nat, n: nat)
    ensures Attempts(world, prompt, tools, first, n + 1)
         == Attempts(world, prompt, tools, first, n) + [Asked(prompt, tools, world.llm(first + n))]
  {
  }

  /** Between `a` and `b` the turn has at most asked. */
  ghost predicate AskedOnly(a: State, b: State) {
    b == a.(outcomes := b.outcomes, due := b.due)
  }

  lemma AskedNothing(a: State)
    ensures AskedOnly(a, a)
  {
  }

  lemma AskedAgain(a: State, b: State, c: State)
    requires AskedOnly(a, b) && AskedOnly(b, c)
    ensures AskedOnly(a, c)
  {
  }

  function ModelOf(response: Value): Option<string> {
    match Get(response, Model)
    case Some(Str(name)) => Some(name)
    case _ => None
  }

  lemma ModelExactly(response: Value, name: string)
    ensures ModelOf(response) == Some(name) <==> Get(response, Model) == Some(Str(name))
  {
  }

  /** The model thought but said nothing. */
  predicate IsReasoningOnly(response: Value) {
    IsBlank(StrOr(Get(response, ContentRaw), "")) && !IsBlank(StrOr(Get(response, Reasoning), ""))
  }

  lemma ReasoningOnlyExactly(response: Value, content: string, reasoning: string)
    requires content == StrOr(Get(response, ContentRaw), "") && reasoning == StrOr(Get(response, Reasoning), "")
    ensures IsReasoningOnly(response) <==>
      && (forall i :: 0 <= i < |content| ==> IsWhitespace(content[i]))
      && (exists i :: 0 <= i < |reasoning| && !IsWhitespace(reasoning[i]))
  {
  }

  ghost predicate Positive(counts: map<string, nat>) {
    forall s :: s in counts ==> counts[s] >= 1
  }

  function CountOf(counts: map<string, nat>, s: string): nat {
    if s in counts then counts[s] else 0
  }

  // ---- The turn -----------------------------------------------------------------------------

  class Turn {
    const world: World
    const maxToolIterations: nat
    ghost const initial: seq<Value>
    ghost const candidates: nat
    ghost const toolsOffered: bool

    var messages: seq<Value>
    var iteration: nat
    var gateRejections: nat
    var duplicateRejections: nat
    var toolCallCounts: map<string, nat>
    var invocations: seq<Invocation>
    var finalizeAttempted: bool
    var toolUseEnabled: bool
    var tainted: bool               // of the session, as far as this turn has seen
    var failoverRemaining: seq<string>
    var service: string
    var anthropic: bool
    var model: Option<string>

    // How often the world has been consulted.
    var asks: nat
    var lookups: nat
    var checks: nat
    ghost var trace: seq<Event>
    ghost var st: State

    ghost function Start(): Setup { Setup(world.codec, initial) }

    /** `st` is what the trace shows. */
    ghost predicate TraceOk()
      reads `trace, `st
    {
      st == Observe(Start(), trace)
    }

    /** The counters agree with what happened. */
    ghost predicate CountersOk()
      reads `st, `toolCallCounts, `gateRejections, `duplicateRejections, `asks
    {
      && CountersAgree(st, toolCallCounts, gateRejections, duplicateRejections)
      && st.outcomes == Outcomes(world, asks)
    }

    /** The session is tainted exactly if the trace says so. */
    ghost predicate TaintOk()
      reads `st, `tainted
    {
      tainted == st.minted && tainted == st.exposed
    }

    /** ... and tools are in use as long as they were offered, no batch has ended over a limit and the
        model has not been asked for its final answer. */
    ghost predicate GuardsOk()
      reads `st, `toolUseEnabled, `finalizeAttempted, `toolCallCounts, `gateRejections, `duplicateRejections, `asks
    {
      CountersOk() && (toolUseEnabled <==> toolsOffered && !st.off && !finalizeAttempted)
    }

    /** The next request obeys the laws of the trace. */
    ghost predicate MayAsk(prompt: seq<Value>)
      reads `st, `toolUseEnabled
    {
      IsPrompt(Start(), prompt, st.calls) && st.lawful && !st.open && (st.off ==> !toolUseEnabled)
    }

    /** `invocations` are the handled calls in order, and those are the calls in the transcript. */
    ghost predicate RecordsOk()
      reads `st, `messages, `invocations, `tainted
    {
      Recorded(world, initial, messages, invocations, st.calls) && TaintOk()
    }

    /** Between two rounds: nothing is left to be handled. */
    ghost predicate Ready()
      reads `st, `toolUseEnabled, `finalizeAttempted, `toolCallCounts, `gateRejections, `duplicateRejections, `asks,
            `messages, `invocations, `tainted
    {
      GuardsOk() && RecordsOk() && st.due == []
    }

    /** What a reply leaves to be handled. */
    ghost predicate DueFor(response: Value)
      reads `st, `toolUseEnabled
    {
      st.due == if toolUseEnabled then RequestedBy(Reply(response)) else []
    }

    /** Every request beyond the first of an iteration has used up a failover candidate. */
    ghost predicate BudgetOk()
      reads `asks, `iteration, `failoverRemaining
    {
      && |failoverRemaining| <= candidates
      && asks <= iteration + candidates - |failoverRemaining|
    }

    /** Why the turn failed. */
    ghost predicate Caused(e: TurnError)
      reads `asks, `checks, `failoverRemaining
    {
      match e
      case LlmFailed(_) => asks > 0 && !world.llm(asks - 1).Reply? && failoverRemaining == []
      case Cancelled => checks > 0 && world.cancelled(checks - 1)
      case LifecycleRefused => !world.lifecycleAllows(asks)
    }

    /** Why the turn ended: with the model's last reply, or with the error that was met. */
    ghost predicate Ended(r: Result<string, TurnError>)
      reads `asks, `checks, `failoverRemaining, `invocations, `toolUseEnabled, `finalizeAttempted, `iteration, `st
    {
      match r
      case Ok(text) =>
        && asks > 0 && world.llm(asks - 1).Reply? && Final(world.llm(asks - 1).response, text)
        && (st.due == [] || iteration > maxToolIterations)
      case Err(e) => Caused(e) && (st.due == [] || e.Cancelled?)
    }

    /** The reply is not one to act on, nor one that earns a last question. */
    ghost predicate Final(response: Value, text: string)
      reads `invocations, `toolUseEnabled, `finalizeAttempted, `iteration
    {
      && text == world.answerText(response, invocations)
      && (!toolUseEnabled || !HasToolCalls(response) || iteration > maxToolIterations)
      && (!IsReasoningOnly(response) || finalizeAttempted || iteration > maxToolIterations)
    }

    constructor (world: World, maxToolIterations: nat, initial: seq<Value>, toolsOffered: bool,
                 failover: seq<string>, service: string, anthropic: bool)
      ensures this.world == world && this.maxToolIterations == maxToolIterations
      ensures this.initial == initial && messages == initial && candidates == |failover|
      ensures failoverRemaining == failover && this.toolsOffered == toolsOffered
      ensures iteration == 0 && trace == [] && invocations == []
      ensures TraceOk() && Ready() && BudgetOk()
    {
      this.world := world;
      this.maxToolIterations := maxToolIterations;
      this.initial := initial;
      candidates := |failover|;
      this.toolsOffered := toolsOffered;
      messages := initial;
      iteration, gateRejections, duplicateRejections := 0, 0, 0;
      toolCallCounts := map[];
      invocations := [];
      finalizeAttempted := false;
      toolUseEnabled := toolsOffered;
      tainted := false;
      failoverRemaining := failover;
      this.service := service;
      this.anthropic := anthropic;
      model := None;
      asks, lookups, checks := 0, 0, 0;
      trace, st := [], START;
    }

    /** One outer iteration's request, with call-time failover. A candidate is consumed per failed
        request; one that is paused or unknown is skipped, and the current credential is tried
        again. */
    method Ask(prompt: seq<Value>) returns (r: Result<Value, TurnError>)
      requires TraceOk() && GuardsOk() && MayAsk(prompt) && st.due == []
      modifies `trace, `st, `asks, `lookups, `failoverRemaining, `service, `anthropic
      ensures TraceOk() && asks >= old(asks)
      ensures AskedOnly(old(st), st) && st.outcomes == Outcomes(world, asks)
      ensures if r.Ok? then DueFor(r.value) else st.due == []
      ensures trace == old(trace) + Attempts(world, prompt, toolUseEnabled, old(asks), asks - old(asks))
      ensures |failoverRemaining| <= |old(failoverRemaining)|
      ensures failoverRemaining == old(failoverRemaining)[|old(failoverRemaining)| - |failoverRemaining|..]
      ensures asks <= old(asks) + 1 + |old(failoverRemaining)| - |failoverRemaining|
      ensures r.Ok? ==> asks > old(asks) && world.llm(asks - 1) == Reply(r.value)
      ensures r.Err? ==> Caused(r.error)
    {
      hide AskedOnly, RequestedBy, CountersAgree, Attempts, Outcomes, TraceOk, MayAsk;
      AskedNothing(st);
      NoAttempts(world, prompt, toolUseEnabled, asks);
      var lastErr := "";
      ghost var used: nat := 0;
      while true
        invariant TraceOk() && MayAsk(prompt) && asks == old(asks) + used
        invariant AskedOnly(old(st), st) && st.outcomes == Outcomes(world, asks) && st.due == []
        invariant trace == old(trace) + Attempts(world, prompt, toolUseEnabled, old(asks), used)
        invariant used <= |old(failoverRemaining)| && failoverRemaining == old(failoverRemaining)[used..]
        decreases |failoverRemaining|
      {
        if !world.lifecycleAllows(asks) {
          return Err(LifecycleRefused);
        }
        ghost var before := st;
        AttemptAgain(world, prompt, toolUseEnabled, old(asks), used);
        var outcome := Request(prompt);
        AskedAgain(old(st), before, st);
        match outcome {
          case Reply(response) => return Ok(response);
          case CallFailed(error) => lastErr := service + ": " + error;
          case TimedOut => lastErr := service + ": LLM call timed out";
        }
        NothingRequested(outcome);
        if failoverRemaining == [] {
          return Err(LlmFailed(lastErr));
        }
        TakeCandidate();
        used := used + 1;
      }
    }

    /** One request to the model. */
    method Request(prompt: seq<Value>) returns (outcome: LlmOutcome)
      requires TraceOk() && MayAsk(prompt) && st.due == [] && st.outcomes == Outcomes(world, asks)
      modifies `trace, `st, `asks
      ensures TraceOk() && MayAsk(prompt) && asks == old(asks) + 1 && outcome == world.llm(old(asks))
      ensures trace == old(trace) + [Asked(prompt, toolUseEnabled, outcome)]
      ensures AskedOnly(old(st), st) && st.outcomes == Outcomes(world, asks)
      ensures st.due == if toolUseEnabled then RequestedBy(outcome) else []
    {
      hide Observe, Step, IsPrompt, RequestedBy;
      ghost var event := Asked(prompt, toolUseEnabled, world.llm(asks));
      StepAsked(Start(), st, event);
      Record(event);
      outcome := world.llm(asks);
      asks := asks + 1;
      assert Outcomes(world, asks) == Outcomes(world, asks - 1) + [outcome];
    }

    ghost method Record(e: Event)
      requires TraceOk()
      modifies `trace, `st
      ensures TraceOk() && trace == old(trace) + [e] && st == Step(Start(), old(st), e)
    {
      ObserveNext(Start(), trace, e);
      trace, st := trace + [e], Step(Start(), st, e);
    }

    /** Consumes the next failover candidate and switches to it if it is usable. */
    method TakeCandidate()
      requires failoverRemaining != []
      modifies `failoverRemaining, `lookups, `service, `anthropic
      ensures failoverRemaining == old(failoverRemaining)[1..] && lookups == old(lookups) + 1
      ensures var found := world.lookup(old(lookups));
        if found.Candidate? && found.enabled
          then service == old(failoverRemaining)[0] && anthropic == found.anthropic
          else service == old(service) && anthropic == old(anthropic)
    {
      var next := failoverRemaining[0];
      failoverRemaining := failoverRemaining[1..];
      var found := world.lookup(lookups);
      lookups := lookups + 1;
      if found.Candidate? && found.enabled {
        service, anthropic := next, found.anthropic;
      }
    }

    /** Counts one call and marks it if it is a repetition. */
    method CountCall(idx: nat, call: Value) returns (record: CallRecord)
      requires Positive(toolCallCounts)
      modifies `toolCallCounts
      ensures record == MarkedRecord(world.codec, old(toolCallCounts).Keys, idx, call)
      ensures toolCallCounts.Keys == old(toolCallCounts).Keys + {CallSignature(world.codec, call)}
      ensures Positive(toolCallCounts)
    {
      record := RecordOf(world.codec, idx, call);
      var signature := Signature(world.codec, record.fnName, record.arguments);
      var count := CountOf(toolCallCounts, signature) + 1;
      toolCallCounts := toolCallCounts[signature := count];
      if count > 1 {
        record := record.(skipReason := Some(DuplicateReason(record.fnName)));
      }
    }

    /** Counts the signatures of a batch and marks the repeated ones. */
    method MarkDuplicates(calls: seq<Value>) returns (records: seq<CallRecord>)
      requires Positive(toolCallCounts)
      modifies `toolCallCounts
      ensures records == MarkedRecords(world.codec, old(toolCallCounts).Keys, 0, calls)
      ensures toolCallCounts.Keys == old(toolCallCounts).Keys + CallSignatures(world.codec, calls)
      ensures Positive(toolCallCounts)
    {
      records := [];
      ghost var seen := toolCallCounts.Keys;
      for i := 0 to |calls|
        invariant records == MarkedRecords(world.codec, seen, 0, calls[..i])
        invariant toolCallCounts.Keys == seen + CallSignatures(world.codec, calls[..i])
        invariant Positive(toolCallCounts)
      {
        MarkLoop(world.codec, seen, calls, i, toolCallCounts.Keys);
        var record := CountCall(i, calls[i]);
        records := records + [record];
      }
      assert calls[..|calls|] == calls;
    }

    /** Runs a batch of calls in parallel and puts the outputs back into emitted order. */
    method Dispatch(records: seq<CallRecord>, tainted: bool) returns (outputs: seq<Output>)
      requires world.Fair()
      requires forall i :: 0 <= i < |records| ==> records[i].idx == i
      ensures outputs == RunAll(world, |invocations|, records, tainted)
    {
      hide RunOne;
      var submitted: seq<Output> := [];
      for i := 0 to |records|
        invariant submitted == RunAll(world, |invocations|, records[..i], tainted)
      {
        submitted := submitted + [RunOne(world, |invocations|, records[i], tainted)];
      }
      assert records[..|records|] == records;
      EmittedOrderRestored(world, iteration, |invocations|, records, tainted);
      var finished := world.finishOrder(iteration, submitted);
      outputs := Sorting.Sort(IdxOrder, finished);
    }

    /** Appends tool messages and invocations in the order of `outputs`; an answer of a server
        outside taints the session. */
    method RecordResults(outputs: seq<Output>)
      modifies `messages, `invocations, `tainted
      ensures tainted == (old(tainted) || AnyMints(world, outputs))
      ensures messages == old(messages) + ResultMessages(world.codec, outputs)
      ensures invocations == old(invocations) + InvocationsOf(outputs)
    {
      hide AnyMints, Mints, ResultMessage, InvocationOf, ResultMessages, InvocationsOf;
      NoResults(world);
      for i := 0 to |outputs|
        invariant messages == old(messages) + ResultMessages(world.codec, outputs[..i])
        invariant invocations == old(invocations) + InvocationsOf(outputs[..i])
        invariant tainted == (old(tainted) || AnyMints(world, outputs[..i]))
      {
        AnyMintsNext(world, outputs, i);
        ResultsNext(world.codec, outputs, i);
        if Mints(world, outputs[i]) {
          tainted := true;
        }
        messages := messages + [ResultMessage(world.codec, outputs[i])];
        invocations := invocations + [InvocationOf(outputs[i])];
      }
      assert outputs[..|outputs|] == outputs;
    }

    method MarkAndDispatch(calls: seq<Value>, tainted: bool) returns (outputs: seq<Output>)
      requires world.Fair() && Positive(toolCallCounts)
      modifies `toolCallCounts
      ensures BatchOutputs(world, |invocations|, old(toolCallCounts).Keys, calls, tainted, outputs)
      ensures toolCallCounts.Keys == old(toolCallCounts).Keys + CallSignatures(world.codec, calls)
      ensures Positive(toolCallCounts)
    {
      RecordsIndexed(world.codec, toolCallCounts.Keys, calls);
      var records := MarkDuplicates(calls);
      outputs := Dispatch(records, tainted);
    }

    /** Marks, runs and counts the calls of a batch. */
    method RunCalls(calls: seq<Value>, tainted: bool) returns (outputs: seq<Output>)
      requires world.Fair() && TraceOk() && CountersOk() && !st.off && st.exposed == st.minted == tainted
      requires st.due == calls
      modifies `toolCallCounts, `gateRejections, `duplicateRejections, `trace, `st
      ensures TraceOk() && CountersOk()
      ensures BatchOutputs(world, |invocations|, old(st).signatures, calls, tainted, outputs)
      ensures |outputs| == |calls|
      ensures st.calls == old(st).calls + CallsMade(world, calls, outputs, tainted) && st.due == []
      ensures st.off <==> OverLimit(st)
      ensures st.exposed == st.minted == (tainted || AnyMints(world, outputs))
    {
      hide BatchOutputs, CallsMade, AnyMints, TraceOk, CloseBatch, AfterCalls;
      outputs := MarkAndDispatch(calls, tainted);
      RecordBatch(calls, tainted, outputs);
      gateRejections := gateRejections + CountGated(outputs);
      duplicateRejections := duplicateRejections + CountDuplicates(outputs);
    }

    ghost method RecordBatch(calls: seq<Value>, tainted: bool, outputs: seq<Output>)
      requires TraceOk() && !st.off && st.exposed == tainted && st.due == calls
      requires BatchOutputs(world, |invocations|, st.signatures, calls, tainted, outputs)
      modifies `trace, `st
      ensures TraceOk() && |outputs| == |calls|
      ensures st == CloseBatch(AfterCalls(Start(), old(st), CallsMade(world, calls, outputs, tainted)))
      ensures st.calls == old(st).calls + CallsMade(world, calls, outputs, tainted) && st.due == [] && !st.open
      ensures st.signatures == old(st).signatures + CallSignatures(world.codec, calls)
      ensures st.lawful == old(st).lawful && st.outcomes == old(st).outcomes
      ensures st.exposed == st.minted && (st.off <==> OverLimit(st))
      ensures Requests(CallsMade(world, calls, outputs, tainted)) == calls
      ensures st.gated == old(st).gated + CountGated(outputs)
      ensures st.duplicates == old(st).duplicates + CountDuplicates(outputs)
      ensures st.minted == (old(st).minted || AnyMints(world, outputs))
    {
      BatchState(world, initial, trace, |invocations|, calls, tainted, outputs);
      var made := CallsMade(world, calls, outputs, tainted);
      trace, st := trace + Report(made) + [BatchDone], CloseBatch(AfterCalls(Start(), st, made));
    }

    /** The taint of the session before a batch, after what others have done to it. */
    method SessionIsTainted() returns (r: bool)
      requires TraceOk() && CountersOk() && TaintOk() && !st.off
      modifies `tainted, `trace, `st
      ensures TraceOk() && CountersOk() && TaintOk()
      ensures st == old(st).(minted := r, exposed := r) && r == tainted
      ensures r == TaintBefore(world, iteration, old(tainted))
    {
      hide Observe;
      var change := world.outside(iteration);
      if change.Some? {
        Record(Outside(change.value));
        tainted := change.value;
      }
      r := tainted;
    }

    /** One batch of tool calls, from the stored assistant turn to the recorded results. */
    method RunBatch(contentRaw: string, toolCalls: Value) returns (error: Option<TurnError>)
      requires world.Fair()
      requires toolCalls.Array? && toolUseEnabled && TraceOk() && GuardsOk() && RecordsOk()
      requires st.due == toolCalls.items
      modifies `messages, `invocations, `toolCallCounts, `gateRejections, `duplicateRejections, `trace, `st,
               `checks, `tainted
      ensures TraceOk() && CountersOk()
      ensures error.None? ==> RecordsOk() && st.due == []
      ensures error.None? ==> (st.off <==> OverLimit(st))
      ensures error.None? ==> old(messages) + [AssistantCallTurn(contentRaw, toolCalls)] <= messages
      ensures error.None? ==> BatchAdded(old(st).calls, st.calls, toolCalls.items, old(tainted), tainted)
      ensures error.Some? ==> trace == old(trace) && error == Some(Cancelled) && Caused(Cancelled)
    {
      hide Recorded, Observe, BatchOutputs, AssistantCallTurn, ResultMessages, CallsMade, AnyMints, MintedIn;
      var calls := toolCalls.items;
      ghost var stored := messages;
      messages := messages + [AssistantCallTurn(contentRaw, toolCalls)];
      var cancelled := IsCancelled();
      if cancelled {
        return Some(Cancelled);
      }
      var taintedNow := SessionIsTainted();
      var outputs := RunCalls(calls, taintedNow);
      RecordResults(outputs);
      BatchRecorded(world, initial, stored, old(invocations), old(st).calls, old(st).signatures,
                    contentRaw, toolCalls, taintedNow, outputs);
      AddedByBatch(world, old(st).calls, calls, outputs, taintedNow);
      return None;
    }

    /** A batch has added one call for each of `requests`, has gated by the taint it found, and leaves
        the session tainted if it was or an answer has brought taint. */
    ghost predicate BatchAdded(calls: seq<Call>, calls1: seq<Call>, requests: seq<Value>, before: bool, after: bool)
      reads `iteration
    {
      var found := TaintBefore(world, iteration, before);
      && calls <= calls1
      && Requests(calls1[|calls|..]) == requests
      && (forall i :: |calls| <= i < |calls1| ==> calls1[i].tainted == found)
      && after == (found || MintedIn(calls1[|calls|..]))
    }

    /** Asks for a final answer in plain prose: an empty assistant turn and a user message. */
    method Push(text: string)
      requires RecordsOk()
      modifies `messages
      ensures RecordsOk()
      ensures messages == old(messages) + Prod(text)
    {
      hide Recorded;
      PlainRecorded(world, initial, messages, invocations, st.calls, text);
      messages := messages + [PlainMessage("assistant", "")];
      messages := messages + [PlainMessage("user", text)];
      assert messages == old(messages) + Prod(text);
    }

    /** One round of the outer loop; `None` means that the loop continues. */
    method Iterate() returns (r: Option<Result<string, TurnError>>)
      requires world.Fair() && TraceOk() && Ready() && BudgetOk() && iteration <= maxToolIterations
      modifies this
      ensures iteration == old(iteration) + 1
      ensures TraceOk() && CountersOk() && BudgetOk()
      ensures r.None? ==> Ready() && iteration <= maxToolIterations
      ensures r.Some? ==> Ended(r.value) && (r.value.Ok? ==> GuardsOk() && RecordsOk())
    {
      hide TraceOk, CountersOk, RecordsOk, DueFor, Caused, Final;
      iteration := iteration + 1;
      var answer := NextAnswer();
      if answer.Err? {
        return Some(Err(answer.error));
      }
      r := React(answer.value);
    }

    method IsCancelled() returns (r: bool)
      modifies `checks
      ensures r ==> Caused(Cancelled)
    {
      r := world.cancelled(checks);
      checks := checks + 1;
    }

    /** The transcript as it is sent: with the system messages merged. */
    method Prompt() returns (prompt: seq<Value>)
      requires Ready()
      ensures prompt == SystemFirst(world.codec, messages) && MayAsk(prompt)
    {
      hide IsPrompt, Recorded, Positive;
      prompt := SystemMessagesFirst(world.codec, messages);
      PromptOf(world, initial, messages, invocations, st.calls);
      assert IsPrompt(Start(), prompt, st.calls);
    }

    /** `Ask` between two rounds: the records stay as they are. */
    method AskReady(prompt: seq<Value>) returns (r: Result<Value, TurnError>)
      requires TraceOk() && Ready() && MayAsk(prompt)
      modifies `trace, `st, `asks, `lookups, `failoverRemaining, `service, `anthropic
      ensures TraceOk() && GuardsOk() && RecordsOk()
      ensures asks >= old(asks)
      ensures if r.Ok? then DueFor(r.value) else Caused(r.error) && st.due == []
      ensures trace == old(trace) + Attempts(world, prompt, toolUseEnabled, old(asks), asks - old(asks))
      ensures |failoverRemaining| <= |old(failoverRemaining)|
      ensures asks <= old(asks) + 1 + |old(failoverRemaining)| - |failoverRemaining|
      ensures r.Ok? ==> asks > 0 && world.llm(asks - 1) == Reply(r.value)
    {
      hide Recorded, Attempts, CountersAgree, AskedOnly, Outcomes, TraceOk, MayAsk, DueFor, Caused;
      r := Ask(prompt);
      AskedKeeps(old(st), st, toolCallCounts, gateRejections, duplicateRejections);
    }

    /** Sends the transcript and notes the answering model. */
    method NextAnswer() returns (r: Result<Value, TurnError>)
      requires TraceOk() && Ready()
      requires |failoverRemaining| <= candidates && asks < iteration + candidates - |failoverRemaining|
      modifies `checks, `trace, `st, `asks, `lookups, `failoverRemaining, `service, `anthropic, `model
      ensures TraceOk() && GuardsOk() && RecordsOk() && BudgetOk()
      ensures asks >= old(asks)
      ensures r.Ok? ==> DueFor(r.value)
      ensures r.Ok? ==>
        var prompt := SystemFirst(world.codec, messages);
        trace == old(trace) + Attempts(world, prompt, toolUseEnabled, old(asks), asks - old(asks))
      ensures r.Ok? ==> asks > 0 && world.llm(asks - 1) == Reply(r.value)
      ensures r.Err? ==> Caused(r.error) && st.due == []
      ensures model == if old(model).None? && r.Ok? then ModelOf(r.value) else old(model)
    {
      hide SystemFirst, Attempts, TraceOk, MayAsk, DueFor, Caused, CountersOk, RecordsOk;
      var cancelled := IsCancelled();
      if cancelled {
        return Err(Cancelled);
      }
      var prompt := Prompt();
      r := AskReady(prompt);
      if r.Ok? && model.None? {
        model := ModelOf(r.value);
      }
    }

    /** What the loop does with a reply. */
    method React(response: Value) returns (r: Option<Result<string, TurnError>>)
      requires world.Fair() && TraceOk() && GuardsOk() && RecordsOk() && DueFor(response)
      modifies `messages, `invocations, `toolCallCounts, `gateRejections, `duplicateRejections, `trace, `st,
               `checks, `finalizeAttempted, `toolUseEnabled, `tainted
      ensures TraceOk() && CountersOk()
      ensures r.None? ==> Ready() && iteration <= maxToolIterations
      ensures r.None? ==> Requests(st.calls) == Requests(old(st).calls) + old(st).due
      ensures r.Some? && r.value.Ok? ==> st == old(st) && (st.due == [] || iteration > maxToolIterations)
      ensures r.Some? && r.value.Ok? ==> GuardsOk() && RecordsOk() && Final(response, r.value.value)
      ensures r.Some? && r.value.Err? ==> r.value == Err(Cancelled) && Caused(Cancelled)
      ensures toolUseEnabled ==> old(toolUseEnabled)
      ensures !old(toolUseEnabled) ==> trace == old(trace) && invocations == old(invocations)
    {
      if !toolUseEnabled || !HasToolCalls(response) || iteration > maxToolIterations {
        r := Conclude(response);
      } else {
        r := ActOn(response);
      }
    }

    /** A reply that is not acted on ends the turn, unless the model has only been thinking: then
        it is asked once for its answer, without tools. */
    method Conclude(response: Value) returns (r: Option<Result<string, TurnError>>)
      requires GuardsOk() && RecordsOk()
      modifies `messages, `finalizeAttempted, `toolUseEnabled
      ensures GuardsOk() && RecordsOk()
      ensures r.None? ==>
        && iteration <= maxToolIterations && IsReasoningOnly(response)
        && !old(finalizeAttempted) && finalizeAttempted && !toolUseEnabled
      ensures r.Some? ==> r.value == Ok(world.answerText(response, invocations))
      ensures r.Some? ==> toolUseEnabled == old(toolUseEnabled)
      ensures r.Some? ==> !IsReasoningOnly(response) || finalizeAttempted || iteration > maxToolIterations
    {
      hide Recorded, Positive, IsReasoningOnly, PlainMessage;
      if IsReasoningOnly(response) && !finalizeAttempted && iteration <= maxToolIterations {
        Push(world.nudge(FinalAnswer));
        finalizeAttempted, toolUseEnabled := true, false;
        return None;
      }
      return Some(Ok(world.answerText(response, invocations)));
    }

    method ActOn(response: Value) returns (r: Option<Result<string, TurnError>>)
      requires world.Fair() && TraceOk() && GuardsOk() && RecordsOk() && toolUseEnabled && HasToolCalls(response)
      requires st.due == ToolCallsOf(response).items
      modifies `messages, `invocations, `toolCallCounts, `gateRejections, `duplicateRejections, `trace, `st,
               `checks, `toolUseEnabled, `tainted
      ensures TraceOk() && CountersOk()
      ensures r.None? ==> Ready() && Requests(st.calls) == Requests(old(st).calls) + ToolCallsOf(response).items
      ensures r.None? ==> old(messages) + [StoredTurn(response)] <= messages
      ensures r.Some? ==> r.value == Err(Cancelled) && Caused(Cancelled)
    {
      hide Recorded, Positive, OverLimit;
      var error := RunBatch(StrOr(Get(response, ContentRaw), ""), ToolCallsOf(response));
      if error.Some? {
        return Some(Err(error.value));
      }
      RequestsSplit(old(st).calls, st.calls);
      BreakLoop();
      return None;
    }

    /** After a batch: over a limit, tools are switched off for the rest of the turn. */
    method BreakLoop()
      requires CountersOk() && RecordsOk()
      requires st.off <==> OverLimit(st)
      requires toolUseEnabled <==> toolsOffered && !finalizeAttempted
      modifies `messages, `toolUseEnabled
      ensures GuardsOk() && RecordsOk()
      ensures messages == old(messages) +
        if !old(toolUseEnabled) || !OverLimit(st) then []
        else Prod(world.nudge(if st.gated >= MAX_GATE_REJECTIONS then GateClosed else RepeatedCall))
      ensures toolUseEnabled == (old(toolUseEnabled) && !OverLimit(st))
    {
      if gateRejections >= MAX_GATE_REJECTIONS && toolUseEnabled {
        Push(world.nudge(GateClosed));
        toolUseEnabled := false;
      } else if duplicateRejections >= MAX_DUPLICATE_CALLS && toolUseEnabled {
        Push(world.nudge(RepeatedCall));
        toolUseEnabled := false;
      }
    }

    /** The whole turn, for any behaviour of the world. `streamed` is the answer of a successful
        streaming attempt, which ends the turn at once. */
    method Run(streamed: Option<string>) returns (r: Result<string, TurnError>)
      requires world.Fair() && TraceOk() && Ready() && BudgetOk() && iteration == 0 && trace == []
      modifies this
      ensures Lawful(Start(), trace)
      ensures iteration <= maxToolIterations + 1
      ensures asks <= maxToolIterations + 1 + candidates
      ensures Collect(OutcomeOf, trace) == Outcomes(world, asks)
      ensures r.Ok? ==> AllHandled()
      ensures r.Ok? ==>
        (toolUseEnabled <==> toolsOffered && !Observe(Start(), trace).off && !finalizeAttempted)
      ensures r.Ok? ==> Recorded(world, initial, messages, invocations, Observe(Start(), trace).calls)
      ensures if streamed.Some? then r == Ok(streamed.value) && trace == [] else Ended(r)
    {
      hide Observe, Recorded, OutcomeOf, Owed;
      if streamed.Some? {
        Concluded();
        return Ok(streamed.value);
      }
      while true
        invariant TraceOk() && Ready() && BudgetOk() && iteration <= maxToolIterations
        decreases maxToolIterations - iteration
      {
        var round := Iterate();
        if round.Some? {
          Concluded();
          return round.value;
        }
      }
    }

    /** The calls of every reply to a request made with tools have been handled, once each and in
        order, except that the calls of the last reply are left alone if it came after the cap. */
    ghost predicate AllHandled()
      reads `trace, `iteration
    {
      var st := Observe(Start(), trace);
      && Requests(st.calls) + st.due == Collect(Owed, trace)
      && (iteration <= maxToolIterations ==> st.due == [])
    }

    ghost method Concluded()
      requires TraceOk() && CountersOk()
      ensures Collect(OutcomeOf, trace) == Outcomes(world, asks)
      ensures Requests(st.calls) + st.due == Collect(Owed, trace)
    {
      OutcomesOfTrace(Start(), trace);
      HandledInOrder(Start(), trace);
    }
  }

  function PlainMessage(role: string, text: string): Value {
    Object(map[Role := Str(role), Content := Str(text)])
  }

  /** What is added to make the model go on: an empty assistant turn and a user message. */
  function Prod(text: string): seq<Value> { [PlainMessage("assistant", ""), PlainMessage("user", text)] }

  /** The first message is an empty turn of the assistant, the second the user's text. */
  lemma ProdSays(text: string)
    ensures var ms := Prod(text);
      && |ms| == 2
      && RoleOf(ms[0]) == "assistant" && Get(ms[0], Content) == Some(Str(""))
      && RoleOf(ms[1]) == "user" && Get(ms[1], Content) == Some(Str(text))
  {
  }

  /** The two messages of a nudge tell nothing new. */
  lemma PlainPair(codec: Codec, text: string)
    ensures Tells(codec, Prod(text), [])
  {
    var a, u := PlainMessage("assistant", ""), PlainMessage("user", text);
    assert RoleOf(a) == "assistant" && RoleOf(u) == "user";
    assert "assistant"[0] != "tool"[0] && "user"[0] != "tool"[0] && "user"[0] != "assistant"[0];
    assert !IsTool(a) && !IsTool(u) && CallsOf(a) == CallsOf(u) == [] && ToolText(a) == ToolText(u) == [];
    TextIsNative(a);
    TextIsNative(u);
    hide Native, Collect, CallsOf, ToolText, IsTool, WellPaired, PlainMessage;
    PlainIsWellPaired([a, u]);
    CollectNothing(CallsOf, [a, u]);
    CollectNothing(ToolText, [a, u]);
  }

  lemma PlainRecorded(world: World, initial: seq<Value>, ms: seq<Value>, invocations: seq<Invocation>,
                      calls: seq<Call>, text: string)
    requires Recorded(world, initial, ms, invocations, calls)
    ensures Recorded(world, initial, ms + Prod(text), invocations, calls)
  {
    hide Continues, Tells, Prod, Answered, InvocationsFor;
    PlainPair(world.codec, text);
    ContinuesAppend(Setup(world.codec, initial), ms, calls, Prod(text), []);
    assert calls + [] == calls;
  }
}
