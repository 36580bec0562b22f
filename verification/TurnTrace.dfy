/** The observable history of one assistant turn, and the laws it obeys. */
module TurnTrace {
  import opened Prelude
  import opened Json
  import opened Transcript
  import opened Pairing

  const MAX_GATE_REJECTIONS: nat := 3
  const MAX_DUPLICATE_CALLS: nat := 1

  /** Capabilities that a tainted conversation may not use. */
  const SENSITIVE: set<string> := {
    "api.dispatch_webhook", "api.sync_resource", "api.prepare_request", "ssh.prepare_command",
    "ssh.sync_workspace", "files.upload", "files.delete", "filesystem.write_file", "apps.publish",
    "apps.unarchive", "cloud.credentials.upsert", "cloud.credentials.delete", "memory.pin_note",
    "memory.unpin_note", "assistant.remember_fact", "assistant.remember_knowledge",
    "assistant.forget_fact", "skills.install", "skills.delete", "plugins.install", "plugins.delete",
    "plugins.set_enabled", "mcp.servers.install", "mcp.servers.uninstall", "mcp.servers.quarantine",
    "mcp.servers.re_authorize", "mcp.servers.set_trust", "review.approve", "review.edit",
    "review.deny", "webhooks.register", "webhooks.delete", "webhooks.update", "assistant.turn" }

  datatype LlmOutcome = Reply(response: Value) | CallFailed(error: string) | TimedOut

  datatype ToolOutcome = ToolOk(value: Value) | ToolErr(message: string)

  /** One emitted tool call and what became of it. `minted`: a server outside has answered it. */
  datatype Call = Call(
    request: Value, answer: ToolOutcome, duplicate: bool, gated: bool, tainted: bool, minted: bool)

  datatype Event =
    | Asked(prompt: seq<Value>, tools: bool, outcome: LlmOutcome)    // one LLM request
    | Called(call: Call)
    | BatchDone                                                    // all results recorded
    | Outside(tainted: bool)    // somebody else has tainted the session or cleared its taint

  /** `response["tool_calls"]`, null if absent. */
  function ToolCallsOf(response: Value): Value {
    match Get(response, ToolCalls)
    case Some(v) => v
    case None => Null
  }

  /** The message the turn loop stores for a reply that calls tools. */
  function StoredTurn(response: Value): Value {
    AssistantCallTurn(StrOr(Get(response, ContentRaw), ""), ToolCallsOf(response))
  }

  predicate HasToolCalls(response: Value) {
    ToolCallsOf(response).Array? && ToolCallsOf(response).items != []
  }

  /** The tool calls that a request made with tools brings. */
  function RequestedBy(outcome: LlmOutcome): seq<Value> {
    if outcome.Reply? && HasToolCalls(outcome.response) then ToolCallsOf(outcome.response).items else []
  }

  /** Those are all the calls the reply lists. */
  lemma RequestedAreListed(response: Value)
    ensures RequestedBy(Reply(response)) == ItemsOf(Get(response, ToolCalls))
  {
  }

  function DuplicateReason(name: string): string {
    "duplicate tool call skipped: '" + name + "'"
  }

  function GateReason(name: string): string {
    "tool '" + name + "' is gated on this conversation"
  }

  function InvalidArgument(message: string): ToolOutcome { ToolErr("invalid argument: " + message) }

  function Signature(codec: Codec, capability: string, arguments: Value): string {
    capability + "\n" + codec.encode(arguments)
  }

  function CallSignature(codec: Codec, call: Value): string {
    Signature(codec, CallName(call), CallArguments(codec, call))
  }

  /** Two calls ask for the same: the same capability with the same arguments. */
  predicate SameCall(codec: Codec, a: Value, b: Value) {
    CallName(a) == CallName(b) && CallArguments(codec, a) == CallArguments(codec, b)
  }

  /** The last newline of a text splits it. */
  lemma LastNewline(a: string, b: string, s: string)
    requires s == a + "\n" + b && '\n' !in b
    ensures s[|a|] == '\n' && s[..|a|] == a && s[|a| + 1..] == b
    ensures forall k :: |a| < k < |s| ==> s[k] != '\n'
  {
    assert forall k :: |a| < k < |s| ==> s[k] == b[k - |a| - 1] && s[k] in b;
  }

  /** The signature of a call is its capability and its arguments, no less and no more. */
  lemma SameSignature(codec: Codec, a: Value, b: Value)
    requires codec.Lawful() && codec.OneLine()
    ensures CallSignature(codec, a) == CallSignature(codec, b) <==> SameCall(codec, a, b)
  {
    if CallSignature(codec, a) == CallSignature(codec, b) {
      var x, y := CallArguments(codec, a), CallArguments(codec, b);
      LastNewline(CallName(a), codec.encode(x), CallSignature(codec, a));
      LastNewline(CallName(b), codec.encode(y), CallSignature(codec, b));
      assert codec.decode(codec.encode(x)) == Some(x) && codec.decode(codec.encode(y)) == Some(y);
    }
  }

  /** The call reached `dispatch_tool`. */
  predicate Dispatched(c: Call) { !c.duplicate && !c.gated }

  function Requests(calls: seq<Call>): seq<Value> {
    seq(|calls|, i requires 0 <= i < |calls| => calls[i].request)
  }

  /** What the tool message for a call says. */
  function AnswerText(codec: Codec, answer: ToolOutcome): string {
    match answer
    case ToolOk(v) => codec.encode(v)
    case ToolErr(e) => "error: " + e
  }

  /** What a tool has answered can be read back from its message. */
  lemma AnswerReadBack(codec: Codec, answer: ToolOutcome)
    requires codec.Lawful()
    ensures answer.ToolOk? ==> codec.decode(AnswerText(codec, answer)) == Some(answer.value)
    ensures answer.ToolErr? ==> AnswerText(codec, answer)[|"error: "|..] == answer.message
  {
    if answer.ToolOk? {
      assert codec.decode(codec.encode(answer.value)) == Some(answer.value);
    }
  }

  function AnswerTexts(codec: Codec, calls: seq<Call>): seq<string> {
    seq(|calls|, i requires 0 <= i < |calls| => AnswerText(codec, calls[i].answer))
  }

  // ---- What the loop adds to a transcript ------------------------------------------------------

  /** How a turn starts. */
  datatype Setup = Setup(codec: Codec, initial: seq<Value>)

  /** `added` holds the handled calls with their answers, in order, and nothing of the provider's. */
  predicate Tells(codec: Codec, added: seq<Value>, calls: seq<Call>) {
    && WellPaired(added) && AllNative(added)
    && AllCalls(added) == Requests(calls)
    && ToolTexts(added) == AnswerTexts(codec, calls)
  }

  /** The stored transcript: the initial one, and then what the loop has added. */
  predicate Continues(setup: Setup, messages: seq<Value>, calls: seq<Call>) {
    && setup.initial <= messages
    && Tells(setup.codec, messages[|setup.initial|..], calls)
  }

  /** A prompt is the stored transcript with its system messages merged. */
  ghost predicate IsPrompt(setup: Setup, prompt: seq<Value>, calls: seq<Call>) {
    exists messages :: Continues(setup, messages, calls) && prompt == SystemFirst(setup.codec, messages)
  }

  // ---- The laws --------------------------------------------------------------------------------

  /** What the turn has done so far, as far as its laws depend on it. */
  datatype State = State(
    lawful: bool,               // every event so far was allowed
    outcomes: seq<LlmOutcome>,  // of the LLM requests
    due: seq<Value>,            // calls of the last reply that are still to be handled
    calls: seq<Call>,           // the handled calls
    gated: nat,
    duplicates: nat,
    signatures: set<string>,    // signatures of all calls so far
    open: bool,                 // calls are being handled, the batch has not ended
    off: bool,                  // a batch ended over a limit
    minted: bool,               // the session is tainted, counting the results of the open batch
    exposed: bool)              // the session is tainted, not counting them

  const START := State(true, [], [], [], 0, 0, {}, false, false, false, false)

  predicate OverLimit(st: State) {
    st.gated >= MAX_GATE_REJECTIONS || st.duplicates >= MAX_DUPLICATE_CALLS
  }

  /** Calls are handled in the order in which the replies bring them, and none is left out before the
      next request; an answer that no tool has given is the reason why. */
  ghost predicate Allowed(setup: Setup, st: State, e: Event) {
    match e
    case Asked(prompt, tools, _) =>
      IsPrompt(setup, prompt, st.calls) && !st.open && st.due == [] && (st.off ==> !tools)
    case Called(call) =>
      && !st.off && st.due != [] && call.request == st.due[0]
      && CallAllowed(setup.codec, st.signatures, st.exposed, call)
    case BatchDone => !st.off && st.due == []
    case Outside(_) => !st.off && !st.open
  }

  predicate CallAllowed(codec: Codec, seen: set<string>, exposed: bool, call: Call) {
    var name := CallName(call.request);
    && (call.tainted <==> exposed)
    && (call.duplicate <==> CallSignature(codec, call.request) in seen)
    && (call.gated <==> call.tainted && name in SENSITIVE)
    && (call.duplicate ==> call.answer == InvalidArgument(DuplicateReason(name)))
    && (call.gated && !call.duplicate ==> call.answer == InvalidArgument(GateReason(name)))
    && (call.minted ==> call.answer.ToolOk?)
  }

  ghost function Step(setup: Setup, st: State, e: Event): State {
    var st1 := st.(lawful := st.lawful && Allowed(setup, st, e));
    match e
    case Asked(_, tools, outcome) =>
      st1.(outcomes := st.outcomes + [outcome], due := if tools then RequestedBy(outcome) else [])
    case Called(call) =>
      st1.(calls := st.calls + [call], due := if st.due == [] then [] else st.due[1..],
           gated := st.gated + (if call.gated then 1 else 0),
           duplicates := st.duplicates + (if call.duplicate then 1 else 0),
           signatures := st.signatures + {CallSignature(setup.codec, call.request)},
           open := true, minted := st.minted || call.minted)
    case BatchDone => st1.(open := false, off := st.off || OverLimit(st), exposed := st.minted)
    case Outside(tainted) => st1.(minted := tainted, exposed := tainted)
  }

  ghost function Observe(setup: Setup, trace: seq<Event>): State {
    if trace == [] then START
    else Step(setup, Observe(setup, trace[..|trace| - 1]), trace[|trace| - 1])
  }

  ghost predicate Lawful(setup: Setup, trace: seq<Event>) { Observe(setup, trace).lawful }

  lemma ObserveNext(setup: Setup, trace: seq<Event>, e: Event)
    ensures Observe(setup, trace + [e]) == Step(setup, Observe(setup, trace), e)
  {
    assert (trace + [e])[..|trace + [e]| - 1] == trace;
  }

  /** `Observe` unfolded once. */
  lemma ObserveLast(setup: Setup, trace: seq<Event>)
    ensures Observe(setup, trace) ==
      if trace == [] then START else Step(setup, Observe(setup, trace[..|trace| - 1]), trace[|trace| - 1])
  {
  }

  lemma StepAsked(setup: Setup, st: State, e: Event)
    requires e.Asked? && Allowed(setup, st, e) && st.lawful
    ensures Step(setup, st, e)
         == st.(outcomes := st.outcomes + [e.outcome], due := if e.tools then RequestedBy(e.outcome) else [])
  {
  }

  // ---- Segments that the loop appends --------------------------------------------------------

  ghost function StepAll(setup: Setup, st: State, events: seq<Event>): State
    decreases |events|
  {
    if events == [] then st else StepAll(setup, Step(setup, st, events[0]), events[1..])
  }

  lemma {:induction false} ObserveAll(setup: Setup, past: seq<Event>, events: seq<Event>)
    ensures Observe(setup, past + events) == StepAll(setup, Observe(setup, past), events)
    decreases |events|
  {
    hide Observe, Step;
    if events == [] {
      assert past + events == past;
    } else {
      ObserveNext(setup, past, events[0]);
      assert past + events == (past + [events[0]]) + events[1..];
      ObserveAll(setup, past + [events[0]], events[1..]);
    }
  }

  function CallSignatures(codec: Codec, calls: seq<Value>): set<string> {
    if calls == [] then {} else {CallSignature(codec, calls[0])} + CallSignatures(codec, calls[1..])
  }

  function Report(calls: seq<Call>): seq<Event> {
    seq(|calls|, i requires 0 <= i < |calls| => Called(calls[i]))
  }

  function GatedIn(calls: seq<Call>): nat {
    if calls == [] then 0 else (if calls[0].gated then 1 else 0) + GatedIn(calls[1..])
  }

  function DuplicatesIn(calls: seq<Call>): nat {
    if calls == [] then 0 else (if calls[0].duplicate then 1 else 0) + DuplicatesIn(calls[1..])
  }

  predicate MintedIn(calls: seq<Call>) {
    exists i :: 0 <= i < |calls| && calls[i].minted
  }

  lemma MintedFirst(calls: seq<Call>)
    requires calls != []
    ensures MintedIn(calls) <==> calls[0].minted || MintedIn(calls[1..])
  {
    var rest := calls[1..];
    if i :| 0 <= i < |calls| && calls[i].minted && i > 0 {
      assert rest[i - 1] == calls[i];
    }
    if i :| 0 <= i < |rest| && rest[i].minted {
      assert calls[i + 1] == rest[i];
    }
  }

  /** `calls` are one batch; `seen` are the signatures of the calls before it, and `exposed` is what
      the session was when the batch began. */
  predicate BatchOf(codec: Codec, seen: set<string>, exposed: bool, calls: seq<Call>)
    decreases |calls|
  {
    calls == []
    || (CallAllowed(codec, seen, exposed, calls[0])
        && BatchOf(codec, seen + {CallSignature(codec, calls[0].request)}, exposed, calls[1..]))
  }

  function AfterCalls(setup: Setup, st: State, calls: seq<Call>): State {
    st.(calls := st.calls + calls, due := [],
        gated := st.gated + GatedIn(calls), duplicates := st.duplicates + DuplicatesIn(calls),
        signatures := st.signatures + CallSignatures(setup.codec, Requests(calls)), open := st.open || calls != [],
        minted := st.minted || MintedIn(calls))
  }
  lemma CallStep(setup: Setup, st: State, calls: seq<Call>)
    requires calls != [] && Allowed(setup, st, Called(calls[0])) && st.due == Requests(calls)
    ensures var st1 := Step(setup, st, Called(calls[0]));
      && st1.signatures == st.signatures + {CallSignature(setup.codec, calls[0].request)}
      && st1.exposed == st.exposed && st1.off == st.off && st1.due == Requests(calls[1..])
      && AfterCalls(setup, st1, calls[1..]) == AfterCalls(setup, st, calls)
  {
    assert Requests(calls)[1..] == Requests(calls[1..]);
    var signature := CallSignature(setup.codec, calls[0].request);
    assert CallSignatures(setup.codec, Requests(calls))
        == {signature} + CallSignatures(setup.codec, Requests(calls[1..]));
    MintedFirst(calls);
    hide Allowed, CallSignature, MintedIn, Requests, CallSignatures;
    var st1 := Step(setup, st, Called(calls[0]));
    assert st1.calls + calls[1..] == st.calls + calls;
    assert st1.signatures + CallSignatures(setup.codec, Requests(calls[1..]))
        == st.signatures + CallSignatures(setup.codec, Requests(calls));
  }

  lemma {:induction false} BatchLaw(setup: Setup, st: State, calls: seq<Call>)
    requires !st.off && st.due == Requests(calls)
    requires BatchOf(setup.codec, st.signatures, st.exposed, calls)
    ensures StepAll(setup, st, Report(calls)) == AfterCalls(setup, st, calls)
    decreases |calls|
  {
    if calls == [] {
      assert st.calls + calls == st.calls;
      assert st.signatures + CallSignatures(setup.codec, Requests(calls)) == st.signatures;
    } else {
      assert Allowed(setup, st, Called(calls[0]));
      hide Allowed, CallAllowed, CallSignature, AfterCalls, Step;
      CallStep(setup, st, calls);
      BatchLaw(setup, Step(setup, st, Called(calls[0])), calls[1..]);
      assert Report(calls)[1..] == Report(calls[1..]);
    }
  }

  function CloseBatch(st: State): State {
    st.(open := false, off := OverLimit(st), exposed := st.minted)
  }

  /** A whole batch in the trace: its calls, then the end of the batch. */
  lemma BatchTrace(setup: Setup, past: seq<Event>, calls: seq<Call>)
    requires !Observe(setup, past).off && Observe(setup, past).due == Requests(calls)
    requires BatchOf(setup.codec, Observe(setup, past).signatures, Observe(setup, past).exposed, calls)
    ensures Observe(setup, past + Report(calls) + [BatchDone])
         == CloseBatch(AfterCalls(setup, Observe(setup, past), calls))
  {
    var st := Observe(setup, past);
    ObserveAll(setup, past, Report(calls));
    ObserveNext(setup, past + Report(calls), BatchDone);
    BatchLaw(setup, st, calls);
    StepDone(setup, AfterCalls(setup, st, calls));
  }

  lemma StepDone(setup: Setup, st: State)
    requires !st.off && st.due == []
    ensures Step(setup, st, BatchDone) == CloseBatch(st)
  {
  }

  // ---- What a lawful trace guarantees ------------------------------------------------------

  lemma {:induction false} LawfulAt(setup: Setup, trace: seq<Event>, i: nat)
    requires Lawful(setup, trace) && i < |trace|
    ensures Lawful(setup, trace[..i]) && Allowed(setup, Observe(setup, trace[..i]), trace[i])
    decreases |trace|
  {
    ObserveLast(setup, trace);
    hide Observe, Allowed;
    var past := trace[..|trace| - 1];
    if i < |past| {
      LawfulAt(setup, past, i);
      assert past[..i] == trace[..i];
    }
  }

  /** The calls that the replies of the turn have brought, as far as they were made with tools. */
  function Owed(e: Event): seq<Value> {
    if e.Asked? && e.tools then RequestedBy(e.outcome) else []
  }

  /** The outcome of a request. */
  function OutcomeOf(e: Event): seq<LlmOutcome> { if e.Asked? then [e.outcome] else [] }

  lemma {:induction false} OutcomesOfTrace(setup: Setup, trace: seq<Event>)
    ensures Observe(setup, trace).outcomes == Collect(OutcomeOf, trace)
    decreases |trace|
  {
    ObserveLast(setup, trace);
    hide Observe, Allowed, CallSignature;
    if trace != [] {
      OutcomesOfTrace(setup, trace[..|trace| - 1]);
    }
  }

  lemma StepDue(setup: Setup, st: State, e: Event)
    requires Allowed(setup, st, e)
    ensures var st1 := Step(setup, st, e);
      Requests(st1.calls) + st1.due == Requests(st.calls) + st.due + Owed(e)
  {
    hide IsPrompt, CallAllowed, CallSignature;
    var st1 := Step(setup, st, e);
    if e.Called? {
      assert Requests(st1.calls) == Requests(st.calls) + [e.call.request];
    }
  }

  /** Every call of every reply received with tools is handled, once and in the order of emission,
      except for what is still due after the last reply. */
  lemma {:induction false} HandledInOrder(setup: Setup, trace: seq<Event>)
    requires Lawful(setup, trace)
    ensures var st := Observe(setup, trace); Requests(st.calls) + st.due == Collect(Owed, trace)
    decreases |trace|
  {
    ObserveLast(setup, trace);
    if trace != [] {
      hide Observe, Allowed, Step, Owed, Requests;
      var past, last := trace[..|trace| - 1], trace[|trace| - 1];
      LawfulAt(setup, trace, |past|);
      HandledInOrder(setup, past);
      StepDue(setup, Observe(setup, past), last);
    }
  }

  /** ... and before the next request nothing is due any more. */
  lemma NothingDueAtRequests(setup: Setup, trace: seq<Event>, i: nat)
    requires Lawful(setup, trace) && i < |trace| && trace[i].Asked?
    ensures Requests(Observe(setup, trace[..i]).calls) == Collect(Owed, trace[..i])
  {
    LawfulAt(setup, trace, i);
    HandledInOrder(setup, trace[..i]);
    hide Observe, IsPrompt;
    var st := Observe(setup, trace[..i]);
    assert Requests(st.calls) + [] == Requests(st.calls);
  }

  /** Every prompt tells the whole story: it is the initial transcript, followed by messages of the
      loop that hold every call the replies have brought so far, and the answer to each, in order. */
  lemma PromptsTellAll(setup: Setup, trace: seq<Event>, i: nat) returns (messages: seq<Value>, calls: seq<Call>)
    requires Lawful(setup, trace) && i < |trace| && trace[i].Asked?
    ensures trace[i].prompt == SystemFirst(setup.codec, messages)
    ensures Continues(setup, messages, calls)
    ensures calls == Observe(setup, trace[..i]).calls && Requests(calls) == Collect(Owed, trace[..i])
  {
    LawfulAt(setup, trace, i);
    NothingDueAtRequests(setup, trace, i);
    hide Observe, Continues;
    calls := Observe(setup, trace[..i]).calls;
    messages :| Continues(setup, messages, calls) && trace[i].prompt == SystemFirst(setup.codec, messages);
  }

  /** The prompts of a turn are well paired exactly if the initial transcript is, but for system
      messages. */
  lemma PromptsWellPaired(setup: Setup, trace: seq<Event>, i: nat)
    requires Lawful(setup, trace) && i < |trace| && trace[i].Asked?
    ensures WellPaired(trace[i].prompt) <==> WellPaired(Conversation(setup.initial))
    ensures WellPaired(setup.initial) ==> WellPaired(trace[i].prompt)
  {
    var messages, calls := PromptsTellAll(setup, trace, i);
    var added := messages[|setup.initial|..];
    assert WellPaired(added) && messages == setup.initial + added;
    hide Continues, Observe, WellPaired, SystemFirst;
    SystemFirstWellPaired(setup.codec, messages);
    ConversationWellPaired(added);
    FilterAppend(NotSystem, setup.initial, added);
    WellPairedAppend(Conversation(setup.initial), Conversation(added));
    if WellPaired(setup.initial) {
      ConversationWellPaired(setup.initial);
    }
  }

  predicate CalledWith(setup: Setup, e: Event, signature: string) {
    e.Called? && CallSignature(setup.codec, e.call.request) == signature
  }

  lemma SignatureStep(setup: Setup, st: State, e: Event, signature: string)
    ensures signature in Step(setup, st, e).signatures <==>
      signature in st.signatures || CalledWith(setup, e, signature)
  {
    hide Allowed;
  }

  lemma {:induction false} SignatureOrigin(setup: Setup, trace: seq<Event>, signature: string)
    ensures signature in Observe(setup, trace).signatures <==>
      exists k :: 0 <= k < |trace| && CalledWith(setup, trace[k], signature)
  {
    ObserveLast(setup, trace);
    hide Observe, Step, CalledWith;
    if trace != [] {
      var past, last := trace[..|trace| - 1], trace[|trace| - 1];
      SignatureOrigin(setup, past, signature);
      SignatureStep(setup, Observe(setup, past), last, signature);
      if k :| 0 <= k < |past| && CalledWith(setup, past[k], signature) {
        assert trace[k] == past[k];
      }
    }
  }

  /** The calls that stay undispatched are exactly those that ask for what was asked before in the
      turn, and the gated ones. */
  lemma UndispatchedCalls(setup: Setup, trace: seq<Event>, i: nat)
    requires setup.codec.Lawful() && setup.codec.OneLine()
    requires Lawful(setup, trace) && i < |trace| && trace[i].Called?
    ensures !Dispatched(trace[i].call) <==>
      || (CallName(trace[i].call.request) in SENSITIVE && TaintedAt(trace, i))
      || (exists k :: 0 <= k < i && trace[k].Called?
            && SameCall(setup.codec, trace[k].call.request, trace[i].call.request))
  {
    hide TaintedAt, Lawful, CallSignature, SameCall;
    UndispatchedSignatures(setup, trace, i);
    SensitiveIsHeldBack(setup, trace, i);
    LawfulAt(setup, trace, i);
    forall k | 0 <= k < i && trace[k].Called?
      ensures SameCall(setup.codec, trace[k].call.request, trace[i].call.request) <==>
        CalledWith(setup, trace[k], CallSignature(setup.codec, trace[i].call.request))
    {
      SameSignature(setup.codec, trace[k].call.request, trace[i].call.request);
    }
  }

  lemma UndispatchedSignatures(setup: Setup, trace: seq<Event>, i: nat)
    requires Lawful(setup, trace) && i < |trace| && trace[i].Called?
    ensures !Dispatched(trace[i].call) <==>
      || (trace[i].call.tainted && CallName(trace[i].call.request) in SENSITIVE)
      || (exists k :: 0 <= k < i && CalledWith(setup, trace[k], CallSignature(setup.codec, trace[i].call.request)))
  {
    var signature := CallSignature(setup.codec, trace[i].call.request);
    LawfulAt(setup, trace, i);
    SignatureOrigin(setup, trace[..i], signature);
    if exists k :: 0 <= k < i && CalledWith(setup, trace[k], signature) {
      var k :| 0 <= k < i && CalledWith(setup, trace[k], signature);
      assert CalledWith(setup, trace[..i][k], signature);
    }
  }

  /** No capability is dispatched twice in a turn with the same arguments. */
  lemma DispatchedOnce(setup: Setup, trace: seq<Event>, i: nat, j: nat)
    requires Lawful(setup, trace) && i < j < |trace|
    requires trace[i].Called? && trace[j].Called? && Dispatched(trace[j].call)
    ensures CallName(trace[i].call.request) != CallName(trace[j].call.request)
         || CallArguments(setup.codec, trace[i].call.request) != CallArguments(setup.codec, trace[j].call.request)
  {
    UndispatchedSignatures(setup, trace, j);
    assert !CalledWith(setup, trace[i], CallSignature(setup.codec, trace[j].call.request));
  }

  lemma OffStep(setup: Setup, st: State, e: Event)
    ensures st.off ==> Step(setup, st, e).off
  {
    hide Allowed, CallSignature;
  }

  lemma {:induction false} OffLasts(setup: Setup, trace: seq<Event>, i: nat)
    requires i <= |trace| && Observe(setup, trace[..i]).off
    ensures Observe(setup, trace).off
    decreases |trace|
  {
    ObserveLast(setup, trace);
    hide Observe, Step;
    if i < |trace| {
      var past, last := trace[..|trace| - 1], trace[|trace| - 1];
      assert past[..i] == trace[..i];
      OffLasts(setup, past, i);
      OffStep(setup, Observe(setup, past), last);
    } else {
      assert trace[..i] == trace;
    }
  }

  /** Positions before `i` of gated calls. */
  ghost function GatedBefore(trace: seq<Event>, i: nat): set<nat>
    requires i <= |trace|
  {
    set k: nat | k < i && trace[k].Called? && trace[k].call.gated
  }

  ghost predicate DuplicateBefore(trace: seq<Event>, i: nat)
    requires i <= |trace|
  {
    exists k :: 0 <= k < i && trace[k].Called? && trace[k].call.duplicate
  }

  lemma StepCounts(setup: Setup, st: State, e: Event)
    ensures Step(setup, st, e).gated == st.gated + (if e.Called? && e.call.gated then 1 else 0)
    ensures Step(setup, st, e).duplicates == st.duplicates + (if e.Called? && e.call.duplicate then 1 else 0)
  {
    hide Allowed, CallSignature;
  }

  lemma {:induction false} GatedCount(setup: Setup, trace: seq<Event>, i: nat)
    requires i <= |trace|
    ensures Observe(setup, trace[..i]).gated == |GatedBefore(trace, i)|
  {
    ObserveLast(setup, trace[..i]);
    hide Observe, Step;
    if i > 0 {
      GatedCount(setup, trace, i - 1);
      assert trace[..i][..i - 1] == trace[..i - 1];
      StepCounts(setup, Observe(setup, trace[..i - 1]), trace[i - 1]);
      GatedBeforeStep(trace, i - 1);
    }
  }

  lemma GatedBeforeStep(trace: seq<Event>, i: nat)
    requires i < |trace|
    ensures |GatedBefore(trace, i + 1)|
         == |GatedBefore(trace, i)| + (if trace[i].Called? && trace[i].call.gated then 1 else 0)
  {
    var e := trace[i];
    assert GatedBefore(trace, i + 1) == GatedBefore(trace, i) + (if e.Called? && e.call.gated then {i} else {});
  }

  lemma {:induction false} DuplicateCount(setup: Setup, trace: seq<Event>, i: nat)
    requires i <= |trace|
    ensures Observe(setup, trace[..i]).duplicates > 0 <==> DuplicateBefore(trace, i)
  {
    ObserveLast(setup, trace[..i]);
    hide Observe, Step;
    if i > 0 {
      DuplicateCount(setup, trace, i - 1);
      assert trace[..i][..i - 1] == trace[..i - 1];
      StepCounts(setup, Observe(setup, trace[..i - 1]), trace[i - 1]);
    }
  }

  /** Between batches, a turn over a limit is switched off. */
  lemma {:induction false} OverLimitIsOff(setup: Setup, trace: seq<Event>)
    requires Lawful(setup, trace)
    ensures var st := Observe(setup, trace); !st.open && OverLimit(st) ==> st.off
    decreases |trace|
  {
    ObserveLast(setup, trace);
    hide Observe, Allowed, CallSignature;
    if trace != [] {
      OverLimitIsOff(setup, trace[..|trace| - 1]);
    }
  }

  /** A batch ends over a limit. */
  ghost predicate TripsAt(trace: seq<Event>, k: int)
    requires 0 <= k < |trace|
  {
    trace[k].BatchDone? && (DuplicateBefore(trace, k) || |GatedBefore(trace, k)| >= MAX_GATE_REJECTIONS)
  }

  ghost predicate Tripped(trace: seq<Event>, j: int)
    requires 0 <= j <= |trace|
  {
    exists k :: 0 <= k < j && TripsAt(trace, k)
  }

  lemma TrippedNext(trace: seq<Event>, j: int)
    requires 0 <= j < |trace|
    ensures Tripped(trace, j + 1) <==> Tripped(trace, j) || TripsAt(trace, j)
  {
    hide TripsAt;
  }

  /** Tools are off for the rest of a turn exactly if a batch has ended after a repeated call or after
      three gated ones. */
  lemma {:induction false} OffExactly(setup: Setup, trace: seq<Event>, j: nat)
    requires j <= |trace|
    ensures Observe(setup, trace[..j]).off <==> Tripped(trace, j)
  {
    ObserveLast(setup, trace[..j]);
    hide Observe, Step;
    if j > 0 {
      OffExactly(setup, trace, j - 1);
      assert trace[..j][..j - 1] == trace[..j - 1];
      StepOff(setup, Observe(setup, trace[..j - 1]), trace[j - 1]);
      LimitExactly(setup, trace, j - 1);
      TrippedNext(trace, j - 1);
      hide Tripped, TripsAt, OverLimit;
    }
  }

  lemma LimitExactly(setup: Setup, trace: seq<Event>, j: nat)
    requires j < |trace|
    ensures trace[j].BatchDone? && OverLimit(Observe(setup, trace[..j])) <==> TripsAt(trace, j)
  {
    GatedCount(setup, trace, j);
    DuplicateCount(setup, trace, j);
    hide Observe, GatedBefore, DuplicateBefore;
  }

  lemma StepOff(setup: Setup, st: State, e: Event)
    ensures Step(setup, st, e).off == (st.off || (e.BatchDone? && OverLimit(st)))
  {
    hide Allowed, CallSignature;
  }

  /** Once a batch with a repeated call is over, or three calls have been gated, every request of
      the turn is made without tools, and no tool call is handled any more. */
  lemma NothingAfterTrip(setup: Setup, trace: seq<Event>, i: nat, j: nat)
    requires Lawful(setup, trace) && i <= j < |trace| && trace[i].Asked?
    requires DuplicateBefore(trace, i) || |GatedBefore(trace, i)| >= MAX_GATE_REJECTIONS
    ensures trace[j].Asked? && !trace[j].tools
  {
    hide IsPrompt, CallAllowed, Observe, GatedBefore, DuplicateBefore;
    LawfulAt(setup, trace, i);
    LawfulAt(setup, trace, j);
    GatedCount(setup, trace, i);
    DuplicateCount(setup, trace, i);
    OverLimitIsOff(setup, trace[..i]);
    assert trace[..j][..i] == trace[..i];
    OffLasts(setup, trace[..j], i);
  }

  // ---- Taint ---------------------------------------------------------------------------------

  predicate BatchEndsIn(trace: seq<Event>, i: int, j: int)
    requires 0 <= i <= j <= |trace|
  {
    exists k :: i <= k < j && trace[k].BatchDone?
  }

  /** What happened at `i` has tainted the session by `j`: somebody tainted it, or a server outside
      answered a call and the batch of that call is over. */
  predicate TaintsAt(trace: seq<Event>, i: int, j: int)
    requires 0 <= i < j <= |trace|
  {
    || trace[i] == Outside(true)
    || (trace[i].Called? && trace[i].call.minted && BatchEndsIn(trace, i, j))
  }

  /** What counts at `i` for the taint of a session, once the open batch is over. */
  predicate MintsAt(trace: seq<Event>, i: int)
    requires 0 <= i < |trace|
  {
    trace[i] == Outside(true) || (trace[i].Called? && trace[i].call.minted)
  }

  predicate ClearedIn(trace: seq<Event>, i: int, j: int)
    requires 0 <= i <= j <= |trace|
  {
    exists k :: i <= k < j && trace[k] == Outside(false)
  }

  ghost predicate TaintedAt(trace: seq<Event>, j: int)
    requires 0 <= j <= |trace|
  {
    exists i :: 0 <= i < j && TaintsAt(trace, i, j) && !ClearedIn(trace, i, j)
  }

  /** ... or it is tainted once the open batch is over. */
  ghost predicate MintedAt(trace: seq<Event>, j: int)
    requires 0 <= j <= |trace|
  {
    exists i :: 0 <= i < j && MintsAt(trace, i) && !ClearedIn(trace, i, j)
  }

  lemma ClearedStep(trace: seq<Event>, i: int, j: int)
    requires 0 <= i <= j < |trace|
    ensures ClearedIn(trace, i, j + 1) <==> ClearedIn(trace, i, j) || trace[j] == Outside(false)
    ensures BatchEndsIn(trace, i, j + 1) <==> BatchEndsIn(trace, i, j) || trace[j].BatchDone?
  {
  }

  lemma MintedStep(trace: seq<Event>, j: int)
    requires 0 <= j < |trace|
    ensures MintedAt(trace, j + 1) <==>
      if trace[j].Outside? then trace[j].tainted else MintedAt(trace, j) || MintsAt(trace, j)
  {
    forall i | 0 <= i <= j
      ensures ClearedIn(trace, i, j + 1) <==> ClearedIn(trace, i, j) || trace[j] == Outside(false)
    {
      ClearedStep(trace, i, j);
    }
    assert !ClearedIn(trace, j, j);
    hide ClearedIn;
    if MintsAt(trace, j) {
      assert MintedAt(trace, j + 1);
    }
  }

  lemma TaintedStep(trace: seq<Event>, j: int)
    requires 0 <= j < |trace|
    ensures TaintedAt(trace, j + 1) <==>
      match trace[j]
      case Outside(tainted) => tainted
      case BatchDone => MintedAt(trace, j)
      case _ => TaintedAt(trace, j)
  {
    forall i | 0 <= i <= j
      ensures ClearedIn(trace, i, j + 1) <==> ClearedIn(trace, i, j) || trace[j] == Outside(false)
      ensures BatchEndsIn(trace, i, j + 1) <==> BatchEndsIn(trace, i, j) || trace[j].BatchDone?
    {
      ClearedStep(trace, i, j);
    }
    assert !ClearedIn(trace, j, j) && !BatchEndsIn(trace, j, j);
    hide ClearedIn, BatchEndsIn;
    assert forall i :: 0 <= i < j ==>
      (TaintsAt(trace, i, j + 1) <==> TaintsAt(trace, i, j) || (trace[j].BatchDone? && MintsAt(trace, i)));
    assert trace[j] == Outside(true) <==> TaintsAt(trace, j, j + 1);
    hide TaintsAt, MintsAt;
    if trace[j] != Outside(true) && TaintedAt(trace, j + 1) {
      var i :| 0 <= i < j + 1 && TaintsAt(trace, i, j + 1) && !ClearedIn(trace, i, j + 1);
      assert i < j && !ClearedIn(trace, i, j);
    }
    if trace[j].BatchDone? && MintedAt(trace, j) {
      var i :| 0 <= i < j && MintsAt(trace, i) && !ClearedIn(trace, i, j);
      assert TaintsAt(trace, i, j + 1) && !ClearedIn(trace, i, j + 1);
    }
    if !trace[j].BatchDone? && !trace[j].Outside? && TaintedAt(trace, j) {
      var i :| 0 <= i < j && TaintsAt(trace, i, j) && !ClearedIn(trace, i, j);
      assert TaintsAt(trace, i, j + 1) && !ClearedIn(trace, i, j + 1);
    }
  }

  lemma {:induction false} TaintIsHistory(setup: Setup, trace: seq<Event>, j: nat)
    requires j <= |trace|
    ensures Observe(setup, trace[..j]).minted <==> MintedAt(trace, j)
    ensures Observe(setup, trace[..j]).exposed <==> TaintedAt(trace, j)
  {
    ObserveLast(setup, trace[..j]);
    hide Observe, Allowed, CallSignature;
    if j > 0 {
      TaintIsHistory(setup, trace, j - 1);
      assert trace[..j][..j - 1] == trace[..j - 1];
      MintedStep(trace, j - 1);
      TaintedStep(trace, j - 1);
      hide MintedAt, TaintedAt;
    }
  }

  /** After an answer from a server outside no sensitive call of a later batch is dispatched, nor
      after anybody else has tainted the session, until somebody clears the taint; and a call that
      is not dispatched is answered with an error. */
  lemma SensitiveIsHeldBack(setup: Setup, trace: seq<Event>, j: nat)
    requires Lawful(setup, trace) && j < |trace| && trace[j].Called?
    ensures trace[j].call.gated <==> CallName(trace[j].call.request) in SENSITIVE && TaintedAt(trace, j)
    ensures !Dispatched(trace[j].call) ==> trace[j].call.answer.ToolErr?
  {
    LawfulAt(setup, trace, j);
    TaintIsHistory(setup, trace, j);
  }
}
