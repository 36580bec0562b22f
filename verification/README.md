# Verified model of Ordo's core

This project models five cores of the Ordo runtime in Dafny and proves what they keep over whole runs.
`dafny verify dfyconfig.toml` checks everything.

1. **The assistant turn loop and its provider translation.** A turn asks an unpredictable model, fails over
   between credentials, runs batches of tool calls in parallel, and switches tools off for good after a repeated
   call or three gated ones. The model, the tools, the credential store, cancellation, what others do to the
   session's taint and the order in which tools finish are functions of the turn's `World`, about which nothing is
   assumed except that each tool of a batch finishes once (`World.Fair`). The transcript the loop builds is
   rewritten before it is sent (`Transcript`) and once more for one provider (`Anthropic`); `Pairing` is how a
   provider reads calls and results, and `AnthropicProofs` is what the rewritings keep.
   JSON text is a parameter with the laws the code relies on: decoding an encoding gives the value back, an
   encoding is never blank (`Json.Codec.Lawful`), and it is a single line (`Json.Codec.OneLine`).
2. **Event-sourced apps.** The row of an app and its event log are written by two different pieces of code.
   `AppsModel` has both computations and their agreement, `AppsTables` what a transaction keeps and time travel,
   `AppsStore` the transactions, `AppsService` the two-step calls under any interleaving, `Slug` the slugs.
3. **Bus, correlator, registry and rate guard.** A broadcast ring of 1024 slots with lag (`Bus`), request/reply
   and scatter/gather on top of it (`Correlator`), an index against a naive scan (`Registry`), and a
   sliding-window limiter (`RateGuard`).
4. **Automations and builds.** Intent trees (`Intents`), the job scheduler (`Scheduler`), the orchestrator's
   paired tables (`Automation`, `Orchestrator`), the gated build pipeline (`BuildPlanner`) and the peer that
   saves its ledgers (`BuildPeer`).
5. **Tool lanes and Base64.** Which tools are advertised and which are reachable (`ToolLanes`), and the encoder
   against the arithmetic of section 4 of RFC 4648 (`Base64`).

Code that updates state in place is a class or a method with loops, proved against a specification function;
lemmas about those functions carry the properties. Ghost fields hold history (the turn's trace, the publish log,
all admitted calls, the metadata an app was born with, its row as each event left it, the row each deployment
was made of).

## What the proofs found

- **Row and log.** A transaction without mutations still writes `updated_at` but no event. `InStepAfter` gives
  the exact condition under which row and log stay in step: at least one mutation, or no change of time. The
  header of `ordo-apps/src/store.rs` says the two cannot diverge; only the service, which never sends an empty
  list, makes that true. The `Created` event carries no metadata, so the fold agrees with the row except on
  initial keys that no event has touched (`RowAgainstFold`); they are the same exactly if every initial key has
  been touched (`RowEqualsFold`), which a new app with metadata never meets (`InitialMetadataDiverges`).
- **Versions.** `state_at_version` casts its argument to a signed 64-bit number; from 2^63 on it answers nothing
  (`VersionIsPrefixFold`).
- **A deployment's state** can change although the call reports a storage error: the update commits before the
  row is read back. `AppsStore.SetDeploymentState` says that this happens exactly if the deployment exists, the
  read-back fails and the update changed anything.
- **A caller hears itself** exactly when its reply topic matches its request topic (`OwnRequest`); then, unless
  deadline or lag intervenes, `call` returns the request as its own reply (`Correlator.Call`).
- **Automations fire once.** A firing marks the job as running and nothing in the orchestrator completes it, so
  even an interval automation fires at most once for each registration, approval or switch-on
  (`FiredConsistent`).
- **Time hardly matters to a trigger.** An interval or heartbeat automation fires at the first tick after it was
  armed, whatever its length, and no tick ever fires one with a cron expression (`FiresExactly`).
- **Leafless intents.** A composite without leaves can need approval while none of its (zero) tasks does;
  `ApprovalAgrees` is the exact condition.
- **Deferred debt is forever.** Nothing clears it, so a build that defers at coupling can never get past its
  test step (`DebtIsForever`).
- **The mode is checked once.** Dispatch checks the lanes and the allow list again but not the mode;
  `HiddenButCallable` says exactly which unadvertised tools can be called.
- **A skipped failover candidate** costs a request: the loop calls the credential that just failed again
  (`TurnLoop.Turn.TakeCandidate`, `TurnLoop.Turn.Ask`).
- **System contents** that are blank strings, arrays, objects, numbers or booleans are merged as their JSON text
  but extracted as they are or not at all. The system text after the merge is the one before it exactly when
  every system message has no content, null content or a non-blank string (`TranslateAfterMerge`);
  `BlankSystemTextDiffers` is the smallest input on which they differ. `ordo-assistant/src/prompt.rs` itself only
  builds non-blank string contents, so such a turn never meets the difference; other transcripts can.
- **Announcements.** A call broadcasts the last event of its app after its transaction, so of a transaction with
  several events only the last is announced, and a call may announce what another caller wrote
  (`AppsService.LoadLastEvent`). The event is loaded under the lock but sent after it, so announcements about one
  app can overtake each other (`Overtaken`).

## Model

| member | source | states |
|---|---|---|
| Transcript.SystemMessagesFirst | ordo-assistant/src/service.rs:91-121 | the two loops compute the merged transcript `SystemFirst` |
| Transcript.SystemFirstIdempotent | ordo-assistant/src/service.rs:91-121 | merging twice is merging once, for any system contents |
| Transcript.SystemFirstKeepsConversation | ordo-assistant/src/service.rs:99-121 | at most one system message, in front; all other messages keep their order |
| Transcript.SystemFirstWellPaired | ordo-assistant/src/service.rs:1732-1736 | merging does not break the pairing of calls and results |
| Transcript.PairedEverywhere | ordo-assistant/src/service.rs:1988-1993 | in a well-paired transcript the j-th call of a message is answered j + 1 places later |
| Transcript.EveryResultAnswers | ordo-assistant/src/service.rs:1988-1993 | and every tool message answers a call made before it |
| Transcript.MergedAsJson | ordo-assistant/src/service.rs:91-97 | a system content that is no plain text is merged as JSON text from which it can be read back |
| Transcript.UnreadableArguments | ordo-assistant/src/service.rs:2020-2026 | arguments that are no JSON text, or absent, count as an empty object |
| Anthropic.TranslateMessages | ordo-cloud/src/anthropic.rs:133-258 | the loop computes the system text and the translated messages |
| Anthropic.TranslateMessage | ordo-cloud/src/anthropic.rs:144-254 | one message: user blocks, tool calls, tool results, anything else unchanged |
| Anthropic.TranslateUserBlocks | ordo-cloud/src/anthropic.rs:151-178 | image blocks become inline images or disappear, others stay in order |
| Anthropic.TranslateCalls | ordo-cloud/src/anthropic.rs:205-232 | non-empty text in one block, then one block for each call in order |
| Anthropic.NormalizeResponse | ordo-cloud/src/anthropic.rs:328-420 | the loop computes the normalized reply |
| AnthropicProofs.NormalizedMembers | ordo-cloud/src/anthropic.rs:383-420 | only the stop reason of a tool call is renamed; the raw response is kept |
| AnthropicProofs.NormalizedTexts | ordo-cloud/src/anthropic.rs:383-420 | all text members say the same; there is no reasoning; the model is the one asked for |
| AnthropicProofs.NormalizedUsage | ordo-cloud/src/anthropic.rs:383-420 | usage is passed on, null if absent |
| AnthropicProofs.CacheTells | ordo-cloud/src/anthropic.rs:383-420 | the cache counts are the reported ones; a hit is a read of anything |
| AnthropicProofs.EveryUseIsRequested | ordo-cloud/src/anthropic.rs:346-367 | every tool block of a response is a call the turn loop finds, with the same id, name and input |
| AnthropicProofs.CommonReplyComesBack | ordo-cloud/src/anthropic.rs:194-232 | a text followed by well-formed tool blocks comes back to the provider exactly as it was |
| AnthropicProofs.UserBlockExactly | ordo-cloud/src/anthropic.rs:260-298 | an image block becomes the image its data URL spells out, or disappears if there is none; all others pass |
| AnthropicProofs.UnchangedMessages | ordo-cloud/src/anthropic.rs:144-254 | messages without images, calls and results are passed on unchanged |
| AnthropicProofs.ToolResultTold | ordo-cloud/src/anthropic.rs:237-249 | a tool message becomes one result block with its id and its text |
| AnthropicProofs.MessageArrives | ordo-cloud/src/anthropic.rs:133-258 | no message loses a call or an answer on its way to the provider |
| AnthropicProofs.ReplyRoundTrip | ordo-cloud/src/anthropic.rs:194-232 | a reply, normalized, stored by the turn loop and translated back, gives its text and its tool calls with the same id, name and input in order |
| AnthropicProofs.CanonicalIffUnchanged | ordo-cloud/src/anthropic.rs:346-367 | a tool block survives the round trip unchanged exactly when it has the provider's four members |
| AnthropicProofs.TranslationPairedIff | ordo-cloud/src/anthropic.rs:133-258 | for every transcript, the provider sees a well-paired conversation exactly when the stored messages, read with their own tool blocks, are well paired; without such blocks, exactly when calls and results are |
| AnthropicProofs.EveryRequestProviderPaired | ordo-assistant/src/service.rs:1722-1781 | every request of every run reaches the provider well paired exactly if the initial transcript would, whatever tool blocks it carries |
| AnthropicProofs.EverythingArrives | ordo-assistant/src/service.rs:1722-1781 | every request of every run tells the provider every call made so far, with its id, name and input, and every answer, in order, after what the initial transcript brings |
| Pairing.NativePaired | ordo-cloud/src/anthropic.rs:237-249 | without foreign tool blocks, the provider's pairing of stored messages is the pairing of calls and results |
| AnthropicProofs.TranslatedView | ordo-cloud/src/anthropic.rs:133-258 | for any message, calls become uses and results become results with the same ids, and tool blocks of its own stay visible |
| AnthropicProofs.TranslateAfterMerge | ordo-assistant/src/service.rs:1732-1736 | translating after the merge gives the same messages, and the same system text exactly when every system message has no content, null content or a non-blank string |
| AnthropicProofs.BlankSystemTextDiffers | ordo-assistant/src/service.rs:91-97 | the empty system text is the smallest input on which the two system texts differ |
| Sorting.TieFreeArrangement | ordo-assistant/src/service.rs:2125-2129 | without ties there is only one sorted arrangement, so completion order cannot show |
| TurnTrace.PromptsTellAll | ordo-assistant/src/service.rs:1964-2187 | every prompt of a run is the initial transcript, its system messages merged, followed by messages of the loop that hold every call the replies have brought so far and the answer to each, in order, and no other tool blocks |
| TurnTrace.PromptsWellPaired | ordo-assistant/src/service.rs:1964-2187 | every prompt of a run is well paired exactly if the initial transcript is, but for system messages |
| TurnTrace.DispatchedOnce | ordo-assistant/src/service.rs:2048-2100 | no capability is dispatched twice in a turn with the same arguments, over all batches |
| TurnTrace.SameSignature | ordo-assistant/src/service.rs:242-248 | two calls have the same signature exactly if capability and arguments agree |
| TurnTrace.UndispatchedCalls | ordo-assistant/src/service.rs:2048-2100 | a call is not dispatched exactly if the turn has asked for the same capability with the same arguments before, or it is sensitive and the session is tainted |
| TurnTrace.NothingAfterTrip | ordo-assistant/src/service.rs:2134-2241 | after a batch with a repetition, or three gated calls, every request is made without tools and no call is handled |
| TurnTrace.OffExactly | ordo-assistant/src/service.rs:2198-2241 | tools go off exactly if a batch has ended after a repeated call or after three gated ones |
| TurnTrace.RequestedAreListed | ordo-assistant/src/service.rs:1892-1893 | a reply requests all the calls it lists |
| TurnTrace.AnswerReadBack | ordo-assistant/src/service.rs:2156-2179 | from a tool message the tool's value, or the error, can be read back |
| TurnTrace.HandledInOrder | ordo-assistant/src/service.rs:2002-2046 | the handled calls are the calls of all replies received with tools, once each and in order of emission, but for what the last reply left |
| TurnTrace.NothingDueAtRequests | ordo-assistant/src/service.rs:1964-2187 | before the next request nothing is left: all calls of all earlier replies have been handled |
| TurnTrace.SensitiveIsHeldBack | ordo-assistant/src/service.rs:2072-2155 | a sensitive call is gated exactly if, since the taint was last cleared, somebody tainted the session or a batch is over in which a server outside answered |
| TurnTrace.TaintIsHistory | ordo-assistant/src/service.rs:557-590 | the taint a batch finds is the history of answers from outside, taintings and clearings |
| TurnTrace.BatchTrace | ordo-assistant/src/service.rs:2048-2141 | what a whole batch does to the turn's counters and signatures |
| TurnLoop.EmittedOrderRestored | ordo-assistant/src/service.rs:2125-2129 | whatever order tools finish in, the outputs are recorded in emitted order |
| TurnLoop.BatchWellPaired | ordo-assistant/src/service.rs:1970-2187 | an assistant turn and its results are a well-paired block |
| TurnLoop.BatchRecorded | ordo-assistant/src/service.rs:1970-2187 | a recorded batch keeps transcript, invocations and emitted calls in agreement, and each tool message says what was recorded for its call |
| TurnLoop.Turn.constructor | ordo-assistant/src/service.rs:1672-1698 | a turn starts with all invariants in place, from any transcript, with a fixed list of failover candidates |
| TurnLoop.Turn.Ask | ordo-assistant/src/service.rs:1748-1838 | one request and its failover: requests made, candidates used up, and why it failed |
| TurnLoop.Turn.TakeCandidate | ordo-assistant/src/service.rs:1799-1829 | a candidate is consumed even if it is paused or unknown; only a usable one is switched to |
| TurnLoop.Turn.MarkDuplicates | ordo-assistant/src/service.rs:2048-2058 | exactly the calls whose signature occurred before are marked |
| TurnLoop.SkippedExactly | ordo-assistant/src/service.rs:2048-2058 | a call is marked exactly if an earlier batch or an earlier call of this one asked for the same |
| TurnLoop.Turn.Dispatch | ordo-assistant/src/service.rs:2077-2129 | parallel dispatch and re-sequencing give the outputs in emitted order |
| TurnLoop.Turn.RecordResults | ordo-assistant/src/service.rs:2143-2187 | one tool message and one invocation for every output, in order; the session becomes tainted exactly if an untrusted external server answered |
| TurnLoop.ExternalExactly | ordo-assistant/src/service.rs:2840-2856 | an answer taints exactly if its provider is an external server that is not marked as trusted |
| TurnLoop.RecordTells | ordo-assistant/src/service.rs:2160-2183 | an invocation tells the call and its answer, as a result or as an error |
| TurnLoop.Turn.RunBatch | ordo-assistant/src/service.rs:1970-2187 | a batch handles exactly the calls that are due, keeps the records, gates by the taint found at its start and leaves the taint its answers bring, or is cancelled before anything is dispatched |
| TurnLoop.OthersDecide | ordo-assistant/src/service.rs:557-590 | the taint a batch finds is what others last made it, or else what the turn left |
| TurnLoop.Turn.BreakLoop | ordo-assistant/src/service.rs:2198-2241 | tools are in use as long as they were offered, no limit is reached and no final answer was asked for; the model is told which limit it was |
| TurnLoop.Turn.Conclude | ordo-assistant/src/service.rs:1848-1951 | a thinking-only reply earns one more question, at most once |
| TurnLoop.ReasoningOnlyExactly | ordo-assistant/src/service.rs:1850-1866 | only thinking: a blank content and a reasoning that is not |
| TurnLoop.ProdSays | ordo-assistant/src/service.rs:2210-2228 | a nudge is an empty assistant turn and a user message with the text |
| TurnLoop.Turn.React | ordo-assistant/src/service.rs:1846-2242 | a reply with calls has all of them handled unless it came after the cap; without tools nothing is called |
| TurnLoop.Turn.ActOn | ordo-assistant/src/service.rs:1964-1974 | stores the reply's message and handles every call of the reply |
| TurnLoop.Turn.Iterate | ordo-assistant/src/service.rs:1722-2242 | one round of the loop keeps every invariant and leaves nothing to be handled |
| TurnLoop.Turn.NextAnswer | ordo-assistant/src/service.rs:1722-1845 | sends the merged transcript and notes the model of the first reply that names one |
| TurnLoop.ModelExactly | ordo-assistant/src/service.rs:1839-1845 | the model is the reply's `model`, if it is a string |
| TurnLoop.Turn.Run | ordo-assistant/src/service.rs:1722-2249 | every turn ends after at most `max + 1` rounds and `max + 1` plus the initial candidates requests; its trace obeys all laws and holds the model's own replies; on success the invocations are the calls of all replies received with tools within the cap, in order, each with the tool's own answer or the reason it was not dispatched |
| AppsModel.BatchAgrees | ordo-apps/src/store.rs:249-343 | folding a transaction's events on top of an agreeing log gives the row the transaction writes |
| AppsModel.RowAgainstFold | ordo-apps/src/store.rs:546-604 | the row equals the fold, except for initial metadata keys no event has touched |
| AppsModel.RowEqualsFold | ordo-apps/src/store.rs:546-604 | row and fold are the same exactly if the events have touched every initial metadata key |
| AppsStore.InitialMetadataDiverges | ordo-apps/src/store.rs:48-109 | a new app with one metadata key: its log does not fold to its row |
| AppsModel.PathStamps | ordo-apps/src/store.rs:276-294 | a log along the lifecycle folds to a row that is archived iff stamped archived, and stamped published if published |
| AppsModel.MutateKeepsIdentity | ordo-apps/src/store.rs:309-343 | mutations never touch id, workspace, slug or creation time |
| AppsModel.BatchPrefix | ordo-apps/src/store.rs:249-305 | the first k events of a batch are the events of its first k mutations |
| AppsModel.RenamesTell | ordo-apps/src/store.rs:249-305 | a renaming event tells the name the row had and the name it got |
| AppsTables.InStepAfter | ordo-apps/src/store.rs:199-343 | a transaction keeps row and log in step exactly if it has a mutation or does not change the time |
| AppsTables.TransactedInStep | ordo-apps/src/store.rs:199-343 | a non-empty transaction keeps every app in step |
| AppsTables.TransactedShape | ordo-apps/src/store.rs:234-305 | sequence numbers stay 0..n-1, keys and slugs unique |
| AppsTables.SlugsPerWorkspace | ordo-apps/src/store.rs:125-146 | slugs are unique within a workspace only |
| AppsTables.VersionIsPrefixFold | ordo-apps/src/store.rs:356-372 | version k is the fold of events 0..k, and nothing from 2^63 on |
| AppsTables.VersionStable | ordo-apps/src/store.rs:356-372 | once event k exists, version k never changes as the logs grow, and every method of the store and the service lets them only grow |
| AppsTables.AppendedGrows | ordo-apps/src/store.rs:606-641 | appending rows to the event table loses or changes no event of any app |
| AppsTables.RemembersMore | ordo-apps/src/store.rs:199-343 | a transaction keeps all past rows of every app readable and adds the row each new event leaves |
| AppsTables.VersionIsHistory | ordo-apps/src/store.rs:345-372 | at any later time, version k is the row as event k left it, but for untouched initial metadata |
| AppsTables.VersionMidBatch | ordo-apps/src/store.rs:249-305 | the version of the j-th event of a batch is the row after its first j + 1 mutations |
| AppsTables.DeploymentVersion | ordo-apps/src/store.rs:400-440 | a deployment's sequence number reconstructs the app as deployed, after any later changes |
| AppsTables.TransactedReconstructs | ordo-apps/src/store.rs:400-440 | transactions keep every deployment reconstructible |
| AppsTables.SelectNumbered | ordo-apps/src/store.rs:358-366 | the query by sequence number selects a prefix of the log, in order |
| AppsStore.FoldEventsIntoState | ordo-apps/src/store.rs:546-604 | the fold loop computes `FoldFrom` with no metadata |
| AppsStore.FoldStuck | ordo-apps/src/store.rs:571-575 | a second creation event makes the whole log unreadable |
| AppsStore.RunMutations | ordo-apps/src/store.rs:242-305 | the loop computes the new row and one event for each mutation |
| AppsStore.AppsStore.Insert | ordo-apps/src/store.rs:48-109 | creates row and first event together, or fails and changes nothing; conflicts exactly on a taken id or slug |
| AppsStore.AppsStore.Get | ordo-apps/src/store.rs:111-146 | finds the one app a reference names, if there is one |
| AppsStore.AppsStore.ApplyMutations | ordo-apps/src/store.rs:199-343 | commits the whole transaction or changes nothing, exactly when the row exists with the expected status |
| AppsStore.AppsStore.StateAtVersion | ordo-apps/src/store.rs:356-372 | answers `VersionOf` |
| AppsStore.AppsStore.CreateDeployment | ordo-apps/src/store.rs:379-440 | records the app's highest sequence number; every deployment stays reconstructible |
| AppsStore.AppsStore.SetDeploymentState | ordo-apps/src/store.rs:442-466 | changes the state and keeps an earlier promotion time; reports an error over changed tables exactly if reading back fails after a change |
| AppsStore.EmptyTransactionDiverges | ordo-apps/src/store.rs:249-325 | a new app and a transaction without mutations at another time: row and log come apart |
| AppsService.DiffApplies | ordo-apps/src/service.rs:152-190 | applying the computed mutations gives exactly the patched row |
| AppsService.DiffEmptyIffNothingAsked | ordo-apps/src/service.rs:158-183 | no mutations exactly when the patch asks for what is already there |
| AppsService.DiffPatch | ordo-apps/src/service.rs:158-180 | the loop computes the mutations, or refuses a blank name |
| AppsService.DecisionsAreLegal | ordo-apps/src/service.rs:195-288 | every plan is legal and non-empty, and whoever is told it worked has the status asked for |
| AppsService.StatusDecision | ordo-apps/src/service.rs:195-288 | a status request is carried out exactly if the lifecycle allows its event and it changes anything, and refused exactly if the lifecycle does not allow it and the row is not what was asked for already; the plan changes the status and its stamp and nothing else, in the caller's name |
| AppsService.UpdateDecision | ordo-apps/src/service.rs:152-190 | an update is refused exactly for a blank name, answered at once exactly if it asks for nothing new, and else carried out by a plan that gives the patched row |
| AppsService.PlanKeepsPath | ordo-apps/src/service.rs:195-288 | a plan continues the lifecycle on whatever row it finds, because the store checks the status again |
| AppsService.AppsService.Create | ordo-apps/src/service.rs:55-89 | refuses exactly blank names and empty slugs; else a healthy store inserts unless id or slug is taken |
| AppsService.AppsService.Begin | ordo-apps/src/service.rs:195-219 | the read half of a call: answer, refuse or park a plan; the tables are untouched |
| AppsService.AppsService.Finish | ordo-apps/src/service.rs:219-230 | the transaction half, in any order with other calls; on a healthy store it succeeds exactly if the app exists with the expected status; a failure changes neither row nor log |
| AppsService.AppsService.LoadLastEvent | ordo-apps/src/service.rs:292-303 | after its transaction a call loads the last event of its app, which may be another caller's by then |
| AppsService.AppsService.Announcements | ordo-apps/src/service.rs:290-310 | in every reachable state what was broadcast about an app is in its log |
| AppsService.Overtaken | ordo-apps/src/service.rs:292-310 | a later event can be broadcast before an earlier one of the same app |
| AppsService.AppsService.Stamps | ordo-apps/src/service.rs:195-288 | in every reachable state stamps match the status and the log is a lifecycle path |
| AppsService.AppsService.Versions | ordo-apps/src/service.rs:106-111 | in every reachable state every version of every app is the row as that event left it |
| AppsService.AppsService.Refinement | ordo-apps/src/store.rs:12-14 | in every reachable state the log folds to the row |
| Slug.Slugify | ordo-apps/src/service.rs:315-329 | a slug is the lower-cased alphanumeric runs of the name joined by single dashes |
| Slug.SlugOfWord | ordo-apps/src/service.rs:315-329 | the slug of a word is the word in lower case |
| Slug.SlugOfPieces | ordo-apps/src/service.rs:315-329 | any other character separates: both sides are joined by one dash, and an empty side leaves none |
| Slug.SlugIdempotent | ordo-apps/src/service.rs:315-329 | normalizing a slug changes nothing |
| Bus.WildcardMatches | ordo-bus/src/lib.rs:45-49 | `p.*` matches exactly the topics that start with `p.` |
| Bus.MatchesExactly | ordo-bus/src/lib.rs:45-49 | `*` matches every topic, `p.*` the topics below `p`, and any other subscription its own topic only |
| Bus.InProcessBus.Publish | ordo-bus/src/lib.rs:53-60 | appends to the log; the ring holds its last 1024 messages |
| Bus.Subscription.Next | ordo-bus/src/lib.rs:69-78 | a stream has delivered exactly the matching part of one contiguous log segment; lag ends it for good |
| Correlator.Call | ordo-bus/src/correlator.rs:55-99 | returns the first reply with the request's id; without deadline and lag it returns exactly if there is one; on matching topics that is the request itself |
| Correlator.ScatterGather | ordo-bus/src/correlator.rs:105-154 | returns a prefix of the matching replies, at most the maximum, and as many as there are without deadline and lag |
| Correlator.OwnRequest | ordo-bus/src/correlator.rs:66-77 | the caller hears its own request first exactly when the topics match |
| Correlator.OneTopicForBoth | ordo-bus/src/correlator.rs:66-77 | one topic for requests and replies: the request is its own first reply |
| Correlator.NoCrossTalk | ordo-bus/src/correlator.rs:88-90 | calls with distinct ids never see each other's replies |
| Correlator.MirroredReplyIsFirst | ordo-bus/src/correlator.rs:166-172 | a reply that mirrors the id is the one heard, if nobody was faster |
| Registry.RemoveFromPathIndex | ordo-bus/src/registry.rs:168-181 | takes the id out of exactly the given buckets and leaves no empty one |
| Registry.ServersWithout | ordo-bus/src/registry.rs:76-101 | forgetting a provider removes it from every path and nothing else |
| Registry.ProviderRegistry.Register | ordo-bus/src/registry.rs:76-90 | re-registering moves a provider to the end of the order with its new paths |
| Registry.ProviderRegistry.Deregister | ordo-bus/src/registry.rs:92-101 | removes one provider and returns it |
| Registry.ProviderRegistry.Heartbeat | ordo-bus/src/registry.rs:103-111 | renews one heartbeat; the index is unaffected |
| Registry.ProviderRegistry.ForPath | ordo-bus/src/registry.rs:115-127 | the index gives what a scan of all live providers in registration order gives, repetitions included |
| Registry.AliveExactly | ordo-bus/src/registry.rs:52-54 | a provider is alive until its interval and the grace are over, and not longer |
| Registry.ProviderRegistry.SweepExpired | ordo-bus/src/registry.rs:140-157 | removes exactly the dead entries, reports each once and keeps the survivors in registration order |
| Registry.SweepIsInvisible | ordo-bus/src/registry.rs:115-157 | a sweep with the lookup's grace changes no lookup made at that moment |
| Registry.ProviderRegistry.IndexExact | ordo-bus/src/registry.rs:62-69 | a bucket names exactly the registered providers that list its path |
| RateGuard.WindowBound | ordo-brain/src/lib.rs:146-160 | no closed interval as long as the window holds more than 120 admitted calls |
| RateGuard.ToolCallGuard.Observe | ordo-brain/src/lib.rs:145-181 | a call is rejected exactly when 120 admitted ones lie in the closed window before it; the count of identical calls is the equal suffix, saturating |
| RateGuard.ToolCallGuard.NeverMoreThanTheCap | ordo-brain/src/lib.rs:39-45 | the bound holds in every reachable state for every capability |
| RateGuard.RunIsLongestSuffix | ordo-brain/src/lib.rs:162-176 | the count is the length of the longest suffix of equal fingerprints |
| Intents.FlattenedAreLeaves | ordo-automation/src/lib.rs:425-433 | flattening leaves nothing nested |
| Intents.FlattenKeeps | ordo-automation/src/lib.rs:425-433 | flattening keeps every leaf and adds none |
| Intents.TaskTells | ordo-automation/src/lib.rs:414-423 | a task runs its leaf's capability and asks for approval exactly if the policy does for the leaf |
| Intents.ThresholdExactly | ordo-automation-primitives/src/lib.rs:228-234 | a threshold asks for approval at its level and above, and nowhere below |
| Intents.RiskIsHighestLeaf | ordo-automation-primitives/src/lib.rs:155-170 | the risk of a tree is the highest risk among its leaves |
| Intents.ProblemIsFirstLeafProblem | ordo-automation-primitives/src/lib.rs:329-414 | validation reports the first leaf error in flattened order |
| Intents.ValidIsBelowCoreMutation | ordo-automation-primitives/src/lib.rs:329-414 | a valid tree is below the forbidden risk level |
| Intents.ValidExactly | ordo-automation-primitives/src/lib.rs:329-414 | a tree is valid exactly if every leaf names what it must, is below the forbidden level, and has a writer's level if it writes |
| Intents.ApprovalAgrees | ordo-automation/src/lib.rs:414-423 | the spec needs approval iff some task does, exactly when there is a leaf or the policy lets the lowest risk through |
| Intents.EmptyCompositeDisagrees | ordo-automation-primitives/src/lib.rs:164-168 | an empty composite is valid and needs approval while none of its tasks does |
| Scheduler.JobScheduler.Run | ordo-jobs/src/lib.rs:307-334 | fires exactly the due jobs, each once, and leaves them running |
| Automation.WithJobConsistent | ordo-automation/src/lib.rs:298-329 | scheduling a cleared spec keeps all tables consistent |
| Automation.SwitchedConsistent | ordo-automation/src/lib.rs:211-245 | enabling and disabling keep all tables consistent, flags included |
| Automation.RemovedConsistent | ordo-automation/src/lib.rs:247-261 | deletion keeps all tables consistent |
| Automation.ParkedConsistent | ordo-automation/src/lib.rs:172-182 | a spec waiting for approval has no job |
| Automation.FiredConsistent | ordo-automation/src/lib.rs:263-283 | an automation fires at most once each time it is armed |
| Automation.FiringsCount | ordo-automation/src/lib.rs:331-341 | a round adds one firing to each due automation and to no other |
| Automation.OnlyEnabledAndClearedFire | ordo-automation/src/lib.rs:263-283 | only enabled automations that need no approval or have it fire |
| Automation.FiresExactly | ordo-jobs/src/lib.rs:86-99 | an automation fires exactly if it is armed and its trigger fits: which tick or event that is, for every kind of trigger |
| Automation.AnnouncedExactly | ordo-automation/src/lib.rs:331-341 | a round announces each fired job with its automation and that automation's intent |
| Automation.RemovedForgets | ordo-automation/src/lib.rs:247-261 | deletion forgets the automation and its job and leaves all others alone |
| Automation.SwitchedSets | ordo-automation/src/lib.rs:211-245 | a switch sets the flag and arms or disarms the job, and leaves all others alone |
| Automation.JobTells | ordo-automation/src/lib.rs:375-396 | a job carries its spec's name, kind and policy and is ready to run |
| Automation.AcceptedExactly | ordo-automation-primitives/src/lib.rs:302-414 | a spec is accepted exactly if it has a name, a complete trigger and a valid intent |
| Orchestrator.AutomationOrchestrator.Register | ordo-automation/src/lib.rs:164-185 | validates, refuses duplicates, parks or schedules |
| Orchestrator.AutomationOrchestrator.RegisterJobForSpec | ordo-automation/src/lib.rs:298-329 | replaces the job of an enabled spec; only logs for a disabled one |
| Orchestrator.AutomationOrchestrator.Approve | ordo-automation/src/lib.rs:187-199 | marks the spec approved and schedules it if it is enabled |
| Orchestrator.AutomationOrchestrator.Enable | ordo-automation/src/lib.rs:211-227 | switches spec and job on; creates no job |
| Orchestrator.AutomationOrchestrator.Disable | ordo-automation/src/lib.rs:229-245 | switches spec and job off |
| Orchestrator.AutomationOrchestrator.Delete | ordo-automation/src/lib.rs:247-261 | removes spec, job and both links |
| Orchestrator.AutomationOrchestrator.Dispatch | ordo-automation/src/lib.rs:263-283 | runs the scheduler, logs and returns one event for each due job |
| Orchestrator.AutomationOrchestrator.SpecsSnapshot | ordo-automation/src/lib.rs:158-162 | every spec once, sorted by name |
| Sorting.StringLeExactly | ordo-automation/src/lib.rs:158-162 | names are ordered by their first differing character, and a text comes before its continuations |
| Orchestrator.FromSpecs | ordo-automation/src/lib.rs:123-129 | loads exactly the lists of valid specs with distinct ids, with jobs for exactly the enabled cleared ones |
| Orchestrator.LoadableIff | ordo-automation/src/lib.rs:123-129 | a list loads exactly if no spec of it is invalid and no two share an id |
| Orchestrator.LoadOrSeed | ordo-automation/src/lib.rs:131-145 | loads what the file stands for: the defaults if it is missing or empty, an error if it is unreadable or malformed, and otherwise the error of the first spec that cannot be registered |
| Orchestrator.SaveToPath | ordo-automation/src/lib.rs:147-156 | writes every spec once, in name order, or fails |
| Orchestrator.Reload | ordo-automation/src/lib.rs:131-156 | on a healthy file system saving and loading never fails, restores every spec, and schedules exactly the enabled cleared ones |
| Snapshot.SnapshotRestores | ordo-automation/src/lib.rs:158-162 | reading a snapshot back gives the table it was taken of |
| BuildPlanner.BuildPlanner.HandleGateResult | ordo-build-planner/src/lib.rs:212-229 | judges a gate result and updates the ledger; an error leaves it unchanged |
| BuildPlanner.BuildPlanner.HandlePass | ordo-build-planner/src/lib.rs:269-303 | refuses for debt or markers, else records the output and advances or completes |
| BuildPlanner.BuildPlanner.HandleFail | ordo-build-planner/src/lib.rs:305-328 | offers a retry or halts |
| BuildPlanner.BuildPlanner.HandleDeferred | ordo-build-planner/src/lib.rs:330-352 | records debt, at coupling only |
| BuildPlanner.AdvanceExactly | ordo-build-planner/src/lib.rs:269-303 | exactly when a gate result moves the build on |
| BuildPlanner.HaltsExactly | ordo-build-planner/src/lib.rs:305-328 | a result halts an active build exactly if it is a failure the build is not to correct itself; one that it is leaves the ledger alone |
| BuildPlanner.DebtExactly | ordo-build-planner/src/lib.rs:330-354 | debt is recorded exactly by a fitting deferral at coupling, one entry with its reason |
| BuildPlanner.RefusedExactly | ordo-build-planner/src/lib.rs:212-303 | exactly when a result is refused, and with which reason |
| BuildPlanner.NewBuild | ordo-build-planner/src/lib.rs:49-67 | a new build is active at intake, has nothing behind it and does not correct itself |
| BuildPlanner.StepKeeps | ordo-build-planner/src/lib.rs:269-362 | a gate result keeps the ledger in order and never rewrites an output |
| BuildPlanner.RunKeeps | ordo-build-planner/src/lib.rs:212-362 | over any sequence, outputs exist for exactly the steps before the current one, and the step counts the advances |
| BuildPlanner.InactiveIsFinal | ordo-build-planner/src/lib.rs:217-219 | a build that has left Active never changes again |
| BuildPlanner.DebtIsForever | ordo-build-planner/src/lib.rs:274-278 | a build with recorded debt never completes, whatever arrives |
| BuildPlanner.MarkersHold | ordo-build-planner/src/lib.rs:279-283 | a build with coupling markers never gets past coupling |
| BuildPeer.BuildPlannerPeer.StartBuild | ordo-build-planner/src/peer.rs:92-100 | saved first, then kept; a failed save leaves it nowhere |
| BuildPeer.BuildPlannerPeer.HandleGateResult | ordo-build-planner/src/peer.rs:102-121 | after every success the saved ledger equals the one in memory; a failed save leaves memory ahead |
| BuildPeer.BuildPlannerPeer.Hydrate | ordo-build-planner/src/peer.rs:59-64 | inserts ledgers in order, later ones win |
| BuildPeer.BuildPlannerPeer.LedgersSnapshot | ordo-build-planner/src/peer.rs:70-78 | every ledger once, newest first |
| BuildPeer.Rehydrate | ordo-build-planner/src/peer.rs:43-78 | a peer hydrated from a snapshot holds the same ledgers |
| ToolLanes.InLanesIsSegmentPrefix | ordo-assistant/src/service.rs:390-407 | in a lane exactly when the lane, less one trailing dot, is a prefix of the dotted segments |
| ToolLanes.AvailableTools | ordo-assistant/src/tools.rs:145-189 | strictly ascending, and exactly the first announcement, in answer to this request, of every allowed capability |
| ToolLanes.AnnouncedExactly | ordo-assistant/src/tools.rs:145-189 | only the answers to this request count, and all of them do |
| ToolLanes.AdmittedExactly | ordo-assistant/src/service.rs:2560-2604 | a mode shows what one of its lanes is a prefix of, unless it blocks it; the session's lanes narrow that |
| ToolLanes.SortKeepsFirst | ordo-assistant/src/tools.rs:171-172 | the stable sort keeps the first announcement of a capability first |
| ToolLanes.BuildToolSchema | ordo-assistant/src/service.rs:2506-2604 | the names in the schema, and who provides each bus tool |
| ToolLanes.SchemaNamesDistinct | ordo-assistant/src/service.rs:2506-2604 | no two tools in the schema share a name |
| ToolLanes.AdvertisedIsReachable | ordo-assistant/src/service.rs:2611-2660 | every advertised tool passes the checks at dispatch |
| ToolLanes.BusExactly | ordo-assistant/src/service.rs:2611-2660 | a call goes over the bus exactly if it is no meta tool, is on the session's lanes, and a gateway lane but no reserved name is a prefix of it |
| ToolLanes.HiddenButCallable | ordo-assistant/src/service.rs:2635-2658 | exactly which available tools are callable without being advertised |
| ToolLanes.ModeHidesButDoesNotStop | ordo-assistant/src/service.rs:2635-2658 | a mode that allows nothing hides an allowed tool that can still be called |
| Base64.Base64EncodeStandard | ordo-cli/src/ext_cmd.rs:170-191 | the loop with shifts and masks computes the RFC 4648 encoding |
| Base64.EncodeChunk | ordo-cli/src/ext_cmd.rs:173-189 | one group of one to three octets |
| Base64.IndexDigits | ordo-cli/src/ext_cmd.rs:177-185 | the four shift-and-mask expressions are the base-64 digits of the 24-bit group |
| Base64.DecodeExactly | ordo-cli/src/mcp_cmd.rs:291-312 | a strict decoder maps a text to these octets exactly if it is their encoding |
| Base64.EncodingDetermines | ordo-cli/src/ext_cmd.rs:170-191 | decoding gives the bytes back, and different bytes have different encodings |
| Base64.EncodeShape | ordo-cli/src/ext_cmd.rs:170-191 | four characters for each started group, alphabet letters first, then exactly the padding the length asks for |

## Left out

- TurnLoop.Turn.Run: does not model prompt assembly, persistence, review, streaming itself, events to the studio or the wording of answers, skip reasons and nudges; a successful streaming attempt and every fixed text are parameters.
- TurnLoop.Turn.constructor: takes the assembled prompt, the list of failover candidates and the map of providers as parameters.
- TurnLoop.Turn.RunBatch: does not model the events published for the studio; a session's taint is one bit, whether any source of it is untrusted.
- TurnLoop.Turn.RecordResults: does not model durations and invocation ids.
- TurnLoop.Turn.Ask: does not model per-credential models and timeouts, which change what is sent but not when.
- AppsStore.AppsStore.Insert: does not model the text of storage errors; where the engine fails (before or after the checks) is a parameter, and so are new ids and times.
- AppsService.AppsService.LoadLastEvent: does not model the bus; an event that the bus refuses counts as broadcast, and a service without a bus is one whose logs are never readable.
- Slug.Slugify: covers ASCII case folding and ASCII alphanumerics, as the code does; other characters separate words.
- Correlator.Call: does not model real time; the schedule says when others publish, when the caller polls and when the deadline fires. The stream of a bus that is dropped while a caller waits is not part of this model.
- Registry.ProviderRegistry.ForPath: does not model overflow of very long heartbeat intervals.
- RateGuard.ToolCallGuard.Observe: assumes a clock that does not run backwards, as the monotonic clock it reads promises.
- Automation.WithJobConsistent: job timestamps, assigned workers, error counts, task arguments and the scope they carry are not modelled; fresh job ids come from the caller.
- Orchestrator.SaveToPath: a failed write leaves no partial file in the model; directories are not modelled.
- BuildPeer.BuildPlannerPeer.HandleGateResult: planners are held by value; the ledger members that gate results never touch (requirements, blueprint versions, retries, launch proof) are not modelled, nor are partial file writes.
- BuildPlanner.RunKeeps: the accessor that hands out a mutable ledger is not modelled; only gate results change a ledger.
- ToolLanes.AvailableTools: bus errors are not modelled, and the collection window is a parameter: what is given is what was heard in time.
- SQLite, the file system, HTTP and timers: a transaction is one atomic step that commits or changes nothing.
- JSON syntax, timestamps and UUIDs: abstract values.
- `translate_tool_schemas` and `translate_tool_choice`: one-branch mappings without a property beyond their bodies.
- Listing and filtering of apps and deployments, and bus transport across processes.
- Memory, retrieval, speech, avatars, modes' persona texts, plugins, the CLI beyond its encoder, and the control API.
