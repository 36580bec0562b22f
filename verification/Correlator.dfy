/** Request/reply and scatter/gather composed from publish and subscribe. */
module Correlator {
  import opened Prelude
  import opened Bus

  datatype CorrelatorError = Timeout | Transport

  /** What happens while a caller waits, in the order the caller observes it: another party
      publishes, the caller polls its stream once, or the deadline fires. After the listed steps
      the bus is silent: the caller drains its stream and then runs into the deadline. */
  datatype Step = Post(posted: Posted) | Poll | Deadline

  const POST: Step -> seq<Posted> := (step: Step) => if step.Post? then [step.posted] else []

  function Posts(schedule: seq<Step>): seq<Posted> { Collect(POST, schedule) }

  lemma PostsNext(schedule: seq<Step>, i: nat)
    requires i < |schedule|
    ensures Posts(schedule[..i + 1])
         == Posts(schedule[..i]) + (if schedule[i].Post? then [schedule[i].posted] else [])
  {
    assert schedule[..i + 1] == schedule[..i] + [schedule[i]];
    CollectNext(POST, schedule[..i], schedule[i]);
  }

  lemma {:induction false} PostsPrefix(schedule: seq<Step>, i: nat)
    requires i <= |schedule|
    ensures |Posts(schedule[..i])| <= |Posts(schedule)|
    decreases |schedule| - i
  {
    if i < |schedule| {
      PostsNext(schedule, i);
      PostsPrefix(schedule, i + 1);
    } else {
      assert schedule[..i] == schedule;
    }
  }

  function ReplyTo(id: string): Envelope -> seq<Envelope> {
    (e: Envelope) => if e.correlationId == Some(id) then [e] else []
  }

  /** The envelopes that carry the correlation id. */
  function Replies(id: string, envelopes: seq<Envelope>): seq<Envelope> { Collect(ReplyTo(id), envelopes) }

  lemma {:induction false} RepliesCarryId(id: string, envelopes: seq<Envelope>)
    ensures forall i :: 0 <= i < |Replies(id, envelopes)| ==>
      Replies(id, envelopes)[i].correlationId == Some(id)
    decreases |envelopes|
  {
    if envelopes != [] {
      var n := |envelopes| - 1;
      RepliesCarryId(id, envelopes[..n]);
      CollectNext(ReplyTo(id), envelopes[..n], envelopes[n]);
      assert envelopes == envelopes[..n] + [envelopes[n]];
      var before: seq<Envelope>, last: seq<Envelope> := Replies(id, envelopes[..n]), ReplyTo(id)(envelopes[n]);
      assert Replies(id, envelopes) == before + last;
      forall i | 0 <= i < |before + last| ensures (before + last)[i].correlationId == Some(id) {
        if i < |before| {
          assert (before + last)[i] == before[i];
        }
      }
    }
  }

  /** The replies a caller could see on `topic` once it has subscribed. */
  function RepliesOn(id: string, topic: string, log: seq<Posted>): seq<Envelope> {
    Replies(id, Heard(topic, log))
  }

  lemma RepliesOnPrefix(id: string, topic: string, log: seq<Posted>, k: nat)
    requires k <= |log|
    ensures RepliesOn(id, topic, log) == RepliesOn(id, topic, log[..k]) + RepliesOn(id, topic, log[k..])
  {
    assert log == log[..k] + log[k..];
    CollectAppend(HeardOf(topic), log[..k], log[k..]);
    CollectAppend(ReplyTo(id), Heard(topic, log[..k]), Heard(topic, log[k..]));
  }

  /** The caller's own request is the first thing it hears exactly when the reply topic matches the
      request topic: then every such call answers itself. */
  lemma OwnRequest(id: string, requestTopic: string, replyTopic: string, request: Envelope, later: seq<Posted>)
    requires request.correlationId == Some(id)
    ensures RepliesOn(id, replyTopic, [Posted(requestTopic, request)] + later)
         == (if MatchesTopic(replyTopic, requestTopic) then [request] else []) + RepliesOn(id, replyTopic, later)
  {
    var first := [Posted(requestTopic, request)];
    RepliesOnPrefix(id, replyTopic, first + later, 1);
    assert (first + later)[..1] == first && (first + later)[1..] == later;
    CollectNext(HeardOf(replyTopic), [], first[0]);
    assert [] + first == first;
    CollectNext(ReplyTo(id), [], request);
    assert [] + [request] == [request];
  }

  /** The failing input at its smallest: one topic for both, and the request is its own reply. */
  lemma OneTopicForBoth(id: string, topic: string, sender: string, payload: string)
    ensures var request := Envelope(sender, Some(id), payload);
      RepliesOn(id, topic, [Posted(topic, request)]) == [request]
  {
    var request := Envelope(sender, Some(id), payload);
    OwnRequest(id, topic, topic, request, []);
    assert [Posted(topic, request)] + [] == [Posted(topic, request)];
  }

  /** `reply_envelope`: a reply mirrors the id of what it answers. */
  function ReplyEnvelope(sender: string, to: Envelope, payload: string): (r: Envelope)
    ensures r.correlationId == to.correlationId && r.sender == sender && r.payload == payload
  {
    Envelope(sender, None, payload).(correlationId := to.correlationId)
  }

  /** Between distinct ids nothing is ever mixed up, on whatever topics and logs. */
  lemma NoCrossTalk(a: string, b: string, topicA: string, topicB: string, logA: seq<Posted>, logB: seq<Posted>)
    requires a != b
    ensures forall e :: e in RepliesOn(a, topicA, logA) ==> e !in RepliesOn(b, topicB, logB)
  {
    RepliesCarryId(a, Heard(topicA, logA));
    RepliesCarryId(b, Heard(topicB, logB));
  }

  /** A responder that mirrors the id on a topic the caller listens to is the one that is heard, if
      nobody was faster and the caller does not listen to its own request topic. */
  lemma MirroredReplyIsFirst(id: string, requestTopic: string, replyTopic: string, request: Envelope,
                             quiet: seq<Posted>, answer: Posted, rest: seq<Posted>)
    requires request.correlationId == Some(id) && !MatchesTopic(replyTopic, requestTopic)
    requires RepliesOn(id, replyTopic, quiet) == []
    requires MatchesTopic(replyTopic, answer.topic)
    requires answer.envelope == ReplyEnvelope(answer.envelope.sender, request, answer.envelope.payload)
    ensures var heard := RepliesOn(id, replyTopic, [Posted(requestTopic, request)] + (quiet + ([answer] + rest)));
      heard != [] && heard[0] == answer.envelope
  {
    OwnRequest(id, requestTopic, replyTopic, request, quiet + ([answer] + rest));
    var later := quiet + ([answer] + rest);
    RepliesOnPrefix(id, replyTopic, later, |quiet|);
    assert later[..|quiet|] == quiet && later[|quiet|..] == [answer] + rest;
    OwnRequest(id, answer.topic, replyTopic, answer.envelope, rest);
  }

  /** One wait: the subscription, what it has been asked for, and what it has seen of it. */
  ghost predicate Waiting(s: Subscription, id: string, seen: seq<Envelope>)
    reads s, s.bus
  {
    s.Valid() && seen == RepliesOn(id, s.topic, s.bus.log[s.start..s.cursor])
  }

  /** One turn of a receive loop. */
  method Receive(s: Subscription, id: string, ghost seen: seq<Envelope>) returns (r: Polled)
    requires Waiting(s, id, seen)
    modifies s
    ensures Waiting(s, id, seen + (if r.Item? && r.envelope.correlationId == Some(id) then [r.envelope] else []))
    ensures s.cursor >= old(s.cursor) && (r.Item? ==> s.cursor > old(s.cursor))
    ensures r.Pending? ==> s.cursor == |s.bus.log|
    ensures r.Ended? ==> s.ended
    ensures s.ended && !old(s.ended) ==> |s.bus.log| - s.cursor > CAPACITY
  {
    r := s.Next();
    if r.Item? {
      CollectNext(ReplyTo(id), old(s.delivered), r.envelope);
    }
  }

  method Announce(bus: InProcessBus, s: Subscription, posted: Posted, id: string, ghost seen: seq<Envelope>)
    requires s.bus == bus && Waiting(s, id, seen)
    modifies bus
    ensures Waiting(s, id, seen) && bus.log == old(bus.log) + [posted]
  {
    bus.Publish(posted.topic, posted.envelope);
    s.Undisturbed(old(bus.log));
    assert bus.log[s.start..s.cursor] == old(bus.log)[s.start..s.cursor];
  }

  /** A wait under way: `i` steps of the schedule are over, the replies `seen` so far are all there
      were up to the cursor, and the stream can only have ended after a full ring of messages. */
  ghost predicate Progress(s: Subscription, id: string, seen: seq<Envelope>, base: seq<Posted>, schedule: seq<Step>,
                           i: nat)
    reads s, s.bus
  {
    && i <= |schedule| && Waiting(s, id, seen) && |base| == s.start + 1
    && s.bus.log == base + Posts(schedule[..i])
    && Deadline !in schedule[..i]
    && (s.ended ==> |Posts(schedule[..i])| >= CAPACITY)
  }

  datatype Turned = Reply(envelope: Envelope) | Other | Fired | Closed | Idle

  lemma Bounded(s: Subscription, id: string, seen: seq<Envelope>)
    requires Waiting(s, id, seen)
    ensures s.bus.Valid() && s.start <= s.cursor <= |s.bus.log|
  {
  }

  /** The `select!` of both receive loops. */
  method Select(bus: InProcessBus, s: Subscription, id: string, ghost seen: seq<Envelope>, ghost base: seq<Posted>,
                schedule: seq<Step>, i: nat)
    returns (r: Turned, next: nat)
    requires s.bus == bus && Progress(s, id, seen, base, schedule, i)
    modifies bus, s
    ensures Progress(s, id, if r.Reply? then seen + [r.envelope] else seen, base, schedule, next)
    ensures r.Reply? ==> r.envelope.correlationId == Some(id)
    ensures r.Reply? || r.Other? ==>
      next == i + 1 || (next == i && bus.log == old(bus.log) && old(s.cursor) < s.cursor)
    ensures r.Fired? ==> Deadline in schedule
    ensures r.Closed? ==> s.ended
    ensures r.Idle? ==> next == |schedule| && s.cursor == |bus.log|
  {
    hide Posts, Waiting;
    next := i;
    Bounded(s, id, seen);
    if i < |schedule| {
      PostsNext(schedule, i);
      assert schedule[..i + 1] == schedule[..i] + [schedule[i]];
      if schedule[i].Post? {
        Announce(bus, s, schedule[i].posted, id, seen);
        return Other, i + 1;
      } else if schedule[i].Deadline? {
        return Fired, i;
      }
      next := i + 1;
    }
    assert Posts(schedule[..next]) == Posts(schedule[..i]);
    var polled := Receive(s, id, seen);
    assert seen + [] == seen;
    ghost var mine := polled.Item? && polled.envelope.correlationId == Some(id);
    Bounded(s, id, if mine then seen + [polled.envelope] else seen);
    match polled
    case Item(e) => r := if e.correlationId == Some(id) then Reply(e) else Other;
    case Ended => r := Closed;
    case Pending => r := if i < |schedule| then Other else Idle;
  }

  /** What was seen is where the replies begin, and all of them once the stream is drained. */
  lemma SeenSoFar(s: Subscription, id: string, seen: seq<Envelope>, base: seq<Posted>, schedule: seq<Step>, i: nat)
    requires Progress(s, id, seen, base, schedule, i)
    ensures s.start <= |s.bus.log|
    ensures seen <= RepliesOn(id, s.topic, s.bus.log[s.start..])
    ensures s.cursor == |s.bus.log| ==> seen == RepliesOn(id, s.topic, s.bus.log[s.start..])
    ensures s.ended ==> |Posts(schedule)| >= CAPACITY
  {
    var log, k := s.bus.log[s.start..], s.cursor - s.start;
    assert log[..k] == s.bus.log[s.start..s.cursor];
    assert k == |log| ==> log[..k] == log;
    RepliesOnPrefix(id, s.topic, log, k);
    PostsPrefix(schedule, i);
  }

  method Open(bus: InProcessBus, requestTopic: string, replyTopic: string, request: Envelope, id: string,
              ghost schedule: seq<Step>)
    returns (s: Subscription)
    requires bus.Valid()
    modifies bus
    ensures fresh(s) && s.bus == bus && s.topic == replyTopic && s.start == |old(bus.log)|
    ensures Progress(s, id, [], old(bus.log) + [Posted(requestTopic, request)], schedule, 0)
  {
    s := bus.Subscribe(replyTopic);
    assert bus.log[s.start..s.cursor] == [];
    Announce(bus, s, Posted(requestTopic, request), id, []);
    assert schedule[..0] == [];
  }

  /** The log is what it was, the request, and some of what the others published. */
  ghost predicate Published(before: seq<Posted>, request: Posted, schedule: seq<Step>, after: seq<Posted>) {
    exists n :: 0 <= n <= |schedule| && after == before + [request] + Posts(schedule[..n])
  }

  /** The replies to `request` published since the log read `before`. */
  ghost function RepliesSince(before: seq<Posted>, after: seq<Posted>, topic: string, request: Envelope): seq<Envelope>
    requires request.correlationId.Some? && |before| <= |after|
  {
    RepliesOn(request.correlationId.value, topic, after[|before|..])
  }

  lemma HearsItself(before: seq<Posted>, requestTopic: string, replyTopic: string, request: Envelope,
                    more: seq<Posted>)
    requires request.correlationId.Some?
    ensures MatchesTopic(replyTopic, requestTopic) ==>
      var replies := RepliesSince(before, before + [Posted(requestTopic, request)] + more, replyTopic, request);
      replies != [] && replies[0] == request
  {
    var first := [Posted(requestTopic, request)];
    assert (before + first + more)[|before|..] == first + more;
    OwnRequest(request.correlationId.value, requestTopic, replyTopic, request, more);
  }

  /** Publish a request, wait for the first envelope that carries its id. */
  method Call(bus: InProcessBus, requestTopic: string, replyTopic: string, request: Envelope, schedule: seq<Step>)
    returns (r: Result<Envelope, CorrelatorError>)
    requires bus.Valid()
    modifies bus
    ensures bus.Valid() && |old(bus.log)| <= |bus.log|
    ensures request.correlationId.None? ==> r == Err(Transport) && bus.log == old(bus.log)
    ensures request.correlationId.Some? ==>
      var replies := RepliesSince(old(bus.log), bus.log, replyTopic, request);
      && Published(old(bus.log), Posted(requestTopic, request), schedule, bus.log)
      && (r.Ok? ==> replies != [] && r.value == replies[0])
      && (r == Err(Transport) ==> |Posts(schedule)| >= CAPACITY)
      && (r.Ok? && MatchesTopic(replyTopic, requestTopic) ==> r.value == request)
      && (Deadline !in schedule && |Posts(schedule)| < CAPACITY ==> (r.Ok? <==> replies != []))
    ensures r.Ok? ==> r.value.correlationId == request.correlationId
  {
    hide Waiting, RepliesOn, Posts, MatchesTopic;
    if request.correlationId.None? {
      return Err(Transport);
    }
    var id := request.correlationId.value;
    var stream := Open(bus, requestTopic, replyTopic, request, id, schedule);
    ghost var base := old(bus.log) + [Posted(requestTopic, request)];
    var i := 0;
    Bounded(stream, id, []);
    while true
      invariant stream.bus == bus && stream.topic == replyTopic && stream.start == |old(bus.log)|
      invariant bus.Valid() && Progress(stream, id, [], base, schedule, i) && stream.cursor <= |bus.log|
      decreases |schedule| - i, |bus.log| - stream.cursor
    {
      var turn, next := Select(bus, stream, id, [], base, schedule, i);
      ghost var seen := if turn.Reply? then [turn.envelope] else [];
      assert [] + seen == seen;
      SeenSoFar(stream, id, seen, base, schedule, next);
      Bounded(stream, id, seen);
      HearsItself(old(bus.log), requestTopic, replyTopic, request, Posts(schedule[..next]));
      match turn
      case Reply(envelope) => return Ok(envelope);
      case Closed => return Err(Transport);
      case Fired => return Err(Timeout);
      case Idle => return Err(Timeout);
      case Other => i := next;
    }
  }

  /** Publish once, collect up to `maxReplies` envelopes that carry the request's id. */
  method ScatterGather(bus: InProcessBus, requestTopic: string, replyTopic: string, request: Envelope,
                       maxReplies: nat, schedule: seq<Step>)
    returns (r: Result<seq<Envelope>, CorrelatorError>)
    requires bus.Valid()
    modifies bus
    ensures bus.Valid() && |old(bus.log)| <= |bus.log|
    ensures maxReplies == 0 ==> r == Ok([]) && bus.log == old(bus.log)
    ensures maxReplies > 0 && request.correlationId.None? ==> r == Err(Transport) && bus.log == old(bus.log)
    ensures maxReplies > 0 && request.correlationId.Some? ==>
      var replies := RepliesSince(old(bus.log), bus.log, replyTopic, request);
      && Published(old(bus.log), Posted(requestTopic, request), schedule, bus.log)
      && r.Ok? && |r.value| <= maxReplies && r.value <= replies
      && (Deadline !in schedule && |Posts(schedule)| < CAPACITY ==> |r.value| == Min(maxReplies, |replies|))
  {
    hide Waiting, RepliesOn, Posts;
    if maxReplies == 0 {
      return Ok([]);
    }
    if request.correlationId.None? {
      return Err(Transport);
    }
    var id := request.correlationId.value;
    var stream := Open(bus, requestTopic, replyTopic, request, id, schedule);
    ghost var base := old(bus.log) + [Posted(requestTopic, request)];
    var collected: seq<Envelope> := [];
    var i := 0;
    Bounded(stream, id, collected);
    while |collected| < maxReplies
      invariant stream.bus == bus && stream.topic == replyTopic && stream.start == |old(bus.log)|
      invariant bus.Valid() && Progress(stream, id, collected, base, schedule, i)
      invariant |collected| <= maxReplies && stream.cursor <= |bus.log|
      decreases |schedule| - i, |bus.log| - stream.cursor
    {
      var turn, next := Select(bus, stream, id, collected, base, schedule, i);
      i := next;
      if turn.Reply? {
        collected := collected + [turn.envelope];
      }
      SeenSoFar(stream, id, collected, base, schedule, i);
      Bounded(stream, id, collected);
      if turn.Closed? || turn.Fired? || turn.Idle? {
        return Ok(collected);
      }
    }
    SeenSoFar(stream, id, collected, base, schedule, i);
    return Ok(collected);
  }
}
