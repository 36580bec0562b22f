/** The in-process bus: a broadcast ring of bounded depth and the streams that read it. */
module Bus {
  import opened Prelude

  datatype Envelope = Envelope(sender: string, correlationId: Option<string>, payload: string)

  datatype Posted = Posted(topic: string, envelope: Envelope)

  const CAPACITY := 1024

  function TrimStars(s: string): string {
    if s != "" && s[|s| - 1] == '*' then TrimStars(s[..|s| - 1]) else s
  }

  predicate EndsWithWildcard(s: string) { |s| >= 2 && s[|s| - 2..] == ".*" }

  predicate MatchesTopic(subscription: string, topic: string) {
    subscription == "*" || subscription == topic
    || (EndsWithWildcard(subscription) && StartsWith(topic, TrimStars(subscription)))
  }

  /** Stripping every trailing star of `p.*` leaves `p.`: the wildcard stands for any text after
      the dot, and a bare `p` is not matched. */
  lemma WildcardMatches(p: string, topic: string)
    ensures MatchesTopic(p + ".*", topic) <==> StartsWith(topic, p + ".")
  {
    var s := p + ".*";
    assert s[..|s| - 1] == p + "." && s[|s| - 2..] == ".*";
    assert TrimStars(s) == TrimStars(p + ".") == p + ".";
    assert topic == s ==> topic[..|p| + 1] == p + ".";
  }

  /** What a subscription matches: `*` every topic, `p.*` the topics below `p`, and any other exactly
      the topic of its name. */
  lemma MatchesExactly(subscription: string, topic: string)
    ensures MatchesTopic("*", topic)
    ensures subscription != "*" ==>
      (MatchesTopic(subscription, topic) <==>
        if EndsWithWildcard(subscription)
        then StartsWith(topic, subscription[..|subscription| - 1]) else topic == subscription)
  {
    if EndsWithWildcard(subscription) {
      var p := subscription[..|subscription| - 2];
      assert subscription == p + ".*" && subscription[..|subscription| - 1] == p + ".";
      WildcardMatches(p, topic);
    }
  }

  function HeardOf(topic: string): Posted -> seq<Envelope> {
    (p: Posted) => if MatchesTopic(topic, p.topic) then [p.envelope] else []
  }

  /** What a subscription hears of a stretch of the publish log. */
  function Heard(topic: string, log: seq<Posted>): seq<Envelope> { Collect(HeardOf(topic), log) }

  class InProcessBus {
    var slots: seq<Posted>         // the ring, oldest message first
    var sent: nat
    ghost var log: seq<Posted>     // every message ever published

    ghost predicate Valid()
      reads this
    {
      && sent == |log|
      && |slots| == Min(CAPACITY, sent)
      && slots == log[sent - |slots|..]
    }

    constructor ()
      ensures Valid() && log == []
    {
      slots, sent, log := [], 0, [];
    }

    method Publish(topic: string, message: Envelope)
      requires Valid()
      modifies this
      ensures Valid()
      ensures log == old(log) + [Posted(topic, message)]
    {
      var p := Posted(topic, message);
      slots := if |slots| < CAPACITY then slots + [p] else slots[1..] + [p];
      sent := sent + 1;
      log := log + [p];
    }

    /** The message at a position that has been published, unless it has left the ring. */
    function Slot(position: nat): (r: Option<Posted>)
      reads this
      requires Valid() && position < sent
      ensures r.None? <==> |log| - position > CAPACITY
      ensures r.Some? ==> r.value == log[position]
    {
      if sent - position > |slots| then None else Some(slots[|slots| - (sent - position)])
    }

    method Subscribe(topic: string) returns (s: Subscription)
      requires Valid()
      ensures fresh(s) && s.Valid() && s.bus == this && s.topic == topic
      ensures s.start == s.cursor == |log| && s.delivered == [] && !s.ended
    {
      s := new Subscription(this, topic);
    }
  }

  datatype Polled = Item(envelope: Envelope) | Pending | Ended

  /** A subscriber's stream. At every moment it has yielded exactly the matching part of one
      contiguous segment of the publish log that begins where it subscribed. */
  class Subscription {
    const bus: InProcessBus
    const topic: string
    ghost const start: nat
    var cursor: nat
    var ended: bool
    ghost var delivered: seq<Envelope>

    ghost predicate Valid()
      reads this, bus
    {
      && bus.Valid()
      && start <= cursor <= |bus.log|
      && delivered == Heard(topic, bus.log[start..cursor])
    }

    constructor (bus: InProcessBus, topic: string)
      requires bus.Valid()
      ensures Valid() && this.bus == bus && this.topic == topic
      ensures start == cursor == |bus.log| && delivered == [] && !ended
    {
      this.bus, this.topic := bus, topic;
      start, cursor, ended, delivered := |bus.log|, bus.sent, false, [];
    }

    /** One poll. A receiver whose next message has left the ring has lagged, which ends the
        stream for good. */
    method Next() returns (r: Polled)
      requires Valid()
      modifies this
      ensures Valid()
      ensures old(cursor) <= cursor && (old(ended) ==> ended && r == Ended && cursor == old(cursor))
      ensures r.Item? ==> !ended && delivered == old(delivered) + [r.envelope] && cursor > old(cursor)
      ensures r.Pending? ==> !ended && delivered == old(delivered) && cursor == |bus.log|
      ensures r.Ended? ==> ended && delivered == old(delivered)
      ensures r.Ended? && !old(ended) ==> |bus.log| - cursor > CAPACITY
    {
      hide MatchesTopic, Collect;
      if ended {
        return Ended;
      }
      while cursor < bus.sent
        invariant Valid() && !ended && old(cursor) <= cursor && delivered == old(delivered)
      {
        var slot := bus.Slot(cursor);
        if slot.None? {
          ended := true;
          return Ended;
        }
        assert bus.log[start..cursor + 1] == bus.log[start..cursor] + [slot.value];
        CollectNext(HeardOf(topic), bus.log[start..cursor], slot.value);
        cursor := cursor + 1;
        if MatchesTopic(topic, slot.value.topic) {
          delivered := delivered + [slot.value.envelope];
          return Item(slot.value.envelope);
        }
      }
      return Pending;
    }

    /** Publishing never disturbs what a subscription has read. */
    lemma Undisturbed(before: seq<Posted>)
      requires bus.Valid() && before <= bus.log
      requires start <= cursor <= |before| && delivered == Heard(topic, before[start..cursor])
      ensures Valid()
    {
      assert bus.log[start..cursor] == before[start..cursor];
    }
  }
}
