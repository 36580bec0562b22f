/** The runaway guard in front of tool calls: a sliding-window cap for each capability, and a
    count of identical calls in a row. */
module RateGuard {
  import opened Prelude

  type Instant = int      // nanoseconds on the monotonic clock

  const WINDOW := 10_000_000_000
  const RATE_MAX := 120
  const USIZE_MAX := 0xFFFF_FFFF_FFFF_FFFF

  datatype Call = Call(capability: string, fingerprint: int, at: Instant)

  datatype Decision = Decision(consecutive: nat, rateLimited: Option<nat>)

  // ---- What has been admitted ---------------------------------------------------------------

  function InstantFor(capability: string): Call -> seq<Instant> {
    (call: Call) => if call.capability == capability then [call.at] else []
  }

  /** The instants of one capability's calls. */
  function Times(calls: seq<Call>, capability: string): seq<Instant> { Collect(InstantFor(capability), calls) }

  function Count(times: seq<Instant>, from: Instant, to: Instant): nat {
    if times == [] then 0
    else Count(times[..|times| - 1], from, to) + (if from <= times[|times| - 1] <= to then 1 else 0)
  }

  ghost predicate Ascending(times: seq<Instant>) {
    forall i, j :: 0 <= i < j < |times| ==> times[i] <= times[j]
  }

  /** Any call and the one RATE_MAX later are further apart than the window. */
  ghost predicate Spaced(times: seq<Instant>) {
    forall i :: 0 <= i < |times| - RATE_MAX ==> times[i + RATE_MAX] - times[i] > WINDOW
  }

  lemma {:induction false} CountAtMost(times: seq<Instant>, m: nat, from: Instant, to: Instant)
    requires m <= |times|
    ensures Count(times, from, to) <= Count(times[..m], from, to) + (|times| - m)
    decreases |times|
  {
    if m == |times| {
      assert times[..m] == times;
    } else {
      assert times[..|times| - 1][..m] == times[..m];
      CountAtMost(times[..|times| - 1], m, from, to);
    }
  }

  lemma {:induction false} CountNone(times: seq<Instant>, from: Instant, to: Instant)
    requires forall i :: 0 <= i < |times| ==> times[i] < from
    ensures Count(times, from, to) == 0
    decreases |times|
  {
    if times != [] {
      CountNone(times[..|times| - 1], from, to);
    }
  }

  lemma {:induction false} CountSuffix(times: seq<Instant>, k: nat, from: Instant, to: Instant)
    requires k <= |times|
    requires forall i :: 0 <= i < k ==> times[i] < from
    requires forall i :: k <= i < |times| ==> from <= times[i] <= to
    ensures Count(times, from, to) == |times| - k
    decreases |times|
  {
    if k == |times| {
      CountNone(times, from, to);
    } else {
      CountSuffix(times[..|times| - 1], k, from, to);
    }
  }

  /** The sliding-window bound: no closed interval as long as the window holds more than RATE_MAX
      admitted calls, wherever it starts. */
  lemma {:induction false} WindowBound(times: seq<Instant>, from: Instant, to: Instant)
    requires Ascending(times) && Spaced(times) && to - from <= WINDOW
    ensures Count(times, from, to) <= RATE_MAX
    decreases |times|
  {
    var n := |times|;
    if n <= RATE_MAX {
      CountAtMost(times, 0, from, to);
      assert times[..0] == [];
    } else if times[n - 1] > to {
      WindowBound(times[..n - 1], from, to);
    } else {
      var m := n - RATE_MAX;
      assert times[m - 1 + RATE_MAX] - times[m - 1] > WINDOW;
      CountNone(times[..m], from, to);
      CountAtMost(times, m, from, to);
    }
  }

  // ---- Identical calls in a row ----------------------------------------------------------------

  /** How many calls at the end share the last one's fingerprint. */
  function Run(calls: seq<Call>): nat {
    var n := |calls|;
    if n <= 1 then n
    else if calls[n - 2].fingerprint == calls[n - 1].fingerprint then Run(calls[..n - 1]) + 1
    else 1
  }

  lemma {:induction false} RunIsLongestSuffix(calls: seq<Call>)
    requires calls != []
    ensures var r, n := Run(calls), |calls|;
      && 1 <= r <= n
      && (forall i :: n - r <= i < n ==> calls[i].fingerprint == calls[n - 1].fingerprint)
      && (r < n ==> calls[n - r - 1].fingerprint != calls[n - 1].fingerprint)
    decreases |calls|
  {
    if |calls| > 1 {
      RunIsLongestSuffix(calls[..|calls| - 1]);
    }
  }

  // ---- The guard ---------------------------------------------------------------------------

  function Recent(recent: map<string, seq<Instant>>, capability: string): seq<Instant> {
    if capability in recent then recent[capability] else []
  }

  /** `window` is the end of `times`; what came before it has left the rate window by `clock`. */
  ghost predicate Kept(window: seq<Instant>, times: seq<Instant>, clock: Instant) {
    && |window| <= |times| && window == times[|times| - |window|..]
    && (forall i :: 0 <= i < |times| - |window| ==> clock - times[i] > WINDOW)
  }

  ghost predicate Paced(times: seq<Instant>, clock: Instant) {
    Ascending(times) && Spaced(times) && (times != [] ==> times[|times| - 1] <= clock)
  }

  /** Drops what the window has left behind. */
  method Prune(window: seq<Instant>, now: Instant, ghost times: seq<Instant>, ghost clock: Instant)
    returns (r: seq<Instant>)
    requires Kept(window, times, clock) && Paced(times, clock) && clock <= now
    ensures Kept(r, times, now)
    ensures |r| == Count(times, now - WINDOW, now) <= RATE_MAX
  {
    r := window;
    while r != [] && now - r[0] > WINDOW
      invariant Kept(r, times, now)
    {
      r := r[1..];
    }
    var k := |times| - |r|;
    assert forall i :: k <= i < |times| ==> times[k] <= times[i];
    assert k < |times| ==> times[k] == r[0];
    CountSuffix(times, k, now - WINDOW, now);
    WindowBound(times, now - WINDOW, now);
  }

  lemma AdmitPaced(times: seq<Instant>, clock: Instant, now: Instant)
    requires Paced(times, clock) && clock <= now
    requires Count(times, now - WINDOW, now) < RATE_MAX
    ensures Paced(times + [now], now)
  {
    var n := |times|;
    if n >= RATE_MAX && now - times[n - RATE_MAX] <= WINDOW {
      assert forall i :: n - RATE_MAX <= i < n ==> times[n - RATE_MAX] <= times[i] <= times[n - 1];
      CountInside(times, n - RATE_MAX, now - WINDOW, now);
    }
  }

  lemma {:induction false} CountInside(times: seq<Instant>, k: nat, from: Instant, to: Instant)
    requires k <= |times|
    requires forall i :: k <= i < |times| ==> from <= times[i] <= to
    ensures Count(times, from, to) >= |times| - k
    decreases |times|
  {
    if k < |times| {
      CountInside(times[..|times| - 1], k, from, to);
    }
  }

  lemma Later(window: seq<Instant>, times: seq<Instant>, clock: Instant, now: Instant)
    requires Kept(window, times, clock) && Paced(times, clock) && clock <= now
    ensures Kept(window, times, now) && Paced(times, now)
  {
  }

  ghost predicate CapKept(recent: map<string, seq<Instant>>, admitted: seq<Call>, clock: Instant, c: string) {
    Kept(Recent(recent, c), Times(admitted, c), clock) && Paced(Times(admitted, c), clock)
  }

  ghost predicate AllKept(recent: map<string, seq<Instant>>, admitted: seq<Call>, clock: Instant) {
    forall c :: CapKept(recent, admitted, clock, c)
  }

  lemma CapabilityKept(recent: map<string, seq<Instant>>, admitted: seq<Call>, clock: Instant, c: string)
    requires AllKept(recent, admitted, clock)
    ensures Kept(Recent(recent, c), Times(admitted, c), clock) && Paced(Times(admitted, c), clock)
  {
    assert CapKept(recent, admitted, clock, c);
  }

  lemma Rejected(recent: map<string, seq<Instant>>, admitted: seq<Call>, clock: Instant, now: Instant,
                 capability: string, window: seq<Instant>)
    requires AllKept(recent, admitted, clock) && clock <= now
    requires Kept(window, Times(admitted, capability), now)
    ensures AllKept(recent[capability := window], admitted, now)
  {
    hide Kept, Paced;
    var after := recent[capability := window];
    forall c ensures CapKept(after, admitted, now, c) {
      CapabilityKept(recent, admitted, clock, c);
      Later(Recent(recent, c), Times(admitted, c), clock, now);
    }
  }

  lemma WindowGrows(window: seq<Instant>, times: seq<Instant>, now: Instant)
    requires Kept(window, times, now)
    ensures Kept(window + [now], times + [now], now)
  {
  }

  lemma Admitted(recent: map<string, seq<Instant>>, admitted: seq<Call>, clock: Instant, call: Call,
                 window: seq<Instant>)
    requires AllKept(recent, admitted, clock) && clock <= call.at
    requires Kept(window, Times(admitted, call.capability), call.at)
    requires Count(Times(admitted, call.capability), call.at - WINDOW, call.at) < RATE_MAX
    ensures AllKept(recent[call.capability := window + [call.at]], admitted + [call], call.at)
  {
    hide Kept, Paced, Count;
    var now := call.at;
    assert (admitted + [call])[..|admitted|] == admitted;
    var after, more := recent[call.capability := window + [now]], admitted + [call];
    forall c ensures CapKept(after, more, now, c) {
      CapabilityKept(recent, admitted, clock, c);
      if c == call.capability {
        AdmitPaced(Times(admitted, c), clock, now);
        WindowGrows(window, Times(admitted, c), now);
      } else {
        Later(Recent(recent, c), Times(admitted, c), clock, now);
        assert Times(admitted + [call], c) == Times(admitted, c);
      }
    }
  }

  lemma RunNext(calls: seq<Call>, call: Call)
    ensures Run(calls + [call])
         == if calls != [] && calls[|calls| - 1].fingerprint == call.fingerprint then Run(calls) + 1 else 1
  {
    assert (calls + [call])[..|calls|] == calls;
  }

  class ToolCallGuard {
    var recent: map<string, seq<Instant>>
    var lastFingerprint: Option<int>
    var consecutive: nat
    ghost var admitted: seq<Call>
    ghost var clock: Instant

    ghost predicate Valid()
      reads this
    {
      AllKept(recent, admitted, clock) && Counted()
    }

    ghost predicate Counted()
      reads `admitted, `consecutive, `lastFingerprint
    {
      && consecutive == Min(USIZE_MAX, Run(admitted))
      && lastFingerprint == (if admitted == [] then None else Some(admitted[|admitted| - 1].fingerprint))
    }

    constructor (ghost start: Instant)
      ensures Valid() && admitted == [] && clock == start
    {
      recent, lastFingerprint, consecutive := map[], None, 0;
      admitted, clock := [], start;
    }

    method CountIdentical(call: Call)
      requires Counted()
      modifies `lastFingerprint, `consecutive
      ensures consecutive == Min(USIZE_MAX, Run(admitted + [call]))
      ensures lastFingerprint == Some(call.fingerprint)
    {
      hide Run;
      RunNext(admitted, call);
      if lastFingerprint == Some(call.fingerprint) {
        consecutive := Min(USIZE_MAX, consecutive + 1);
      } else {
        lastFingerprint := Some(call.fingerprint);
        consecutive := 1;
      }
    }

    method Pruned(capability: string, now: Instant) returns (window: seq<Instant>)
      requires Valid() && clock <= now
      ensures Kept(window, Times(admitted, capability), now)
      ensures |window| == Count(Times(admitted, capability), now - WINDOW, now) <= RATE_MAX
    {
      hide AllKept, Kept, Paced, Times, Count;
      CapabilityKept(recent, admitted, clock, capability);
      window := Prune(Recent(recent, capability), now, Times(admitted, capability), clock);
    }

    method Reject(capability: string, window: seq<Instant>, now: Instant)
      requires Valid() && clock <= now && Kept(window, Times(admitted, capability), now)
      modifies `recent, `clock
      ensures Valid() && clock == now
    {
      hide AllKept, Kept, Times;
      Rejected(recent, admitted, clock, now, capability, window);
      recent := recent[capability := window];
      clock := now;
    }

    method Admit(call: Call, window: seq<Instant>)
      requires Valid() && clock <= call.at
      requires Kept(window, Times(admitted, call.capability), call.at)
      requires Count(Times(admitted, call.capability), call.at - WINDOW, call.at) < RATE_MAX
      modifies this
      ensures Valid() && clock == call.at && admitted == old(admitted) + [call]
    {
      hide AllKept, Kept, Times, Count, Run;
      Admitted(recent, admitted, clock, call, window);
      recent := recent[call.capability := window + [call.at]];
      CountIdentical(call);
      admitted, clock := admitted + [call], call.at;
    }

    /** Consults the guard for one call, made at `now`; the clock never runs backwards. A call is
        turned away exactly when RATE_MAX admitted ones lie in the closed window before it, and then
        nothing but the pruning happens. */
    method Observe(capability: string, fingerprint: int, now: Instant) returns (r: Decision)
      requires Valid() && clock <= now
      modifies this
      ensures Valid() && clock == now
      ensures var inWindow := Count(Times(old(admitted), capability), now - WINDOW, now);
        && inWindow <= RATE_MAX
        && r.rateLimited == (if inWindow == RATE_MAX then Some(RATE_MAX) else None)
      ensures r.rateLimited.Some? ==> admitted == old(admitted) && r.consecutive == 0
      ensures r.rateLimited.None? ==>
        && admitted == old(admitted) + [Call(capability, fingerprint, now)]
        && r.consecutive == Min(USIZE_MAX, Run(admitted))
    {
      hide AllKept, Kept, Times, Count, Run;
      var window := Pruned(capability, now);
      if |window| >= RATE_MAX {
        Reject(capability, window, now);
        return Decision(0, Some(|window|));
      }
      Admit(Call(capability, fingerprint, now), window);
      return Decision(consecutive, None);
    }

    /** In every reachable state, for every capability and every interval. */
    lemma NeverMoreThanTheCap(capability: string, from: Instant, to: Instant)
      requires Valid() && to - from <= WINDOW
      ensures Count(Times(admitted, capability), from, to) <= RATE_MAX
    {
      CapabilityKept(recent, admitted, clock, capability);
      WindowBound(Times(admitted, capability), from, to);
    }
  }
}
