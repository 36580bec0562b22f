/** Which tools the model is told about, and which of them a call can reach. */
module ToolLanes {
  import opened Prelude
  import opened Sorting

  // ---- Lanes and dotted names ----------------------------------------------------------------

  /** `"a.b.c"` as its dotted segments; the empty name is one empty segment. */
  function Segments(name: string): (r: seq<string>)
    ensures r != []
  {
    if name == "" then [""]
    else
      var n := |name| - 1;
      var before := Segments(name[..n]);
      if name[n] == '.' then before + [""]
      else before[|before| - 1 := before[|before| - 1] + [name[n]]]
  }

  lemma {:induction false} JoinSegments(name: string)
    ensures Join(Segments(name), ".") == name
    decreases |name|
  {
    if name != "" {
      var n := |name| - 1;
      JoinSegments(name[..n]);
      if name[n] == '.' {
        JoinSnoc(Segments(name[..n]), "", ".");
      } else {
        JoinGrows(Segments(name[..n]), name[n], ".");
      }
      assert name == name[..n] + [name[n]];
    }
  }

  lemma {:induction false} SegmentsAfterDot(a: string, b: string)
    ensures Segments(a + "." + b) == Segments(a) + Segments(b)
    decreases |b|
  {
    var whole := a + "." + b;
    var n := |whole| - 1;
    if b == "" {
      assert whole[..n] == a && whole[n] == '.';
    } else {
      SegmentsAfterDot(a, b[..|b| - 1]);
      assert whole[..n] == a + "." + b[..|b| - 1] && whole[n] == b[|b| - 1];
    }
  }

  /** A lane without its trailing dot, if it ends in one. */
  function LaneName(lane: string): string {
    if lane != "" && lane[|lane| - 1] == '.' then lane[..|lane| - 1] else lane
  }

  predicate InLane(capability: string, lane: string) {
    if lane != "" && lane[|lane| - 1] == '.'
    then capability == lane[..|lane| - 1] || StartsWith(capability, lane)
    else capability == lane || StartsWith(capability, lane + ".")
  }

  predicate InLanes(capability: string, lanes: seq<string>) {
    exists i :: 0 <= i < |lanes| && InLane(capability, lanes[i])
  }

  lemma NameOrBelow(capability: string, name: string)
    ensures capability == name || StartsWith(capability, name + ".") <==> Segments(name) <= Segments(capability)
  {
    var s, c := Segments(name), Segments(capability);
    if StartsWith(capability, name + ".") {
      var rest := capability[|name| + 1..];
      assert capability == name + "." + rest;
      SegmentsAfterDot(name, rest);
    }
    if s <= c && s != c {
      var rest := c[|s|..];
      assert c == s + rest;
      JoinSegments(name);
      JoinSegments(capability);
      JoinAppend(s, rest, ".");
      assert capability == name + "." + Join(rest, ".");
    } else if s == c {
      JoinSegments(name);
      JoinSegments(capability);
    }
  }

  /** A capability is in one of the lanes exactly when some lane, less one trailing dot, names the
      beginning of its dotted path. */
  lemma InLanesIsSegmentPrefix(capability: string, lanes: seq<string>)
    ensures InLanes(capability, lanes)
       <==> exists i :: 0 <= i < |lanes| && Segments(LaneName(lanes[i])) <= Segments(capability)
  {
    forall i | 0 <= i < |lanes|
      ensures InLane(capability, lanes[i]) <==> Segments(LaneName(lanes[i])) <= Segments(capability)
    {
      var lane := lanes[i];
      if lane != "" && lane[|lane| - 1] == '.' {
        assert lane[..|lane| - 1] + "." == lane;
      }
      NameOrBelow(capability, LaneName(lane));
    }
  }

  // ---- The gateway's allow list -----------------------------------------------------------------

  const ASSISTANT_PREFIX := "assistant."

  const RESERVED_FROM_ASSISTANT: seq<string> := [
    ASSISTANT_PREFIX, "cloud.openai.", "cloud.anthropic.", "cloud.rest.", "cloud.credentials.upsert",
    "cloud.credentials.delete", "runtime.update", "review.", "self_heal.pin", "self_heal.forget", "self_heal.replay"]

  predicate AnyPrefix(capability: string, prefixes: seq<string>) {
    exists i :: 0 <= i < |prefixes| && StartsWith(capability, prefixes[i])
  }

  predicate IsAllowed(capability: string, allowedLanes: seq<string>) {
    !AnyPrefix(capability, RESERVED_FROM_ASSISTANT) && AnyPrefix(capability, allowedLanes)
  }

  lemma AssistantIsReserved(capability: string, allowedLanes: seq<string>)
    requires StartsWith(capability, ASSISTANT_PREFIX)
    ensures !IsAllowed(capability, allowedLanes)
  {
    assert RESERVED_FROM_ASSISTANT[0] == ASSISTANT_PREFIX;
  }

  // ---- The inventory -------------------------------------------------------------------------

  datatype Descriptor = Descriptor(capability: string, provider: string, description: string)

  const BY_CAPABILITY: (Descriptor, Descriptor) -> bool :=
    (a: Descriptor, b: Descriptor) => StringLe(a.capability, b.capability)

  /** `dedup_by`: of neighbours with the same capability, the first stays. */
  function Dedup(s: seq<Descriptor>): seq<Descriptor> {
    if |s| <= 1 then s
    else
      var rest := Dedup(s[..|s| - 1]);
      if s[|s| - 2].capability == s[|s| - 1].capability then rest else rest + [s[|s| - 1]]
  }

  /** The first descriptor that was announced for a capability. */
  function FirstFor(s: seq<Descriptor>, capability: string): Option<Descriptor> {
    if s == [] then None
    else if s[0].capability == capability then Some(s[0])
    else FirstFor(s[1..], capability)
  }

  lemma CapabilityOrder()
    ensures TotalPreorder(BY_CAPABILITY)
  {
    forall a, b ensures BY_CAPABILITY(a, b) || BY_CAPABILITY(b, a) {
      StringTotal(a.capability, b.capability);
    }
    forall a, b, c | BY_CAPABILITY(a, b) && BY_CAPABILITY(b, c) ensures BY_CAPABILITY(a, c) {
      StringTransitive(a.capability, b.capability, c.capability);
    }
  }

  lemma {:induction false} InsertKeepsFirst(x: Descriptor, s: seq<Descriptor>, capability: string)
    ensures FirstFor(Insert(BY_CAPABILITY, x, s), capability)
         == if x.capability == capability then Some(x) else FirstFor(s, capability)
  {
    if s != [] {
      if BY_CAPABILITY(x, s[0]) {
        assert ([x] + s)[1..] == s;
      } else {
        StringTotal(x.capability, x.capability);
        InsertKeepsFirst(x, s[1..], capability);
        assert ([s[0]] + Insert(BY_CAPABILITY, x, s[1..]))[1..] == Insert(BY_CAPABILITY, x, s[1..]);
      }
    } else {
      assert [x][1..] == [];
    }
  }

  /** The sort is stable: the first announcement of a capability stays the first. */
  lemma {:induction false} SortKeepsFirst(s: seq<Descriptor>, capability: string)
    ensures FirstFor(Sort(BY_CAPABILITY, s), capability) == FirstFor(s, capability)
  {
    if s != [] {
      SortKeepsFirst(s[1..], capability);
      InsertKeepsFirst(s[0], Sort(BY_CAPABILITY, s[1..]), capability);
    }
  }

  lemma {:induction false} FirstForAppend(s: seq<Descriptor>, x: Descriptor, capability: string)
    ensures FirstFor(s + [x], capability)
         == if FirstFor(s, capability).Some? then FirstFor(s, capability)
            else if x.capability == capability then Some(x) else None
  {
    if s != [] {
      assert (s + [x])[1..] == s[1..] + [x];
      FirstForAppend(s[1..], x, capability);
    } else {
      assert ([] + [x])[1..] == [];
    }
  }

  lemma {:induction false} FirstForExists(s: seq<Descriptor>, i: nat)
    requires i < |s|
    ensures FirstFor(s, s[i].capability).Some?
  {
    if i > 0 {
      FirstForExists(s[1..], i - 1);
    }
  }

  lemma {:induction false} DedupKeepsFirst(s: seq<Descriptor>, capability: string)
    ensures FirstFor(Dedup(s), capability) == FirstFor(s, capability)
    decreases |s|
  {
    if |s| > 1 {
      var n := |s| - 1;
      DedupKeepsFirst(s[..n], capability);
      assert s == s[..n] + [s[n]];
      FirstForAppend(s[..n], s[n], capability);
      FirstForAppend(Dedup(s[..n]), s[n], capability);
      FirstForExists(s[..n], n - 1);
    }
  }

  ghost predicate StrictlyAscending(s: seq<Descriptor>) {
    forall i, j :: 0 <= i < j < |s| ==> BY_CAPABILITY(s[i], s[j]) && s[i].capability != s[j].capability
  }

  lemma {:induction false} DedupAscends(s: seq<Descriptor>)
    requires Sorted(BY_CAPABILITY, s)
    ensures StrictlyAscending(Dedup(s))
    ensures s != [] ==> Dedup(s) != [] && Dedup(s)[|Dedup(s)| - 1].capability == s[|s| - 1].capability
    decreases |s|
  {
    if |s| > 1 {
      var n := |s| - 1;
      var rest := Dedup(s[..n]);
      DedupAscends(s[..n]);
      if s[n - 1].capability != s[n].capability {
        forall i | 0 <= i < |rest| ensures BY_CAPABILITY(rest[i], s[n]) && rest[i].capability != s[n].capability {
          BelowLast(rest, i, s[n - 1], s[n]);
        }
      }
    }
  }

  lemma BelowLast(rest: seq<Descriptor>, i: nat, last: Descriptor, next: Descriptor)
    requires StrictlyAscending(rest) && i < |rest| && rest[|rest| - 1].capability == last.capability
    requires BY_CAPABILITY(last, next) && last.capability != next.capability
    ensures BY_CAPABILITY(rest[i], next) && rest[i].capability != next.capability
  {
    StringTotal(rest[i].capability, rest[i].capability);
    assert i < |rest| - 1 ==> BY_CAPABILITY(rest[i], rest[|rest| - 1]);
    StringTransitive(rest[i].capability, last.capability, next.capability);
    if rest[i].capability == next.capability {
      StringAntisymmetric(last.capability, next.capability);
    }
  }

  function IfAllowed(lanes: seq<string>): Descriptor -> seq<Descriptor> {
    (d: Descriptor) => if IsAllowed(d.capability, lanes) then [d] else []
  }

  function Kept(s: seq<Descriptor>, lanes: seq<string>): seq<Descriptor> { Collect(IfAllowed(lanes), s) }

  lemma {:induction false} KeptMembers(s: seq<Descriptor>, lanes: seq<string>)
    ensures forall d :: d in Kept(s, lanes) <==> d in s && IsAllowed(d.capability, lanes)
    decreases |s|
  {
    if s != [] {
      hide IsAllowed;
      KeptMembers(s[..|s| - 1], lanes);
      assert s == s[..|s| - 1] + [s[|s| - 1]];
    }
  }

  lemma {:induction false} KeptAscends(s: seq<Descriptor>, lanes: seq<string>)
    requires StrictlyAscending(s)
    ensures StrictlyAscending(Kept(s, lanes))
    decreases |s|
  {
    if s != [] {
      hide IsAllowed;
      var n := |s| - 1;
      var rest := Kept(s[..n], lanes);
      KeptAscends(s[..n], lanes);
      KeptMembers(s[..n], lanes);
      forall i | 0 <= i < |rest| ensures BY_CAPABILITY(rest[i], s[n]) && rest[i].capability != s[n].capability {
        assert rest[i] in s[..n];
        var k :| 0 <= k < n && s[k] == rest[i];
      }
    }
  }

  lemma {:induction false} AscendingFirst(s: seq<Descriptor>, d: Descriptor)
    requires StrictlyAscending(s)
    ensures d in s <==> FirstFor(s, d.capability) == Some(d)
  {
    if s != [] {
      AscendingFirst(s[1..], d);
      assert s == [s[0]] + s[1..];
      if d in s[1..] {
        var i :| 0 <= i < |s[1..]| && s[1..][i] == d;
        assert s[0].capability != s[i + 1].capability;
      }
    }
  }

  /** Something heard on the inventory topic; `snapshot` is none for any other message. */
  datatype Heard = Heard(correlationId: Option<string>, snapshot: Option<seq<Descriptor>>)

  function SnapshotFor(id: string): Heard -> seq<Descriptor> {
    (h: Heard) => if h.correlationId == Some(id) && h.snapshot.Some? then h.snapshot.value else []
  }

  /** Everything announced in answer to the request `id`, in order of arrival. */
  function Announced(id: string, heard: seq<Heard>): seq<Descriptor> { Collect(SnapshotFor(id), heard) }

  /** Only answers to this request count, and all of them do. */
  lemma {:induction false} AnnouncedExactly(id: string, heard: seq<Heard>, d: Descriptor)
    ensures d in Announced(id, heard) <==>
      exists h :: h in heard && h.correlationId == Some(id) && h.snapshot.Some? && d in h.snapshot.value
    decreases |heard|
  {
    if heard != [] {
      var n := |heard| - 1;
      AnnouncedExactly(id, heard[..n], d);
      assert forall h :: h in heard <==> h in heard[..n] || h == heard[n];
    }
  }

  /** Collects what is heard within the time window, skips what belongs to other requests, then sorts,
      dedups and filters. What comes out is strictly ascending, and holds exactly the first
      announcement of every allowed capability. */
  method AvailableTools(id: string, heard: seq<Heard>, lanes: seq<string>) returns (r: seq<Descriptor>)
    ensures StrictlyAscending(r)
    ensures forall d :: d in r <==>
      FirstFor(Announced(id, heard), d.capability) == Some(d) && IsAllowed(d.capability, lanes)
  {
    hide IsAllowed;
    var descriptors: seq<Descriptor> := [];
    var i := 0;
    while i < |heard|
      invariant 0 <= i <= |heard|
      invariant descriptors == Announced(id, heard[..i])
    {
      assert heard[..i + 1][..i] == heard[..i];
      var event := heard[i];
      i := i + 1;
      if event.correlationId != Some(id) {
        continue;
      }
      if event.snapshot.Some? {
        descriptors := descriptors + event.snapshot.value;
      }
    }
    assert heard[..i] == heard;
    CapabilityOrder();
    var sorted := Sort(BY_CAPABILITY, descriptors);
    SortSorts(BY_CAPABILITY, descriptors);
    var distinct := Dedup(sorted);
    DedupAscends(sorted);
    KeptAscends(distinct, lanes);
    KeptMembers(distinct, lanes);
    r := Kept(distinct, lanes);
    forall d ensures d in r <==> FirstFor(descriptors, d.capability) == Some(d) && IsAllowed(d.capability, lanes) {
      AscendingFirst(distinct, d);
      DedupKeepsFirst(sorted, d.capability);
      SortKeepsFirst(descriptors, d.capability);
    }
  }

  // ---- The schema and the dispatch -----------------------------------------------------------------

  datatype Mode = Mode(allowedToolLanes: seq<string>, blockedToolCapabilities: seq<string>) {
    predicate Allows(capability: string) {
      capability !in blockedToolCapabilities && AnyPrefix(capability, allowedToolLanes)
    }
  }

  const META_TOOLS: seq<string> := [
    "recall_memory", "knowledge_lookup", "parallel_lookup", "list_facts", "remember_fact", "forget_fact",
    "remember_knowledge", "consult_mode_agent"]

  function MetaNames(): seq<string> {
    seq(|META_TOOLS|, i requires 0 <= i < |META_TOOLS| => ASSISTANT_PREFIX + META_TOOLS[i])
  }

  predicate Admitted(capability: string, mode: Option<Mode>, isoLanes: Option<seq<string>>) {
    (mode.Some? ==> mode.value.Allows(capability)) && (isoLanes.Some? ==> InLanes(capability, isoLanes.value))
  }

  function IfAdmitted(mode: Option<Mode>, isoLanes: Option<seq<string>>): Descriptor -> seq<string> {
    (d: Descriptor) => if Admitted(d.capability, mode, isoLanes) then [d.capability] else []
  }

  /** A mode shows what one of its lanes is a prefix of, unless it blocks it by name; the session's lanes
      narrow that further. */
  lemma AdmittedExactly(capability: string, mode: Option<Mode>, isoLanes: Option<seq<string>>)
    ensures Admitted(capability, mode, isoLanes) <==>
      && (mode.Some? ==>
           && capability !in mode.value.blockedToolCapabilities
           && exists lane :: lane in mode.value.allowedToolLanes && StartsWith(capability, lane))
      && (isoLanes.Some? ==> exists lane :: lane in isoLanes.value && InLane(capability, lane))
  {
    hide StartsWith, InLane;
    if mode.Some? && exists lane :: lane in mode.value.allowedToolLanes && StartsWith(capability, lane) {
      var lane :| lane in mode.value.allowedToolLanes && StartsWith(capability, lane);
      var i :| 0 <= i < |mode.value.allowedToolLanes| && mode.value.allowedToolLanes[i] == lane;
    }
    if isoLanes.Some? && exists lane :: lane in isoLanes.value && InLane(capability, lane) {
      var lane :| lane in isoLanes.value && InLane(capability, lane);
      var i :| 0 <= i < |isoLanes.value| && isoLanes.value[i] == lane;
    }
  }

  function AdmittedNames(tools: seq<Descriptor>, mode: Option<Mode>, isoLanes: Option<seq<string>>): seq<string> {
    Collect(IfAdmitted(mode, isoLanes), tools)
  }

  /** The names in the schema array, and who provides each bus tool. */
  method BuildToolSchema(tools: seq<Descriptor>, mode: Option<Mode>, isoLanes: Option<seq<string>>)
    returns (names: seq<string>, providers: map<string, string>)
    ensures names == MetaNames() + AdmittedNames(tools, mode, isoLanes)
    ensures forall c :: c in providers <==> c in AdmittedNames(tools, mode, isoLanes)
    ensures StrictlyAscending(tools) ==>
      forall d :: d in tools && d.capability in providers ==> providers[d.capability] == d.provider
  {
    hide Admitted, StrictlyAscending;
    names, providers := MetaNames(), map[];
    var i := 0;
    while i < |tools|
      invariant 0 <= i <= |tools|
      invariant names == MetaNames() + AdmittedNames(tools[..i], mode, isoLanes)
      invariant forall c :: c in providers <==> c in AdmittedNames(tools[..i], mode, isoLanes)
      invariant StrictlyAscending(tools) ==> ProvidersOk(tools, i, providers)
    {
      var d := tools[i];
      assert tools[..i + 1][..i] == tools[..i];
      if Admitted(d.capability, mode, isoLanes) {
        if StrictlyAscending(tools) {
          ProvidersNext(tools, i, providers);
        }
        providers := providers[d.capability := d.provider];
        names := names + [d.capability];
      } else if StrictlyAscending(tools) {
        ProvidersSkip(tools, i, providers, mode, isoLanes);
      }
      i := i + 1;
    }
    assert tools[..i] == tools;
  }

  ghost predicate ProvidersOk(tools: seq<Descriptor>, i: nat, providers: map<string, string>)
    requires i <= |tools|
  {
    forall k :: 0 <= k < i && tools[k].capability in providers ==> providers[tools[k].capability] == tools[k].provider
  }

  lemma ProvidersNext(tools: seq<Descriptor>, i: nat, providers: map<string, string>)
    requires i < |tools| && StrictlyAscending(tools) && ProvidersOk(tools, i, providers)
    ensures ProvidersOk(tools, i + 1, providers[tools[i].capability := tools[i].provider])
  {
  }

  lemma {:induction false} AdmittedFrom(tools: seq<Descriptor>, mode: Option<Mode>, isoLanes: Option<seq<string>>,
                                        c: string)
    ensures c in AdmittedNames(tools, mode, isoLanes) <==>
      Admitted(c, mode, isoLanes) && exists k :: 0 <= k < |tools| && tools[k].capability == c
    decreases |tools|
  {
    if tools != [] {
      hide Admitted;
      AdmittedFrom(tools[..|tools| - 1], mode, isoLanes, c);
      assert forall k :: 0 <= k < |tools| - 1 ==> tools[..|tools| - 1][k] == tools[k];
    }
  }

  lemma ProvidersSkip(tools: seq<Descriptor>, i: nat, providers: map<string, string>, mode: Option<Mode>,
                      isoLanes: Option<seq<string>>)
    requires i < |tools| && ProvidersOk(tools, i, providers) && !Admitted(tools[i].capability, mode, isoLanes)
    requires forall c :: c in providers <==> c in AdmittedNames(tools[..i], mode, isoLanes)
    ensures ProvidersOk(tools, i + 1, providers)
  {
    AdmittedFrom(tools[..i], mode, isoLanes, tools[i].capability);
  }

  /** Where a call by name goes. */
  datatype Route = Meta | OffLane | NoGateway | NotAllowed | Bus

  function RouteOf(capability: string, isoLanes: Option<seq<string>>, gateway: Option<seq<string>>): Route {
    if capability in MetaNames() then Meta
    else if isoLanes.Some? && !InLanes(capability, isoLanes.value) then OffLane
    else if gateway.None? then NoGateway
    else if !IsAllowed(capability, gateway.value) then NotAllowed
    else Bus
  }

  /** A call goes over the bus exactly if it is no meta tool, is on the session's lanes, and the
      gateway's lanes admit it: some lane is a prefix of its name and no reserved name is. */
  lemma BusExactly(capability: string, isoLanes: Option<seq<string>>, gateway: Option<seq<string>>)
    ensures RouteOf(capability, isoLanes, gateway) == Bus <==>
      && capability !in MetaNames()
      && (isoLanes.Some? ==> exists i :: 0 <= i < |isoLanes.value| && InLane(capability, isoLanes.value[i]))
      && gateway.Some?
      && (exists i :: 0 <= i < |gateway.value| && StartsWith(capability, gateway.value[i]))
      && (forall i :: 0 <= i < |RESERVED_FROM_ASSISTANT| ==> !StartsWith(capability, RESERVED_FROM_ASSISTANT[i]))
  {
    hide InLane, StartsWith;
  }

  lemma MetaIsAssistant(name: string)
    requires name in MetaNames()
    ensures StartsWith(name, ASSISTANT_PREFIX)
  {
    var i :| 0 <= i < |MetaNames()| && MetaNames()[i] == name;
    assert name[..|ASSISTANT_PREFIX|] == ASSISTANT_PREFIX;
  }

  lemma MetaDistinct(i: nat, j: nat)
    requires i < j < |META_TOOLS|
    ensures MetaNames()[i] != MetaNames()[j]
  {
    assert META_TOOLS[i] != META_TOOLS[j] by { MetaSuffixDistinct(i, j); }
    assert MetaNames()[i][|ASSISTANT_PREFIX|..] == META_TOOLS[i];
    assert MetaNames()[j][|ASSISTANT_PREFIX|..] == META_TOOLS[j];
  }

  /** Told apart by length, and where the lengths agree by one character. */
  lemma MetaSuffixDistinct(i: nat, j: nat)
    requires i < j < |META_TOOLS|
    ensures META_TOOLS[i] != META_TOOLS[j]
  {
    assert "recall_memory"[2] != "remember_fact"[2];
    assert "remember_knowledge"[0] != "consult_mode_agent"[0];
  }

  ghost predicate NoRepeats(names: seq<string>) {
    forall i, j :: 0 <= i < j < |names| ==> names[i] != names[j]
  }

  lemma {:induction false} AdmittedSubsequence(tools: seq<Descriptor>, mode: Option<Mode>,
                                               isoLanes: Option<seq<string>>)
    requires StrictlyAscending(tools)
    ensures NoRepeats(AdmittedNames(tools, mode, isoLanes))
    decreases |tools|
  {
    if tools != [] {
      hide Admitted;
      var n := |tools| - 1;
      var before := AdmittedNames(tools[..n], mode, isoLanes);
      AdmittedSubsequence(tools[..n], mode, isoLanes);
      AdmittedFrom(tools[..n], mode, isoLanes, tools[n].capability);
      assert forall i :: 0 <= i < |before| ==> before[i] in before;
    }
  }

  /** No two tools in the schema share a name. */
  lemma SchemaNamesDistinct(tools: seq<Descriptor>, lanes: seq<string>, mode: Option<Mode>,
                            isoLanes: Option<seq<string>>)
    requires StrictlyAscending(tools) && forall d :: d in tools ==> IsAllowed(d.capability, lanes)
    ensures NoRepeats(MetaNames() + AdmittedNames(tools, mode, isoLanes))
  {
    var bus := AdmittedNames(tools, mode, isoLanes);
    AdmittedSubsequence(tools, mode, isoLanes);
    forall i, j | 0 <= i < j < |META_TOOLS| ensures MetaNames()[i] != MetaNames()[j] {
      MetaDistinct(i, j);
    }
    forall name | name in MetaNames() ensures name !in bus {
      MetaNotAdmitted(tools, lanes, mode, isoLanes, name);
    }
    NoRepeatsAppend(MetaNames(), bus);
  }

  lemma NoRepeatsAppend(a: seq<string>, b: seq<string>)
    requires NoRepeats(a) && NoRepeats(b) && forall x :: x in a ==> x !in b
    ensures NoRepeats(a + b)
  {
    var whole := a + b;
    forall i, j | 0 <= i < j < |whole| ensures whole[i] != whole[j] {
      if j < |a| {
        assert whole[i] == a[i] && whole[j] == a[j];
      } else if i < |a| {
        assert whole[i] == a[i] && a[i] in a && whole[j] == b[j - |a|] && b[j - |a|] in b;
      } else {
        assert whole[i] == b[i - |a|] && whole[j] == b[j - |a|];
      }
    }
  }

  lemma MetaNotAdmitted(tools: seq<Descriptor>, lanes: seq<string>, mode: Option<Mode>, isoLanes: Option<seq<string>>,
                        name: string)
    requires forall d :: d in tools ==> IsAllowed(d.capability, lanes)
    requires name in MetaNames()
    ensures name !in AdmittedNames(tools, mode, isoLanes)
  {
    hide IsAllowed, Admitted;
    MetaIsAssistant(name);
    AssistantIsReserved(name, lanes);
    AdmittedFrom(tools, mode, isoLanes, name);
  }

  /** Everything advertised can be called: the meta tools locally, every bus tool over the bus. */
  lemma AdvertisedIsReachable(tools: seq<Descriptor>, lanes: seq<string>, mode: Option<Mode>,
                              isoLanes: Option<seq<string>>, name: string)
    requires forall d :: d in tools ==> IsAllowed(d.capability, lanes)
    requires name in MetaNames() + AdmittedNames(tools, mode, isoLanes)
    ensures RouteOf(name, isoLanes, Some(lanes)) == if name in MetaNames() then Meta else Bus
  {
    if name !in MetaNames() {
      hide IsAllowed, InLanes;
      AdmittedFrom(tools, mode, isoLanes, name);
    }
  }

  /** The converse holds only as far as the mode agrees: dispatch checks the lanes again but not the
      mode, so an available tool is callable without being advertised exactly when it is on the
      session's lanes and the mode hides it. */
  lemma HiddenButCallable(tools: seq<Descriptor>, lanes: seq<string>, mode: Option<Mode>,
                          isoLanes: Option<seq<string>>, d: Descriptor)
    requires forall t :: t in tools ==> IsAllowed(t.capability, lanes)
    requires d in tools
    ensures RouteOf(d.capability, isoLanes, Some(lanes)) == Bus
            && d.capability !in AdmittedNames(tools, mode, isoLanes)
       <==> (isoLanes.Some? ==> InLanes(d.capability, isoLanes.value))
            && mode.Some? && !mode.value.Allows(d.capability)
  {
    hide IsAllowed, InLanes;
    AdmittedFrom(tools, mode, isoLanes, d.capability);
    if d.capability in MetaNames() {
      MetaIsAssistant(d.capability);
      AssistantIsReserved(d.capability, lanes);
      assert false;
    }
  }

  /** The failing input at its smallest: a mode that allows nothing hides an allowed tool, and a call by
      name still reaches it. */
  lemma ModeHidesButDoesNotStop()
    ensures var name, lanes := "web.fetch", ["web."];
      var tools := [Descriptor(name, "web", "")];
      && IsAllowed(name, lanes)
      && name !in AdmittedNames(tools, Some(Mode([], [])), None)
      && RouteOf(name, None, Some(lanes)) == Bus
  {
    var name, lanes := "web.fetch", ["web."];
    var d := Descriptor(name, "web", "");
    var tools := [d];
    assert name[0] == 'w' && name[..4] == "web." == lanes[0];
    assert StartsWith(name, lanes[0]);
    assert forall i :: 0 <= i < |RESERVED_FROM_ASSISTANT| ==>
      RESERVED_FROM_ASSISTANT[i] != "" && RESERVED_FROM_ASSISTANT[i][0] in {'a', 'c', 'r', 's'};
    forall i | 0 <= i < |RESERVED_FROM_ASSISTANT| ensures !StartsWith(name, RESERVED_FROM_ASSISTANT[i]) {
      var prefix := RESERVED_FROM_ASSISTANT[i];
      assert |prefix| <= |name| ==> name[..|prefix|][0] == 'w';
    }
    assert IsAllowed(name, lanes);
    hide IsAllowed;
    HiddenButCallable(tools, lanes, Some(Mode([], [])), None, d);
  }
}
