/** The provider registry: entries by id, and an index from path to the ids that serve it. */
module Registry {
  import opened Prelude

  type Instant = int     // nanoseconds on the monotonic clock

  const LOOKUP_GRACE := 2_000_000_000

  datatype Entry = Entry(
    providerId: string, servesPaths: seq<string>, metadata: string, lastHeartbeat: Instant, heartbeatInterval: nat)
  {
    /** `duration_since` never goes below zero. */
    predicate IsAlive(now: Instant, grace: nat) {
      (if now < lastHeartbeat then 0 else now - lastHeartbeat) <= heartbeatInterval + grace
    }
  }

  // ---- The naive scan -----------------------------------------------------------------------

  function Occurrences(paths: seq<string>, path: string): nat {
    if paths == [] then 0
    else Occurrences(paths[..|paths| - 1], path) + (if paths[|paths| - 1] == path then 1 else 0)
  }

  /** ... that is, as often as the list has it. */
  lemma {:induction false} OccurrencesCount(paths: seq<string>, path: string)
    ensures Occurrences(paths, path) == multiset(paths)[path]
    decreases |paths|
  {
    if paths != [] {
      var n := |paths| - 1;
      OccurrencesCount(paths[..n], path);
      assert paths == paths[..n] + [paths[n]];
    }
  }

  /** A provider counts as alive from a heartbeat on until its interval and the grace are over, and
      not a moment longer. */
  lemma AliveExactly(e: Entry, now: Instant, grace: nat)
    ensures e.IsAlive(now, grace) <==> now <= e.lastHeartbeat + e.heartbeatInterval + grace
  {
  }

  function Repeat<T>(x: T, n: nat): seq<T> {
    if n == 0 then [] else Repeat(x, n - 1) + [x]
  }

  ghost predicate Known(order: seq<string>, byId: map<string, Entry>) {
    forall i :: 0 <= i < |order| ==> order[i] in byId
  }

  /** The ids that serve `path`: go through the providers in `order`, take each as often as it lists
      the path. */
  ghost function Servers(order: seq<string>, byId: map<string, Entry>, path: string): seq<string>
    requires Known(order, byId)
  {
    if order == [] then []
    else
      var id := order[|order| - 1];
      Servers(order[..|order| - 1], byId, path) + Repeat(id, Occurrences(byId[id].servesPaths, path))
  }

  /** The same scan, for the entries that are alive. */
  ghost function Scan(order: seq<string>, byId: map<string, Entry>, path: string, now: Instant): seq<Entry>
    requires Known(order, byId)
  {
    if order == [] then []
    else
      var e := byId[order[|order| - 1]];
      Scan(order[..|order| - 1], byId, path, now)
      + (if e.IsAlive(now, LOOKUP_GRACE) then Repeat(e, Occurrences(e.servesPaths, path)) else [])
  }

  function Staying(gone: set<string>): string -> seq<string> {
    (id: string) => if id in gone then [] else [id]
  }

  /** The ids that are not `gone`, in order. */
  function Without(ids: seq<string>, gone: set<string>): seq<string> { Collect(Staying(gone), ids) }

  lemma {:induction false} WithoutRepeat(x: string, n: nat, gone: set<string>)
    ensures Without(Repeat(x, n), gone) == if x in gone then [] else Repeat(x, n)
  {
    if n > 0 {
      assert Repeat(x, n)[..|Repeat(x, n)| - 1] == Repeat(x, n - 1);
      WithoutRepeat(x, n - 1, gone);
    }
  }

  lemma {:induction false} WithoutMembers(ids: seq<string>, gone: set<string>)
    ensures forall x :: x in Without(ids, gone) <==> x in ids && x !in gone
    decreases |ids|
  {
    if ids != [] {
      WithoutMembers(ids[..|ids| - 1], gone);
      assert ids == ids[..|ids| - 1] + [ids[|ids| - 1]];
    }
  }

  lemma WithoutAbsent(ids: seq<string>, gone: set<string>)
    requires forall x :: x in ids ==> x !in gone
    ensures Without(ids, gone) == ids
  {
    hide Collect;
    CollectAll(Staying(gone), ids);
  }

  /** One removal after another is one removal of both. */
  lemma {:induction false} WithoutBoth(ids: seq<string>, a: set<string>, b: set<string>)
    ensures Without(Without(ids, a), b) == Without(ids, a + b)
    decreases |ids|
  {
    if ids != [] {
      var n := |ids| - 1;
      WithoutBoth(ids[..n], a, b);
      var rest := Without(ids[..n], a);
      if ids[n] in a {
        assert Without(ids, a) == rest;
      } else {
        assert (rest + [ids[n]])[..|rest|] == rest;
      }
    }
  }

  predicate Distinct(ids: seq<string>) {
    forall i, j :: 0 <= i < j < |ids| ==> ids[i] != ids[j]
  }

  lemma {:induction false} WithoutDistinct(ids: seq<string>, gone: set<string>)
    requires Distinct(ids)
    ensures Distinct(Without(ids, gone))
    decreases |ids|
  {
    if ids != [] {
      var n := |ids| - 1;
      var rest := Without(ids[..n], gone);
      WithoutDistinct(ids[..n], gone);
      WithoutMembers(ids[..n], gone);
      forall i | 0 <= i < |rest| ensures rest[i] != ids[n] {
        assert rest[i] in ids[..n];
      }
    }
  }

  lemma {:induction false} WithoutFrame(order: seq<string>, id: string, byId: map<string, Entry>)
    requires Known(order, byId)
    ensures Known(Without(order, {id}), byId - {id})
    decreases |order|
  {
    WithoutMembers(order, {id});
    forall i | 0 <= i < |Without(order, {id})| ensures Without(order, {id})[i] in byId - {id} {
      assert Without(order, {id})[i] in Without(order, {id});
    }
  }

  /** Forgetting a provider takes its id out of every bucket and changes nothing else. */
  lemma {:induction false} ServersWithout(order: seq<string>, byId: map<string, Entry>, path: string, id: string)
    requires Known(order, byId)
    ensures Known(Without(order, {id}), byId - {id})
    ensures Servers(Without(order, {id}), byId - {id}, path) == Without(Servers(order, byId, path), {id})
    decreases |order|
  {
    WithoutFrame(order, id, byId);
    if order != [] {
      var n := |order| - 1;
      var last := order[n];
      ServersWithout(order[..n], byId, path, id);
      var times := Occurrences(byId[last].servesPaths, path);
      CollectAppend(Staying({id}), Servers(order[..n], byId, path), Repeat(last, times));
      WithoutRepeat(last, times, {id});
      if last != id {
        assert Without(order, {id})[..|Without(order, {id})| - 1] == Without(order[..n], {id});
      } else {
        assert Without(order, {id}) == Without(order[..n], {id});
      }
    }
  }

  lemma {:induction false} RepeatMembers<T>(x: T, n: nat)
    ensures |Repeat(x, n)| == n && forall i :: 0 <= i < n ==> Repeat(x, n)[i] == x
  {
    if n > 0 {
      RepeatMembers(x, n - 1);
    }
  }

  lemma {:induction false} OccurrencesOf(paths: seq<string>, path: string)
    ensures Occurrences(paths, path) == 0 <==> path !in paths
    decreases |paths|
  {
    if paths != [] {
      OccurrencesOf(paths[..|paths| - 1], path);
      assert paths == paths[..|paths| - 1] + [paths[|paths| - 1]];
    }
  }

  lemma RepeatHas<T>(x: T, n: nat, y: T)
    ensures y in Repeat(x, n) <==> y == x && n > 0
  {
    RepeatMembers(x, n);
    if n > 0 {
      assert Repeat(x, n)[0] == x;
    }
  }

  lemma {:induction false} ServersMembers(order: seq<string>, byId: map<string, Entry>, path: string, id: string)
    requires Known(order, byId)
    ensures id in Servers(order, byId, path) <==> id in order && path in byId[id].servesPaths
    decreases |order|
  {
    if order != [] {
      var n := |order| - 1;
      assert order == order[..n] + [order[n]];
      ServersMembers(order[..n], byId, path, id);
      RepeatHas(order[n], Occurrences(byId[order[n]].servesPaths, path), id);
      OccurrencesOf(byId[order[n]].servesPaths, path);
    }
  }

  /** The scan depends on what the listed providers serve, and on nothing else. */
  lemma {:induction false} ServersFrame(order: seq<string>, a: map<string, Entry>, b: map<string, Entry>, path: string)
    requires Known(order, a) && Known(order, b)
    requires forall i :: 0 <= i < |order| ==> a[order[i]].servesPaths == b[order[i]].servesPaths
    ensures Servers(order, a, path) == Servers(order, b, path)
    decreases |order|
  {
    if order != [] {
      ServersFrame(order[..|order| - 1], a, b, path);
    }
  }

  // ---- The index ------------------------------------------------------------------------------

  type Index = map<string, seq<string>>

  function Bucket(index: Index, path: string): seq<string> {
    if path in index then index[path] else []
  }

  ghost predicate NoEmptyBucket(index: Index) {
    forall path :: path in index ==> index[path] != []
  }

  function PurgeOne(index: Index, path: string, id: string): Index {
    if path !in index then index
    else
      var bucket := Without(index[path], {id});
      if bucket == [] then index - {path} else index[path := bucket]
  }

  ghost predicate Purged(before: Index, after: Index, id: string, paths: seq<string>) {
    && (NoEmptyBucket(before) ==> NoEmptyBucket(after))
    && (forall path :: Bucket(after, path) == PurgedBucket(before, id, paths, path))
  }

  ghost function PurgedBucket(before: Index, id: string, paths: seq<string>, path: string): seq<string> {
    if path in paths then Without(Bucket(before, path), {id}) else Bucket(before, path)
  }

  lemma PurgeNext(before: Index, after: Index, id: string, done: seq<string>, path: string)
    requires Purged(before, after, id, done)
    ensures Purged(before, PurgeOne(after, path, id), id, done + [path])
  {
    WithoutBoth(Bucket(before, path), {id}, {id});
    assert {id} + {id} == {id};
    forall p ensures Bucket(PurgeOne(after, path, id), p) == PurgedBucket(before, id, done + [path], p) {
      assert Bucket(after, p) == PurgedBucket(before, id, done, p);
    }
  }

  /** Takes `id` out of the buckets of `paths` and drops the buckets that this empties. */
  method RemoveFromPathIndex(byPath: Index, id: string, paths: seq<string>) returns (r: Index)
    ensures Purged(byPath, r, id, paths)
  {
    hide Without;
    r := byPath;
    var i := 0;
    while i < |paths|
      invariant 0 <= i <= |paths|
      invariant Purged(byPath, r, id, paths[..i])
    {
      hide Purged;
      var path := paths[i];
      PurgeNext(byPath, r, id, paths[..i], path);
      assert paths[..i + 1] == paths[..i] + [path];
      if path in r {
        var bucket := Without(r[path], {id});
        r := if bucket == [] then r - {path} else r[path := bucket];
      }
      i := i + 1;
    }
    assert paths[..i] == paths;
  }

  ghost function AddedBucket(before: Index, id: string, paths: seq<string>, path: string): seq<string> {
    Bucket(before, path) + Repeat(id, Occurrences(paths, path))
  }

  ghost predicate Added(before: Index, after: Index, id: string, paths: seq<string>) {
    && (NoEmptyBucket(before) ==> NoEmptyBucket(after))
    && (forall path :: Bucket(after, path) == AddedBucket(before, id, paths, path))
  }

  lemma OccurrencesNext(paths: seq<string>, path: string, p: string)
    ensures Occurrences(paths + [path], p) == Occurrences(paths, p) + (if path == p then 1 else 0)
  {
    assert (paths + [path])[..|paths|] == paths;
  }

  lemma AddNextAt(before: Index, after: Index, id: string, done: seq<string>, path: string, p: string)
    requires Bucket(after, p) == AddedBucket(before, id, done, p)
    ensures Bucket(after[path := Bucket(after, path) + [id]], p) == AddedBucket(before, id, done + [path], p)
  {
    hide Occurrences;
    OccurrencesNext(done, path, p);
    var n := Occurrences(done, p);
    assert Bucket(before, p) + Repeat(id, n) + [id] == Bucket(before, p) + (Repeat(id, n) + [id]);
  }

  lemma AddNext(before: Index, after: Index, id: string, done: seq<string>, path: string)
    requires Added(before, after, id, done)
    ensures Added(before, after[path := Bucket(after, path) + [id]], id, done + [path])
  {
    hide AddedBucket;
    forall p ensures Bucket(after[path := Bucket(after, path) + [id]], p) == AddedBucket(before, id, done + [path], p) {
      AddNextAt(before, after, id, done, path, p);
    }
  }

  /** Adds `id` to the bucket of every path, once for every time the path is listed. */
  method AddToPathIndex(byPath: Index, id: string, paths: seq<string>) returns (r: Index)
    ensures Added(byPath, r, id, paths)
  {
    r := byPath;
    var i := 0;
    while i < |paths|
      invariant 0 <= i <= |paths|
      invariant Added(byPath, r, id, paths[..i])
    {
      hide Added;
      AddNext(byPath, r, id, paths[..i], paths[i]);
      assert paths[..i + 1] == paths[..i] + [paths[i]];
      r := r[paths[i] := Bucket(r, paths[i]) + [id]];
      i := i + 1;
    }
    assert paths[..i] == paths;
  }

  lemma EnlistedIndex(before: Index, after: Index, byId: map<string, Entry>, order: seq<string>, entry: Entry)
    requires Known(order, byId) && entry.providerId !in byId
    requires NoEmptyBucket(before) && forall path :: Bucket(before, path) == Servers(order, byId, path)
    requires Added(before, after, entry.providerId, entry.servesPaths)
    ensures Known(order + [entry.providerId], byId[entry.providerId := entry]) && NoEmptyBucket(after)
    ensures forall path ::
      Bucket(after, path) == Servers(order + [entry.providerId], byId[entry.providerId := entry], path)
  {
    var id := entry.providerId;
    var known := byId[id := entry];
    assert (order + [id])[..|order|] == order;
    forall path ensures Bucket(after, path) == Servers(order + [id], known, path) {
      assert Bucket(after, path) == AddedBucket(before, id, entry.servesPaths, path);
      ServersFrame(order, byId, known, path);
    }
  }

  class ProviderRegistry {
    var byId: map<string, Entry>
    var byPath: Index
    ghost var order: seq<string>     // ids by time of their last registration

    ghost predicate Valid()
      reads this
    {
      && (forall id :: id in byId <==> id in order)
      && Distinct(order)
      && (forall id :: id in byId ==> byId[id].providerId == id)
      && Known(order, byId)
      && NoEmptyBucket(byPath)
      && (forall path :: Bucket(byPath, path) == Servers(order, byId, path))
    }

    constructor ()
      ensures Valid() && byId == map[] && order == []
    {
      byId, byPath, order := map[], map[], [];
    }

    /** Takes one known provider out of both maps. */
    method Forget(id: string)
      requires Valid() && id in byId
      modifies this
      ensures Valid()
      ensures byId == old(byId) - {id} && order == Without(old(order), {id})
    {
      var paths := byId[id].servesPaths;
      byPath := RemoveFromPathIndex(byPath, id, paths);
      byId := byId - {id};
      ghost var before := order;
      order := Without(order, {id});
      WithoutMembers(before, {id});
      WithoutDistinct(before, {id});
      WithoutFrame(before, id, old(byId));
      forall path ensures Bucket(byPath, path) == Servers(order, byId, path) {
        ServersWithout(before, old(byId), path, id);
        ServersMembers(before, old(byId), path, id);
        assert Bucket(byPath, path) == PurgedBucket(old(byPath), id, paths, path);
        if path !in paths {
          WithoutAbsent(Servers(before, old(byId), path), {id});
        }
      }
    }

    /** A provider that registers again loses its old paths and its old place in the order. */
    method Register(entry: Entry)
      requires Valid()
      modifies this
      ensures Valid()
      ensures byId == old(byId)[entry.providerId := entry]
      ensures order == Without(old(order), {entry.providerId}) + [entry.providerId]
    {
      if entry.providerId in byId {
        Forget(entry.providerId);
      } else {
        WithoutAbsent(order, {entry.providerId});
      }
      Enlist(entry);
    }

    method Enlist(entry: Entry)
      requires Valid() && entry.providerId !in byId
      modifies this
      ensures Valid()
      ensures byId == old(byId)[entry.providerId := entry] && order == old(order) + [entry.providerId]
    {
      hide Added;
      var id := entry.providerId;
      ghost var index := byPath;
      byPath := AddToPathIndex(byPath, id, entry.servesPaths);
      byId := byId[id := entry];
      order := order + [id];
      EnlistedIndex(index, byPath, old(byId), old(order), entry);
    }

    method Deregister(id: string) returns (r: Option<Entry>)
      requires Valid()
      modifies this
      ensures Valid()
      ensures r == if id in old(byId) then Some(old(byId)[id]) else None
      ensures byId == old(byId) - {id} && order == Without(old(order), {id})
    {
      if id !in byId {
        WithoutAbsent(order, {id});
        return None;
      }
      r := Some(byId[id]);
      Forget(id);
    }

    method Heartbeat(id: string, now: Instant) returns (r: bool)
      requires Valid()
      modifies `byId
      ensures Valid()
      ensures r == (id in old(byId))
      ensures byId == if r then old(byId)[id := old(byId)[id].(lastHeartbeat := now)] else old(byId)
    {
      if id !in byId {
        return false;
      }
      byId := byId[id := byId[id].(lastHeartbeat := now)];
      forall path ensures Servers(order, byId, path) == Servers(order, old(byId), path) {
        ServersFrame(order, byId, old(byId), path);
      }
      return true;
    }

    /** Looking a path up in the index gives what scanning every provider would. */
    method ForPath(path: string, now: Instant) returns (r: seq<Entry>)
      requires Valid()
      ensures r == Scan(order, byId, path, now)
    {
      r := [];
      if path !in byPath {
        NoServers(order, byId, path, now);
        return;
      }
      var ids := byPath[path];
      var i := 0;
      while i < |ids|
        invariant 0 <= i <= |ids|
        invariant r == Alive(ids[..i], byId, now)
      {
        assert ids[..i + 1][..i] == ids[..i];
        if ids[i] in byId && byId[ids[i]].IsAlive(now, LOOKUP_GRACE) {
          r := r + [byId[ids[i]]];
        }
        i := i + 1;
      }
      assert ids[..i] == ids;
      AliveServers(order, byId, path, now);
    }

    /** The index names exactly the registered providers that list the path. */
    lemma IndexExact(path: string, id: string)
      requires Valid()
      ensures path in byPath && id in byPath[path] <==> id in byId && path in byId[id].servesPaths
    {
      ServersMembers(order, byId, path, id);
      assert Bucket(byPath, path) == Servers(order, byId, path);
    }

    lemma OwnKey(id: string)
      requires Valid() && id in byId
      ensures byId[id].providerId == id
    {
    }

    /** Removes exactly the dead entries, whatever order the hash map lists them in; the survivors
        keep their place in the order. */
    method SweepExpired(grace: nat, now: Instant) returns (expired: seq<Entry>)
      requires Valid()
      modifies this
      ensures Valid()
      ensures byId == old(byId) - DeadIds(old(byId), grace, now)
      ensures order == Without(old(order), DeadIds(old(byId), grace, now))
      ensures Lists(expired, old(byId), DeadIds(old(byId), grace, now))
    {
      hide Valid, Lists, DeadIds, Without;
      var ids := DeadIds(byId, grace, now);
      ghost var dead, gone: set<string> := ids, {};
      expired := [];
      ListsNothing(byId);
      DeadAreKnown(byId, grace, now);
      WithoutAbsent(order, {});
      while ids != {}
        invariant Valid() && ids == dead - gone && gone <= dead <= old(byId).Keys
        invariant byId == old(byId) - gone && order == Without(old(order), gone)
        invariant Lists(expired, old(byId), gone)
      {
        var id :| id in ids;
        OwnKey(id);
        ListsNext(expired, old(byId), gone, id);
        MinusOne(old(byId), dead, gone, id);
        WithoutBoth(old(order), gone, {id});
        expired := expired + [byId[id]];
        gone := gone + {id};
        Forget(id);
        ids := ids - {id};
      }
      assert gone == dead;
    }
  }

  lemma DeadAreKnown(byId: map<string, Entry>, grace: nat, now: Instant)
    ensures DeadIds(byId, grace, now) <= byId.Keys
  {
  }

  lemma MinusOne(byId: map<string, Entry>, dead: set<string>, gone: set<string>, id: string)
    ensures byId - gone - {id} == byId - (gone + {id})
    ensures dead - gone - {id} == dead - (gone + {id})
  {
  }

  function DeadIds(byId: map<string, Entry>, grace: nat, now: Instant): set<string> {
    set id | id in byId && !byId[id].IsAlive(now, grace)
  }

  /** `entries` are the entries of `gone`, each once. */
  ghost predicate Lists(entries: seq<Entry>, byId: map<string, Entry>, gone: set<string>) {
    && gone <= byId.Keys
    && |entries| == |gone|
    && (forall i :: 0 <= i < |entries| ==> entries[i].providerId in gone && entries[i] == byId[entries[i].providerId])
    && (forall id :: id in gone ==> byId[id] in entries)
  }

  lemma ListsNothing(byId: map<string, Entry>)
    ensures Lists([], byId, {})
  {
  }

  lemma ListsNext(entries: seq<Entry>, byId: map<string, Entry>, gone: set<string>, id: string)
    requires Lists(entries, byId, gone) && id in byId && id !in gone && byId[id].providerId == id
    ensures Lists(entries + [byId[id]], byId, gone + {id})
  {
  }

  function Living(byId: map<string, Entry>, now: Instant): string -> seq<Entry> {
    (id: string) => if id in byId && byId[id].IsAlive(now, LOOKUP_GRACE) then [byId[id]] else []
  }

  /** The known and living among `ids`. */
  function Alive(ids: seq<string>, byId: map<string, Entry>, now: Instant): seq<Entry> {
    Collect(Living(byId, now), ids)
  }

  lemma {:induction false} AliveRepeat(id: string, n: nat, byId: map<string, Entry>, now: Instant)
    requires id in byId
    ensures Alive(Repeat(id, n), byId, now)
         == if byId[id].IsAlive(now, LOOKUP_GRACE) then Repeat(byId[id], n) else []
  {
    if n > 0 {
      assert Repeat(id, n)[..|Repeat(id, n)| - 1] == Repeat(id, n - 1);
      AliveRepeat(id, n - 1, byId, now);
    }
  }

  lemma {:induction false} AliveServers(order: seq<string>, byId: map<string, Entry>, path: string, now: Instant)
    requires Known(order, byId)
    ensures Alive(Servers(order, byId, path), byId, now) == Scan(order, byId, path, now)
    decreases |order|
  {
    if order != [] {
      var n := |order| - 1;
      var times := Occurrences(byId[order[n]].servesPaths, path);
      AliveServers(order[..n], byId, path, now);
      AliveRepeat(order[n], times, byId, now);
      CollectAppend(Living(byId, now), Servers(order[..n], byId, path), Repeat(order[n], times));
    }
  }

  /** A sweep with the grace of a lookup changes no lookup made at that moment. */
  lemma {:induction false} SweepIsInvisible(order: seq<string>, byId: map<string, Entry>, path: string, now: Instant)
    requires Known(order, byId)
    ensures var dead := DeadIds(byId, LOOKUP_GRACE, now);
      && Known(Without(order, dead), byId - dead)
      && Scan(Without(order, dead), byId - dead, path, now) == Scan(order, byId, path, now)
    decreases |order|
  {
    var dead := DeadIds(byId, LOOKUP_GRACE, now);
    WithoutMembers(order, dead);
    forall i | 0 <= i < |Without(order, dead)| ensures Without(order, dead)[i] in byId - dead {
      assert Without(order, dead)[i] in Without(order, dead);
    }
    if order != [] {
      var n := |order| - 1;
      var rest := Without(order[..n], dead);
      SweepIsInvisible(order[..n], byId, path, now);
      if order[n] in dead {
        assert Without(order, dead) == rest;
      } else {
        assert (rest + [order[n]])[..|rest|] == rest;
      }
    }
  }

  lemma NoServers(order: seq<string>, byId: map<string, Entry>, path: string, now: Instant)
    requires Known(order, byId) && Servers(order, byId, path) == []
    ensures Scan(order, byId, path, now) == []
  {
    AliveServers(order, byId, path, now);
  }
}
