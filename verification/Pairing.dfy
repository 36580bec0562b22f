/** Calls and results as a provider sees them: by the ids of tool blocks. */
module Pairing {
  import opened Prelude
  import opened Json
  import opened Transcript
  import opened Anthropic

  function BlockIds(blocks: seq<Value>, key: Key): seq<string> {
    seq(|blocks|, i requires 0 <= i < |blocks| => StrOr(Get(blocks[i], key), ""))
  }

  /** Ids of the `tool_use` blocks of an assistant message. */
  function UseIds(m: Value): seq<string> {
    if RoleOf(m) == "assistant" then BlockIds(ToolUses(ItemsOf(Get(m, Content))), Id) else []
  }

  /** Ids answered by the `tool_result` blocks of a user message. */
  function ResultIds(m: Value): seq<string> {
    if RoleOf(m) == "user" then BlockIds(Filter(IsToolResult, ItemsOf(Get(m, Content))), ToolUseId) else []
  }

  /** What a message asks for and what it answers. */
  datatype View = View(uses: seq<string>, results: seq<string>)

  function ProviderView(t: Value): View { View(UseIds(t), ResultIds(t)) }

  /** The same of a stored message: its tool calls if it has any, its own blocks otherwise. */
  function StoredView(m: Value): View {
    View(if CallsOf(m) != [] then BlockIds(CallsOf(m), Id) else UseIds(m),
         if IsTool(m) then [ResultId(m)] else ResultIds(m))
  }

  function ProviderViews(ts: seq<Value>): seq<View> {
    seq(|ts|, i requires 0 <= i < |ts| => ProviderView(ts[i]))
  }

  function StoredViews(ms: seq<Value>): seq<View> {
    seq(|ms|, i requires 0 <= i < |ms| => StoredView(ms[i]))
  }

  /** Reading on with the uses in `pending` still to be answered next, in that order; one message may
      answer several. */
  predicate ViewsPair(pending: seq<string>, views: seq<View>)
    decreases |views|
  {
    if views == [] then pending == []
    else
      var results := views[0].results;
      if pending == [] then results == [] && ViewsPair(views[0].uses, views[1..])
      else results != [] && results <= pending && ViewsPair(pending[|results|..], views[1..])
  }

  /** The provider's rule: the tool blocks of a message are answered, in order and by nothing else, by
      the messages right after it. */
  predicate ProviderPaired(ts: seq<Value>) { ViewsPair([], ProviderViews(ts)) }

  predicate StoredPaired(ms: seq<Value>) { ViewsPair([], StoredViews(ms)) }

  /** The message carries no provider-shaped tool blocks of its own. */
  predicate Native(m: Value) {
    ResultIds(m) == [] && (CallsOf(m) == [] ==> UseIds(m) == [])
  }

  predicate AllNative(ms: seq<Value>) { forall m :: m in ms ==> Native(m) }

  lemma {:induction false} NativePairs(pending: seq<Value>, ms: seq<Value>)
    requires AllNative(ms)
    ensures ViewsPair(BlockIds(pending, Id), StoredViews(ms)) <==> Pairs(pending, ms)
    decreases |ms|
  {
    if ms != [] {
      var m, ids := ms[0], BlockIds(pending, Id);
      assert m in ms && Native(m);
      var view := StoredView(m);
      assert view == View(BlockIds(CallsOf(m), Id), if IsTool(m) then [ResultId(m)] else []);
      assert StoredViews(ms)[0] == view && StoredViews(ms)[1..] == StoredViews(ms[1..]);
      var next := if pending != [] then pending[1..] else CallsOf(m);
      NativePairs(next, ms[1..]);
      if pending != [] && IsTool(m) {
        assert ids[1..] == BlockIds(next, Id) && ids[0] == CallId(pending[0]);
        assert view.results <= ids <==> Answers(m, pending[0]);
      }
    }
  }

  /** For messages without foreign blocks, both readings of the pairing are the same. */
  lemma NativePaired(ms: seq<Value>)
    requires AllNative(ms)
    ensures StoredPaired(ms) <==> WellPaired(ms)
  {
    NativePairs([], ms);
    assert BlockIds([], Id) == [];
  }

  lemma {:induction false} ViewsAppend(pending: seq<string>, a: seq<View>, b: seq<View>)
    requires ViewsPair([], b)
    ensures ViewsPair(pending, a + b) <==> ViewsPair(pending, a)
    decreases |a|
  {
    if a == [] {
      assert a + b == b;
    } else {
      assert (a + b)[1..] == a[1..] + b;
      if pending == [] {
        ViewsAppend(a[0].uses, a[1..], b);
      } else if a[0].results <= pending {
        ViewsAppend(pending[|a[0].results|..], a[1..], b);
      }
    }
  }

  /** A well-paired continuation neither breaks nor repairs what the provider sees before it. */
  lemma StoredPairedAppend(a: seq<Value>, b: seq<Value>)
    requires StoredPaired(b)
    ensures StoredPaired(a + b) <==> StoredPaired(a)
  {
    hide StoredView;
    assert StoredViews(a + b) == StoredViews(a) + StoredViews(b);
    ViewsAppend([], StoredViews(a), StoredViews(b));
  }

  // ---- What the turn loop writes is native -----------------------------------------------------

  /** No message with plain text and no other content carries tool blocks. */
  lemma TextIsNative(m: Value)
    requires Get(m, Content).Some? && Get(m, Content).value.Str?
    ensures Native(m)
  {
    assert ItemsOf(Get(m, Content)) == [];
  }

  lemma AllNativeAppend(a: seq<Value>, b: seq<Value>)
    requires AllNative(a) && AllNative(b)
    ensures AllNative(a + b)
  {
  }
}
