/** What the translation preserves. */
module AnthropicProofs {
  import opened Prelude
  import opened Json
  import opened Transcript
  import opened Anthropic
  import opened Pairing
  import TurnTrace

  // ---- Round trip -----------------------------------------------------------------------

  /** A `tool_use` block with exactly the members the provider defines. */
  ghost predicate IsCanonical(block: Value) {
    exists id, name, input :: block == ToolUseBlock(id, name, input)
  }

  /** The block a tool call came from: an absent id or name is "", an absent input is null. */
  function Canonical(block: Value): Value {
    ToolUseBlock(StrOr(Get(block, Id), ""), StrOr(Get(block, Name), ""), InputOf(block))
  }

  lemma CanonicalIffUnchanged(block: Value)
    ensures IsCanonical(block) <==> Canonical(block) == block
  {
    if IsCanonical(block) {
      var id, name, input :| block == ToolUseBlock(id, name, input);
      assert Get(block, Id) == Some(Str(id)) && Get(block, Name) == Some(Str(name));
    }
  }

  lemma CallRoundTrip(codec: Codec, block: Value)
    requires codec.Lawful()
    ensures CallToBlock(codec, BlockToCall(codec, block)) == Canonical(block)
  {
    var call := BlockToCall(codec, block);
    var function_ := call.fields[Function];
    assert Get2(call, Function, Name) == Some(function_.fields[Name]);
    assert Get2(call, Function, Arguments) == Some(function_.fields[Arguments]);
    assert codec.decode(codec.encode(InputOf(block))) == Some(InputOf(block));
  }

  function CanonicalAll(uses: seq<Value>): seq<Value> {
    seq(|uses|, i requires 0 <= i < |uses| => Canonical(uses[i]))
  }

  lemma CallsRoundTrip(codec: Codec, uses: seq<Value>)
    requires codec.Lawful()
    ensures CallsToBlocks(codec, BlocksToCalls(codec, uses)) == CanonicalAll(uses)
    ensures (forall use :: use in uses ==> IsCanonical(use)) ==> CanonicalAll(uses) == uses
  {
    forall i | 0 <= i < |uses| ensures CallToBlock(codec, BlocksToCalls(codec, uses)[i]) == Canonical(uses[i]) {
      CallRoundTrip(codec, uses[i]);
    }
    if forall use :: use in uses ==> IsCanonical(use) {
      forall i | 0 <= i < |uses| ensures Canonical(uses[i]) == uses[i] {
        CanonicalIffUnchanged(uses[i]);
      }
    }
  }

  lemma StoredTurnFields(codec: Codec, model: string, response: Value)
    ensures var reply := NormalizedReply(codec, model, response);
      && Get(reply, ContentRaw) == Some(Str(ReplyText(response)))
      && Get(reply, ToolCalls) == Some(Array(BlocksToCalls(codec, ToolUses(ItemsOf(Get(response, Content))))))
      && Get(reply, Reasoning) == Some(Str(""))
  {
  }

  lemma StoredTurnTranslated(codec: Codec, text: string, calls: seq<Value>)
    requires calls != []
    ensures TranslateOne(codec, AssistantCallTurn(text, Array(calls)))
         == AssistantBlocks(TextBlocks(text) + CallsToBlocks(codec, calls))
  {
    var turn := AssistantCallTurn(text, Array(calls));
    assert RoleOf(turn) == "assistant" && CallsOf(turn) == calls;
    assert Get(turn, Content) == Some(Str(text));
  }

  /** A reply that calls tools, stored by the turn loop and sent back on the next request, returns
      to the provider as one message: its text (if any) in one block, then its tool calls with the
      same id, name and input, in order. */
  lemma ReplyRoundTrip(codec: Codec, model: string, response: Value)
    requires codec.Lawful()
    requires ToolUses(ItemsOf(Get(response, Content))) != []
    ensures var uses := ToolUses(ItemsOf(Get(response, Content)));
      var back := TranslateOne(codec, TurnTrace.StoredTurn(NormalizedReply(codec, model, response)));
      && back == AssistantBlocks(TextBlocks(ReplyText(response)) + CanonicalAll(uses))
      && ((forall use :: use in uses ==> IsCanonical(use)) ==>
           back == AssistantBlocks(TextBlocks(ReplyText(response)) + uses))
  {
    var uses := ToolUses(ItemsOf(Get(response, Content)));
    StoredTurnFields(codec, model, response);
    StoredTurnTranslated(codec, ReplyText(response), BlocksToCalls(codec, uses));
    CallsRoundTrip(codec, uses);
  }

  /** For the common reply, a text and some tool calls, nothing is lost or added at all. */
  lemma CommonReplyComesBack(codec: Codec, model: string, response: Value, text: string, uses: seq<Value>)
    requires codec.Lawful() && uses != [] && forall use :: use in uses ==> IsCanonical(use)
    requires Get(response, Content) == Some(Array([TextBlock(text)] + uses))
    ensures TranslateOne(codec, TurnTrace.StoredTurn(NormalizedReply(codec, model, response)))
         == AssistantBlocks(if text == "" then uses else [TextBlock(text)] + uses)
  {
    CommonReply(text, uses);
    hide IsCanonical, TranslateOne, TextParts, ToolUses, TextBlock, NormalizedReply, TurnTrace.StoredTurn;
    ReplyRoundTrip(codec, model, response);
    assert [] + uses == uses;
  }

  lemma CommonReply(text: string, uses: seq<Value>)
    requires forall use :: use in uses ==> IsCanonical(use)
    ensures var blocks := [TextBlock(text)] + uses;
      Join(TextParts(blocks), "") == text && ToolUses(blocks) == uses
  {
    forall use | use in uses ensures IsToolUse(use) && TextPart(use) == [] {
      UseIsNoText(use);
    }
    assert KindOf(TextBlock(text)) == "text" && TextPart(TextBlock(text)) == [text];
    assert !IsToolUse(TextBlock(text));
    hide Collect, IsCanonical, TextPart, IsToolUse, TextBlock;
    CollectFirst(TextPart, TextBlock(text), uses);
    CollectNothing(TextPart, uses);
    FilterFirst(IsToolUse, TextBlock(text), uses);
    FilterKeepsAll(IsToolUse, uses);
    assert [text] + [] == [text] && [] + uses == uses;
  }

  lemma UseIsNoText(use: Value)
    requires IsCanonical(use)
    ensures IsToolUse(use) && TextPart(use) == []
  {
    var id, name, input :| use == ToolUseBlock(id, name, input);
    assert KindOf(use) == "tool_use" && Get(use, Text) == None;
  }

  /** Every tool block of a response is a call that the turn loop finds in the reply, with the same
      id, name and input. */
  lemma EveryUseIsRequested(codec: Codec, model: string, response: Value)
    requires codec.Lawful()
    ensures var uses := ToolUses(ItemsOf(Get(response, Content)));
      var calls := TurnTrace.RequestedBy(TurnTrace.Reply(NormalizedReply(codec, model, response)));
      && |calls| == |uses|
      && (forall i :: 0 <= i < |uses| ==>
           && CallId(calls[i]) == StrOr(Get(uses[i], Id), "") && CallName(calls[i]) == StrOr(Get(uses[i], Name), "")
           && CallArguments(codec, calls[i]) == InputOf(uses[i]))
  {
    var uses := ToolUses(ItemsOf(Get(response, Content)));
    StoredTurnFields(codec, model, response);
    TurnTrace.RequestedAreListed(NormalizedReply(codec, model, response));
    hide NormalizedReply, TurnTrace.RequestedBy;
    forall i | 0 <= i < |uses|
      ensures var call := BlockToCall(codec, uses[i]);
        && CallId(call) == StrOr(Get(uses[i], Id), "") && CallName(call) == StrOr(Get(uses[i], Name), "")
        && CallArguments(codec, call) == InputOf(uses[i])
    {
      CallRoundTrip(codec, uses[i]);
      CallFields(codec, uses[i]);
    }
  }

  lemma CallFields(codec: Codec, block: Value)
    requires codec.Lawful()
    ensures var call := BlockToCall(codec, block);
      && CallId(call) == StrOr(Get(block, Id), "") && CallName(call) == StrOr(Get(block, Name), "")
      && CallArguments(codec, call) == InputOf(block)
  {
    var call := BlockToCall(codec, block);
    var function_ := call.fields[Function];
    assert Get2(call, Function, Name) == Some(function_.fields[Name]);
    assert Get2(call, Function, Arguments) == Some(function_.fields[Arguments]);
    assert codec.decode(codec.encode(InputOf(block))) == Some(InputOf(block));
  }

  /** The rest of a normalized reply: only the stop reason of a tool call is renamed, and the cache
      counts as hit if anything was read from it. */
  lemma NormalizedMembers(codec: Codec, model: string, response: Value)
    ensures var reply, stop := NormalizedReply(codec, model, response), StrOr(Get(response, Other("stop_reason")), "");
      var finish := StrOr(Get(reply, Other("finish_reason")), "");
      && StrOr(Get(reply, Other("stop_reason")), "") == stop && Get(reply, Other("raw")) == Some(response)
      && (finish == "tool_calls" <==> stop in {"tool_use", "tool_calls"})
      && (finish != stop ==> stop == "tool_use")
  {
    hide ReplyText, CacheOf, BlocksToCalls, ToolUses;
  }

  lemma NormalizedTexts(codec: Codec, model: string, response: Value)
    ensures var reply, text := NormalizedReply(codec, model, response), Some(Str(ReplyText(response)));
      && Get(reply, Model) == Some(Str(model)) && Get(reply, Reasoning) == Some(Str(""))
      && Get(reply, AssistantMessage) == text && Get(reply, ContentRaw) == text && Get(reply, AssistantText) == text
  {
    hide ReplyText, CacheOf, BlocksToCalls, ToolUses;
  }

  lemma NormalizedUsage(codec: Codec, model: string, response: Value)
    ensures var reply := NormalizedReply(codec, model, response);
      && Get(reply, Other("usage")) ==
         (if Get(response, Other("usage")).Some? then Get(response, Other("usage")) else Some(Null))
      && Get(reply, Other("cache")) == Some(CacheOf(UsageOf(response)))
  {
    hide ReplyText, CacheOf, BlocksToCalls, ToolUses;
  }

  lemma CacheTells(usage: Value, read: nat, creation: nat)
    requires Get(usage, Other("cache_read_input_tokens")) == Some(Number(Unsigned(read)))
    requires Get(usage, Other("cache_creation_input_tokens")) == Some(Number(Unsigned(creation)))
    ensures var cache := CacheOf(usage);
      && U64OrZero(Get(cache, Other("read_tokens"))) == read
      && U64OrZero(Get(cache, Other("creation_tokens"))) == creation
      && Get(cache, Other("hit")) == Some(Bool(read != 0))
  {
  }

  // ---- Messages one by one ----------------------------------------------------------------

  function InlineImage(mediaType: string, data: string): Value {
    Object(map[
      Type := Str("image"),
      Source := Object(map[Type := Str("base64"), MediaType := Str(mediaType), Data := Str(data)])])
  }

  predicate Free(s: string, c: char) { c !in s }

  lemma {:induction false} SplitExactly(s: string, c: char, before: string, after: string)
    ensures SplitOnce(s, c) == Some((before, after)) <==> s == before + [c] + after && Free(before, c)
  {
    if s == "" {
    } else if s[0] == c {
      if before != "" && s == before + [c] + after {
        assert s[0] == before[0] && before[0] in before;
      }
      if before == "" {
        assert "" + [c] + after == [c] + after;
        assert [s[0]] + s[1..] == s;
      }
    } else if before == "" {
      assert "" + [c] + after == [c] + after;
    } else {
      SplitExactly(s[1..], c, before[1..], after);
      assert [before[0]] + before[1..] == before;
      if s == before + [c] + after {
        assert s[1..] == before[1..] + [c] + after;
        assert Free(before, c) ==> Free(before[1..], c);
      }
      if s[1..] == before[1..] + [c] + after && s[0] == before[0] {
        assert s == [s[0]] + s[1..] == before + [c] + after;
      }
    }
  }

  /** `url` carries base64 data: what is in front of the first comma says so after its first
      semicolon. */
  predicate IsDataUrl(url: string, mediaType: string, encoding: string, data: string) {
    && url == "data:" + (mediaType + ";" + encoding + "," + data)
    && Free(mediaType + ";" + encoding, ',') && Free(mediaType, ';')
    && Contains(encoding, "base64")
  }

  lemma InlinedIf(url: string, mediaType: string, encoding: string, data: string)
    requires IsDataUrl(url, mediaType, encoding, data)
    ensures ImageBlock(url) == Some(InlineImage(mediaType, data))
  {
    hide Contains, SplitOnce;
    assert url[5..] == mediaType + ";" + encoding + "," + data && url[..5] == "data:";
    SplitExactly(url[5..], ',', mediaType + ";" + encoding, data);
    SplitExactly(mediaType + ";" + encoding, ';', mediaType, encoding);
  }

  lemma InlinedOnlyIf(url: string) returns (mediaType: string, encoding: string, data: string)
    requires ImageBlock(url).Some?
    ensures IsDataUrl(url, mediaType, encoding, data)
  {
    assert Contains("", "base64") ==> false;
    hide Contains, SplitOnce;
    var (meta, rest) := SplitOnce(url[5..], ',').value;
    SplitExactly(url[5..], ',', meta, rest);
    data := rest;
    match SplitOnce(meta, ';') {
      case Some(p) =>
        mediaType, encoding := p.0, p.1;
        SplitExactly(meta, ';', mediaType, encoding);
        assert url == url[..5] + url[5..];
      case None =>
        assert false;
    }
  }

  /** An `image_url` block becomes the image its data URL spells out, and disappears if its URL is
      of any other kind; every other block is passed on as it is. */
  lemma UserBlockExactly(block: Value)
    ensures var url := StrOr(Get2(block, ImageUrl, Url), "");
      && (KindOf(block) != "image_url" ==> UserBlock(block) == [block])
      && (KindOf(block) == "image_url" ==>
           && |UserBlock(block)| <= 1
           && (UserBlock(block) != [] <==> exists m, e, d :: IsDataUrl(url, m, e, d))
           && (forall m, e, d :: IsDataUrl(url, m, e, d) ==> UserBlock(block) == [InlineImage(m, d)]))
  {
    var url := StrOr(Get2(block, ImageUrl, Url), "");
    if KindOf(block) == "image_url" {
      hide ImageBlock, IsDataUrl, InlineImage;
      forall m, e, d | IsDataUrl(url, m, e, d) ensures ImageBlock(url) == Some(InlineImage(m, d)) {
        InlinedIf(url, m, e, d);
      }
      if ImageBlock(url).Some? {
        var m, e, d := InlinedOnlyIf(url);
      }
    }
  }

  predicate IsImageUrl(block: Value) { KindOf(block) == "image_url" }

  /** Only three kinds of messages are rewritten. */
  lemma UnchangedMessages(codec: Codec, m: Value)
    requires !IsTool(m) && CallsOf(m) == []
    requires RoleOf(m) == "user" ==> forall block :: block in ItemsOf(Get(m, Content)) ==> !IsImageUrl(block)
    ensures TranslateOne(codec, m) == m
  {
    var blocks := ItemsOf(Get(m, Content));
    if RoleOf(m) == "user" && Get(m, Content).Some? && Get(m, Content).value.Array? {
      CollectAll(UserBlock, blocks);
      hide Collect;
      assert m.fields[Content := Array(blocks)] == m.fields;
    }
  }

  /** A tool message becomes one result block that says what the message says. */
  lemma ToolResultTold(codec: Codec, m: Value)
    requires IsTool(m)
    ensures var t, text := TranslateOne(codec, m), StrOr(Get(m, Content), "");
      && RoleOf(t) == "user" && ItemsOf(Get(t, Content)) == [ToolResultBlock(ResultId(m), text)]
      && StrOr(Get(ToolResultBlock(ResultId(m), text), Content), "") == text && ToolText(m) == [text]
  {
  }

  // ---- Everything reaches the provider ------------------------------------------------------

  function BlockText(block: Value): seq<string> {
    if IsToolResult(block) then [StrOr(Get(block, Content), "")] else []
  }

  /** What the result blocks of a message say, in order. */
  function ResultTexts(t: Value): seq<string> {
    if RoleOf(t) == "user" then Collect(BlockText, ItemsOf(Get(t, Content))) else []
  }

  /** The tool blocks of an assistant message. */
  function UseBlocks(t: Value): seq<Value> {
    if RoleOf(t) == "assistant" then ToolUses(ItemsOf(Get(t, Content))) else []
  }

  /** The answers a stored message brings: its text if it is a tool message, else its own blocks. */
  function StoredTexts(m: Value): seq<string> { ToolText(m) + ResultTexts(m) }

  /** The uses a stored message brings: its calls if it has any, else its own blocks. */
  function StoredUses(codec: Codec, m: Value): seq<Value> {
    if CallsOf(m) != [] then CallsToBlocks(codec, CallsOf(m)) else UseBlocks(m)
  }

  function UsesBy(codec: Codec): Value -> seq<Value> { (m: Value) => StoredUses(codec, m) }

  function TextsSent(ts: seq<Value>): seq<string> { Collect(ResultTexts, ts) }

  function UsesSent(ts: seq<Value>): seq<Value> { Collect(UseBlocks, ts) }

  lemma UserBlocksKeepTexts(blocks: seq<Value>)
    ensures Collect(BlockText, UserBlocks(blocks)) == Collect(BlockText, blocks)
  {
    forall block ensures Collect(BlockText, UserBlock(block)) == BlockText(block) {
      UserBlockKeepsText(block);
    }
    hide Collect, UserBlock, BlockText;
    CollectTwice(UserBlock, BlockText, BlockText, blocks);
  }

  lemma UserBlockKeepsText(block: Value)
    ensures Collect(BlockText, UserBlock(block)) == BlockText(block)
  {
    var url := StrOr(Get2(block, ImageUrl, Url), "");
    if KindOf(block) == "image_url" {
      assert "image_url" != "tool_result";
      if ImageBlock(url).Some? {
        ImageIsNoResult(url);
        CollectOne(BlockText, ImageBlock(url).value);
      }
    } else {
      CollectOne(BlockText, block);
    }
  }

  /** One message loses no answer and no call on its way to the provider. */
  lemma MessageArrives(codec: Codec, m: Value)
    ensures ResultTexts(TranslateOne(codec, m)) == StoredTexts(m)
    ensures UseBlocks(TranslateOne(codec, m)) == StoredUses(codec, m)
  {
    var t := TranslateOne(codec, m);
    if IsTool(m) {
      assert "tool" != "user" && "tool"[0] != "assistant"[0] && "user"[0] != "assistant"[0];
      ToolResultTold(codec, m);
      var block := ToolResultBlock(ResultId(m), StrOr(Get(m, Content), ""));
      assert IsToolResult(block) by { assert KindOf(block) == "tool_result"; }
      CollectOne(BlockText, block);
      assert ResultTexts(m) == [];
    } else if CallsOf(m) != [] {
      assert "assistant"[0] != "user"[0];
      CallBlocksAreUses(codec, StrOr(Get(m, Content), ""), CallsOf(m));
      assert RoleOf(t) == "assistant";
    } else if RoleOf(m) == "user" && Get(m, Content).Some? && Get(m, Content).value.Array? {
      UserBlocksKeepTexts(m.fields[Content].items);
      assert RoleOf(t) == "user" && "user"[0] != "assistant"[0];
      assert ItemsOf(Get(t, Content)) == UserBlocks(m.fields[Content].items);
    } else {
      assert t == m;
    }
  }

  lemma MessagesArrive(codec: Codec, ms: seq<Value>)
    ensures TextsSent(TranslateEach(codec, ms)) == Collect(StoredTexts, ms)
    ensures UsesSent(TranslateEach(codec, ms)) == Collect(UsesBy(codec), ms)
  {
    hide Collect, ResultTexts, StoredTexts, UseBlocks, StoredUses, TranslateOne;
    var ts := TranslateEach(codec, ms);
    forall i | 0 <= i < |ms|
      ensures ResultTexts(ts[i]) == StoredTexts(ms[i]) && UseBlocks(ts[i]) == UsesBy(codec)(ms[i])
    {
      MessageArrives(codec, ms[i]);
    }
    CollectSame(ResultTexts, ts, StoredTexts, ms);
    CollectSame(UseBlocks, ts, UsesBy(codec), ms);
  }

  // ---- Pairing ----------------------------------------------------------------------------

  lemma AllUses(codec: Codec, calls: seq<Value>)
    ensures ToolUses(CallsToBlocks(codec, calls)) == CallsToBlocks(codec, calls)
  {
    var blocks := CallsToBlocks(codec, calls);
    forall b | b in blocks ensures IsToolUse(b) {
      var i :| 0 <= i < |blocks| && blocks[i] == b;
      assert KindOf(CallToBlock(codec, calls[i])) == "tool_use";
    }
    FilterKeepsAll(IsToolUse, blocks);
  }

  lemma CallBlocksAreUses(codec: Codec, text: string, calls: seq<Value>)
    ensures ToolUses(TextBlocks(text) + CallsToBlocks(codec, calls)) == CallsToBlocks(codec, calls)
  {
    var blocks := CallsToBlocks(codec, calls);
    AllUses(codec, calls);
    FilterAppend(IsToolUse, TextBlocks(text), blocks);
    FilterFirst(IsToolUse, TextBlock(text), []);
    assert KindOf(TextBlock(text)) == "text";
    assert ToolUses(TextBlocks(text)) == [];
  }

  lemma CallTurnIds(codec: Codec, m: Value)
    requires RoleOf(m) == "assistant" && CallsOf(m) != []
    ensures UseIds(TranslateOne(codec, m)) == BlockIds(CallsOf(m), Id)
    ensures ResultIds(TranslateOne(codec, m)) == []
  {
    var t := TranslateOne(codec, m);
    var text := StrOr(Get(m, Content), "");
    var calls := CallsOf(m);
    var blocks := CallsToBlocks(codec, calls);
    CallBlocksAreUses(codec, text, calls);
    assert ItemsOf(Get(t, Content)) == TextBlocks(text) + blocks;
    forall i | 0 <= i < |calls| ensures StrOr(Get(blocks[i], Id), "") == CallId(calls[i]) {
      assert blocks[i] == CallToBlock(codec, calls[i]);
    }
    assert RoleOf(t) == "assistant";
    assert BlockIds(blocks, Id) == BlockIds(calls, Id);
  }

  lemma ResultBlock(id: string, text: string)
    ensures var block := ToolResultBlock(id, text);
      Filter(IsToolResult, [block]) == [block] && StrOr(Get(block, ToolUseId), "") == id
  {
    hide Collect;
    var block := ToolResultBlock(id, text);
    assert KindOf(block) == "tool_result" && Get(block, ToolUseId) == Some(Str(id));
    FilterFirst(IsToolResult, block, []);
  }

  lemma ToolMessageIds(codec: Codec, m: Value)
    requires IsTool(m)
    ensures ResultIds(TranslateOne(codec, m)) == [ResultId(m)]
    ensures UseIds(TranslateOne(codec, m)) == []
  {
    hide Collect;
    var text := StrOr(Get(m, Content), "");
    var t, block := TranslateOne(codec, m), ToolResultBlock(ResultId(m), text);
    ResultBlock(ResultId(m), text);
    assert RoleOf(t) == "user" && ItemsOf(Get(t, Content)) == [block];
  }

  lemma ImageIsNoResult(url: string)
    requires ImageBlock(url).Some?
    ensures !IsToolResult(ImageBlock(url).value)
  {
    assert KindOf(ImageBlock(url).value) == "image";
  }

  lemma OneUserBlock(block: Value)
    ensures Filter(IsToolResult, UserBlock(block)) == if IsToolResult(block) then [block] else []
  {
    var url := StrOr(Get2(block, ImageUrl, Url), "");
    FilterFirst(IsToolResult, block, []);
    if KindOf(block) == "image_url" {
      assert "image_url" != "tool_result";
      if ImageBlock(url).Some? {
        ImageIsNoResult(url);
        FilterFirst(IsToolResult, ImageBlock(url).value, []);
      }
    }
  }

  lemma UserBlocksKeepResults(blocks: seq<Value>)
    ensures Filter(IsToolResult, UserBlocks(blocks)) == Filter(IsToolResult, blocks)
  {
    forall block ensures Collect(Keeping(IsToolResult), UserBlock(block)) == Keeping(IsToolResult)(block) {
      OneUserBlock(block);
    }
    hide Collect, UserBlock, IsToolResult;
    CollectTwice(UserBlock, Keeping(IsToolResult), Keeping(IsToolResult), blocks);
  }

  lemma OtherMessageIds(codec: Codec, m: Value)
    requires !IsTool(m) && CallsOf(m) == []
    ensures UseIds(TranslateOne(codec, m)) == UseIds(m)
    ensures ResultIds(TranslateOne(codec, m)) == ResultIds(m)
  {
    if RoleOf(m) == "user" && Get(m, Content).Some? && Get(m, Content).value.Array? {
      var t := TranslateOne(codec, m);
      UserBlocksKeepResults(m.fields[Content].items);
      assert RoleOf(t) == "user";
      assert ItemsOf(Get(t, Content)) == UserBlocks(m.fields[Content].items);
    }
  }

  /** How one message looks to the provider, whatever it carries: calls become uses, results become
      results, and provider-shaped blocks of its own stay visible. */
  lemma TranslatedView(codec: Codec, m: Value)
    ensures ProviderView(TranslateOne(codec, m)) == StoredView(m)
  {
    if IsTool(m) {
      assert "assistant"[0] != "tool"[0];
      ToolMessageIds(codec, m);
    } else if CallsOf(m) != [] {
      assert "assistant"[0] != "user"[0];
      CallTurnIds(codec, m);
    } else {
      OtherMessageIds(codec, m);
    }
  }

  /** Translation keeps and reflects the pairing, for every transcript: the provider sees a well-paired
      conversation exactly when the stored messages, read with their own blocks, are well paired. If
      they have no such blocks, that is the pairing of calls and results. */
  lemma TranslationPairedIff(codec: Codec, ms: seq<Value>)
    ensures ProviderPaired(TranslatedMessages(codec, ms)) <==> StoredPaired(Conversation(ms))
    ensures AllNative(ms) ==>
      (ProviderPaired(TranslatedMessages(codec, ms)) <==> WellPaired(Conversation(ms)))
    ensures AllNative(ms) && WellPaired(ms) ==> ProviderPaired(TranslatedMessages(codec, ms))
  {
    var kept := Conversation(ms);
    forall i | 0 <= i < |kept| ensures ProviderView(TranslateOne(codec, kept[i])) == StoredView(kept[i]) {
      TranslatedView(codec, kept[i]);
    }
    hide ProviderView, StoredView, TranslateOne;
    assert ProviderViews(TranslatedMessages(codec, ms)) == StoredViews(kept);
    if AllNative(ms) {
      FilterMembers(NotSystem, ms);
      NativePaired(kept);
      if WellPaired(ms) {
        ConversationWellPaired(ms);
      }
    }
  }

  /** A conversation that continues with native, well-paired messages looks to the provider as well
      paired as it did before. */
  lemma ContinuedPairing(initial: seq<Value>, added: seq<Value>)
    requires AllNative(added) && WellPaired(added)
    ensures StoredPaired(Conversation(initial + added)) <==> StoredPaired(Conversation(initial))
  {
    ConversationWellPaired(added);
    FilterMembers(NotSystem, added);
    FilterAppend(NotSystem, initial, added);
    hide Native, WellPaired, StoredPaired, Filter;
    assert AllNative(Conversation(added));
    NativePaired(Conversation(added));
    StoredPairedAppend(Conversation(initial), Conversation(added));
  }

  /** Every request of a lawful turn reaches the provider well paired, exactly if the initial
      transcript would have, whatever tool blocks it carries. */
  lemma EveryRequestProviderPaired(setup: TurnTrace.Setup, trace: seq<TurnTrace.Event>, i: nat)
    requires TurnTrace.Lawful(setup, trace) && i < |trace| && trace[i].Asked?
    ensures ProviderPaired(TranslatedMessages(setup.codec, trace[i].prompt)) <==>
      ProviderPaired(TranslatedMessages(setup.codec, setup.initial))
    ensures AllNative(setup.initial) && WellPaired(setup.initial) ==>
      ProviderPaired(TranslatedMessages(setup.codec, trace[i].prompt))
  {
    var messages, added := Told(setup, trace, i);
    hide TurnTrace.Tells, WellPaired, SystemFirst, AllNative, ProviderPaired, StoredPaired, TurnTrace.Lawful;
    hide TranslatedMessages, Conversation;
    SystemFirstKeepsConversation(setup.codec, messages);
    TranslationPairedIff(setup.codec, trace[i].prompt);
    TranslationPairedIff(setup.codec, setup.initial);
    ContinuedPairing(setup.initial, added);
  }

  /** What is behind the i-th prompt. */
  lemma Told(setup: TurnTrace.Setup, trace: seq<TurnTrace.Event>, i: nat)
    returns (messages: seq<Value>, added: seq<Value>)
    requires TurnTrace.Lawful(setup, trace) && i < |trace| && trace[i].Asked?
    ensures trace[i].prompt == SystemFirst(setup.codec, messages) && messages == setup.initial + added
    ensures AllNative(added) && WellPaired(added)
    ensures var calls := TurnTrace.Observe(setup, trace[..i]).calls;
      && TurnTrace.Tells(setup.codec, added, calls) && TurnTrace.Requests(calls) == Collect(TurnTrace.Owed, trace[..i])
  {
    var calls;
    messages, calls := TurnTrace.PromptsTellAll(setup, trace, i);
    hide TurnTrace.Observe, TurnTrace.Lawful, TurnTrace.Owed, WellPaired, SystemFirst, AllNative, Collect;
    added := messages[|setup.initial|..];
  }

  /** What the loop has added brings its calls and their answers, and nothing else. */
  lemma NativeStored(codec: Codec, m: Value)
    requires Native(m)
    ensures StoredTexts(m) == ToolText(m) && StoredUses(codec, m) == CallsToBlocks(codec, CallsOf(m))
  {
    if RoleOf(m) == "user" {
      NoResultsNoTexts(ItemsOf(Get(m, Content)));
    }
    assert ToolText(m) + [] == ToolText(m);
  }

  lemma {:induction false} NoResultsNoTexts(blocks: seq<Value>)
    requires BlockIds(Filter(IsToolResult, blocks), ToolUseId) == []
    ensures Collect(BlockText, blocks) == []
  {
    assert |Filter(IsToolResult, blocks)| == |BlockIds(Filter(IsToolResult, blocks), ToolUseId)|;
    FilterMembers(IsToolResult, blocks);
    hide Collect;
    CollectNothing(BlockText, blocks);
  }

  lemma BlocksAppend(codec: Codec, a: seq<Value>, b: seq<Value>)
    ensures CallsToBlocks(codec, a + b) == CallsToBlocks(codec, a) + CallsToBlocks(codec, b)
  {
  }

  lemma {:induction false} BlocksOfCalls(codec: Codec, ms: seq<Value>)
    requires AllNative(ms)
    ensures Collect(UsesBy(codec), ms) == CallsToBlocks(codec, AllCalls(ms))
    decreases |ms|
  {
    if ms != [] {
      hide Collect, Native, StoredUses, CallsOf, CallToBlock;
      var n := |ms| - 1;
      BlocksOfCalls(codec, ms[..n]);
      assert ms[n] in ms && ms[..n + 1] == ms;
      NativeStored(codec, ms[n]);
      CollectStep(UsesBy(codec), ms, n);
      CollectStep(CallsOf, ms, n);
      BlocksAppend(codec, AllCalls(ms[..n]), CallsOf(ms[n]));
    }
  }

  lemma AddedArrives(codec: Codec, added: seq<Value>)
    requires AllNative(added)
    ensures Collect(StoredTexts, Conversation(added)) == ToolTexts(added)
    ensures Collect(UsesBy(codec), Conversation(added)) == CallsToBlocks(codec, AllCalls(added))
  {
    hide Collect, Native, StoredTexts, StoredUses, CallsOf, ToolText;
    var kept := Conversation(added);
    FilterMembers(NotSystem, added);
    forall m | m in added ensures StoredTexts(m) == ToolText(m) {
      NativeStored(codec, m);
    }
    assert forall i :: 0 <= i < |kept| ==> kept[i] in kept;
    CollectSame(StoredTexts, kept, ToolText, kept);
    forall m | m in added && !NotSystem(m) ensures ToolText(m) == [] && CallsOf(m) == [] {
      SystemIsNoCallAndNoResult(m);
      SystemSaysNothing(m);
    }
    CollectFiltered(ToolText, NotSystem, added);
    CollectFiltered(CallsOf, NotSystem, added);
    BlocksOfCalls(codec, kept);
  }

  lemma SystemSaysNothing(m: Value)
    requires !IsTool(m)
    ensures ToolText(m) == []
  {
  }

  /** Every request tells the provider everything: after what the initial transcript brings, each call
      the replies have brought so far with its id, name and input, and what was answered to it, in
      order. */
  lemma EverythingArrives(setup: TurnTrace.Setup, trace: seq<TurnTrace.Event>, i: nat)
    requires TurnTrace.Lawful(setup, trace) && i < |trace| && trace[i].Asked?
    ensures var sent, before := TranslatedMessages(setup.codec, trace[i].prompt), Conversation(setup.initial);
      var calls := TurnTrace.Observe(setup, trace[..i]).calls;
      && UsesSent(sent)
         == Collect(UsesBy(setup.codec), before) + CallsToBlocks(setup.codec, Collect(TurnTrace.Owed, trace[..i]))
      && TextsSent(sent) == Collect(StoredTexts, before) + TurnTrace.AnswerTexts(setup.codec, calls)
      && TurnTrace.Requests(calls) == Collect(TurnTrace.Owed, trace[..i])
  {
    var messages, added := Told(setup, trace, i);
    hide TurnTrace.Observe, TurnTrace.Lawful, TurnTrace.Owed, TurnTrace.AnswerTexts;
    hide WellPaired, SystemFirst, AllNative, Collect, Filter, StoredTexts, CallsToBlocks, TextsSent, UsesSent;
    SystemFirstKeepsConversation(setup.codec, messages);
    MessagesArrive(setup.codec, Conversation(messages));
    FilterAppend(NotSystem, setup.initial, added);
    CollectAppend(StoredTexts, Conversation(setup.initial), Conversation(added));
    CollectAppend(UsesBy(setup.codec), Conversation(setup.initial), Conversation(added));
    AddedArrives(setup.codec, added);
  }

  // ---- Merging system messages first -----------------------------------------------------

  /** How many characters of a text are not whitespace. */
  function Ink(s: string): nat {
    if s == "" then 0 else Ink(s[..|s| - 1]) + (if IsWhitespace(s[|s| - 1]) then 0 else 1)
  }

  function InkOfAll(parts: seq<string>): nat {
    if parts == [] then 0 else Ink(parts[0]) + InkOfAll(parts[1..])
  }

  lemma {:induction false} InkAppend(a: string, b: string)
    ensures Ink(a + b) == Ink(a) + Ink(b)
    decreases |b|
  {
    if b == "" {
      assert a + b == a;
    } else {
      assert (a + b)[..|a + b| - 1] == a + b[..|b| - 1];
      InkAppend(a, b[..|b| - 1]);
    }
  }

  lemma {:induction false} BlankHasNoInk(s: string)
    ensures IsBlank(s) <==> Ink(s) == 0
    decreases |s|
  {
    if s != "" {
      BlankHasNoInk(s[..|s| - 1]);
      assert s == s[..|s| - 1] + [s[|s| - 1]];
    }
  }

  /** Joining with whitespace adds no ink. */
  lemma {:induction false} InkOfJoin(parts: seq<string>)
    ensures Ink(Join(parts, PARAGRAPH)) == InkOfAll(parts)
  {
    if |parts| > 1 {
      InkOfJoin(parts[1..]);
      InkAppend(parts[0] + PARAGRAPH, Join(parts[1..], PARAGRAPH));
      InkAppend(parts[0], PARAGRAPH);
      BlankHasNoInk(PARAGRAPH);
    }
  }

  lemma {:induction false} InkOfParts(a: seq<string>, b: seq<string>)
    ensures InkOfAll(a + b) == InkOfAll(a) + InkOfAll(b)
  {
    if a == [] {
      assert a + b == b;
    } else {
      assert (a + b)[1..] == a[1..] + b;
      InkOfParts(a[1..], b);
    }
  }

  /** Both readers of system messages see the same: nothing, or a text that says something. */
  predicate PlainContent(m: Value) {
    match Get(m, Content)
    case None => true
    case Some(Null) => true
    case Some(Str(text)) => !IsBlank(text)
    case Some(_) => false
  }

  predicate PlainSystemContents(ms: seq<Value>) {
    forall i :: 0 <= i < |ms| && IsSystem(ms[i]) ==> PlainContent(ms[i])
  }

  /** The merge never uses less ink than the extraction, and more exactly for contents that are not
      plain. */
  lemma OneMessageInk(codec: Codec, m: Value)
    requires codec.Lawful()
    ensures InkOfAll(ChunkOf(m)) <= InkOfAll(PartOf(codec, m))
    ensures IsSystem(m) ==> (InkOfAll(ChunkOf(m)) == InkOfAll(PartOf(codec, m)) <==> PlainContent(m))
  {
    var content := Get(m, Content);
    if IsSystem(m) && content.Some? && !PlainContent(m) {
      BlankHasNoInk(codec.encode(content.value));
      assert PartOf(codec, m) == [codec.encode(content.value)];
      if content.value.Str? {
        BlankHasNoInk(content.value.s);
        assert ChunkOf(m) == [content.value.s];
      }
    }
  }

  lemma {:induction false} AllMessagesInk(codec: Codec, ms: seq<Value>)
    requires codec.Lawful()
    ensures InkOfAll(SystemChunks(ms)) <= InkOfAll(SystemParts(codec, ms))
    ensures InkOfAll(SystemChunks(ms)) == InkOfAll(SystemParts(codec, ms)) ==> PlainSystemContents(ms)
  {
    if ms != [] {
      hide ChunkOf, PartOf, PlainContent, PlainSystemContents, Collect;
      var n := |ms| - 1;
      OneMessageInk(codec, ms[n]);
      AllMessagesInk(codec, ms[..n]);
      CollectStep(ChunkOf, ms, n);
      CollectStep(PartBy(codec), ms, n);
      assert ms[..n + 1] == ms;
      InkOfParts(SystemChunks(ms[..n]), ChunkOf(ms[n]));
      InkOfParts(SystemParts(codec, ms[..n]), PartOf(codec, ms[n]));
      PlainInitAndLast(ms);
    }
  }

  lemma PlainInitAndLast(ms: seq<Value>)
    requires ms != []
    ensures var n := |ms| - 1;
      PlainSystemContents(ms) <==> PlainSystemContents(ms[..n]) && (IsSystem(ms[n]) ==> PlainContent(ms[n]))
  {
    var n := |ms| - 1;
    assert forall i :: 0 <= i < n ==> ms[..n][i] == ms[i];
  }

  lemma {:induction false} PartsAreChunks(codec: Codec, ms: seq<Value>)
    requires PlainSystemContents(ms)
    ensures SystemParts(codec, ms) == SystemChunks(ms)
  {
    if ms != [] {
      PlainInitAndLast(ms);
      PartsAreChunks(codec, ms[..|ms| - 1]);
    }
  }

  lemma MergedSystemText(codec: Codec, ms: seq<Value>)
    ensures SystemText(SystemFirst(codec, ms)) == Join(SystemParts(codec, ms), PARAGRAPH)
  {
    hide Collect;
    var parts, rest := SystemParts(codec, ms), Conversation(ms);
    FilterMembers(NotSystem, ms);
    CollectNothing(ChunkOf, rest);
    if parts == [] {
      assert SystemFirst(codec, ms) == rest;
    } else {
      var merged := SystemMessage(Join(parts, PARAGRAPH));
      assert ChunkOf(merged) == [Join(parts, PARAGRAPH)];
      CollectFirst(ChunkOf, merged, rest);
      assert SystemChunks(SystemFirst(codec, ms)) == [Join(parts, PARAGRAPH)];
    }
  }

  /** The turn loop merges system messages before it calls a provider. The messages are never
      affected. The system text is the one the provider client would have extracted itself exactly
      when every system message has no content, null content or a non-blank string. */
  lemma TranslateAfterMerge(codec: Codec, ms: seq<Value>)
    ensures TranslatedMessages(codec, SystemFirst(codec, ms)) == TranslatedMessages(codec, ms)
    ensures PlainSystemContents(ms) ==> SystemText(SystemFirst(codec, ms)) == SystemText(ms)
    ensures codec.Lawful() ==> (SystemText(SystemFirst(codec, ms)) == SystemText(ms) <==> PlainSystemContents(ms))
  {
    SystemFirstKeepsConversation(codec, ms);
    MergedSystemText(codec, ms);
    if PlainSystemContents(ms) {
      PartsAreChunks(codec, ms);
    } else if codec.Lawful() {
      InkOfJoin(SystemParts(codec, ms));
      InkOfJoin(SystemChunks(ms));
      AllMessagesInk(codec, ms);
    }
  }

  /** The smallest failing input: an empty system text is extracted as it is, but merged as its JSON
      rendering. */
  lemma BlankSystemTextDiffers(codec: Codec)
    requires codec.Lawful()
    ensures var ms := [SystemMessage("")];
      SystemText(ms) == "" && SystemText(SystemFirst(codec, ms)) == codec.encode(Str("")) != ""
  {
    var ms := [SystemMessage("")];
    assert Get(ms[0], Content) == Some(Str(""));
    CollectOne(PartBy(codec), ms[0]);
    CollectOne(ChunkOf, ms[0]);
    hide Collect;
    assert SystemParts(codec, ms) == [codec.encode(Str(""))];
    MergedSystemText(codec, ms);
    assert SystemChunks(ms) == [""];
    assert !IsBlank(codec.encode(Str("")));
  }
}
