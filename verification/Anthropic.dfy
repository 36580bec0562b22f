/** The provider client that rewrites an OpenAI-shaped transcript into Messages-API shape and
    normalizes the reply back. */
module Anthropic {
  import opened Prelude
  import opened Json
  import opened Transcript

  // ---- Content blocks ---------------------------------------------------------------------

  function TextBlock(text: string): Value {
    Object(map[Type := Str("text"), Text := Str(text)])
  }

  function ToolUseBlock(id: string, name: string, input: Value): Value {
    Object(map[Type := Str("tool_use"), Id := Str(id), Name := Str(name), Input := input])
  }

  function ToolResultBlock(id: string, text: string): Value {
    Object(map[Type := Str("tool_result"), ToolUseId := Str(id), Content := Str(text)])
  }

  function AssistantBlocks(content: seq<Value>): Value {
    Object(map[Role := Str("assistant"), Content := Array(content)])
  }

  function KindOf(block: Value): string { StrOr(Get(block, Type), "") }

  predicate IsToolUse(block: Value) { KindOf(block) == "tool_use" }

  predicate IsToolResult(block: Value) { KindOf(block) == "tool_result" }

  // ---- Images -----------------------------------------------------------------------------

  /** `s.split_once(c)`: the parts before and after the first `c`. */
  function SplitOnce(s: string, c: char): Option<(string, string)> {
    if s == "" then None
    else if s[0] == c then Some(("", s[1..]))
    else match SplitOnce(s[1..], c)
         case Some((before, after)) => Some(([s[0]] + before, after))
         case None => None
  }

  predicate Contains(s: string, part: string) {
    exists i :: 0 <= i <= |s| && StartsWith(s[i..], part)
  }

  function ImageBlock(url: string): Option<Value> {
    if !StartsWith(url, "data:") then None
    else match SplitOnce(url[5..], ',')
      case None => None
      case Some((meta, data)) =>
        var (mediaType, encoding) := match SplitOnce(meta, ';') case Some(p) => p case None => (meta, "");
        if !Contains(encoding, "base64") then None
        else Some(Object(map[
          Type := Str("image"),
          Source := Object(map[Type := Str("base64"), MediaType := Str(mediaType), Data := Str(data)])]))
  }

  /** An `image_url` block becomes an inline image or disappears; every other block stays. */
  function UserBlock(block: Value): seq<Value> {
    if KindOf(block) == "image_url" then
      match ImageBlock(StrOr(Get2(block, ImageUrl, Url), ""))
      case Some(image) => [image]
      case None => []
    else [block]
  }

  function UserBlocks(blocks: seq<Value>): seq<Value> { Collect(UserBlock, blocks) }

  // ---- Requests: translate_messages ---------------------------------------------------------

  function CallToBlock(codec: Codec, call: Value): Value {
    ToolUseBlock(CallId(call), CallName(call), CallArguments(codec, call))
  }

  function CallsToBlocks(codec: Codec, calls: seq<Value>): seq<Value> {
    seq(|calls|, i requires 0 <= i < |calls| => CallToBlock(codec, calls[i]))
  }

  function TextBlocks(text: string): seq<Value> { if text == "" then [] else [TextBlock(text)] }

  /** The translation of one message that is not a system message. */
  function TranslateOne(codec: Codec, m: Value): Value {
    if RoleOf(m) == "user" then
      match Get(m, Content)
      case Some(Array(blocks)) => Object(m.fields[Content := Array(UserBlocks(blocks))])
      case _ => m
    else if RoleOf(m) == "assistant" then
      if CallsOf(m) == [] then m
      else AssistantBlocks(TextBlocks(StrOr(Get(m, Content), "")) + CallsToBlocks(codec, CallsOf(m)))
    else if IsTool(m) then
      Object(map[Role := Str("user"),
                 Content := Array([ToolResultBlock(ResultId(m), StrOr(Get(m, Content), ""))])])
    else m
  }

  function TranslateEach(codec: Codec, ms: seq<Value>): seq<Value> {
    seq(|ms|, i requires 0 <= i < |ms| => TranslateOne(codec, ms[i]))
  }

  function TranslatedMessages(codec: Codec, ms: seq<Value>): seq<Value> {
    TranslateEach(codec, Conversation(ms))
  }

  /** What one message contributes to the system text: string contents only. */
  function ChunkOf(m: Value): seq<string> {
    match Get(m, Content)
    case Some(Str(text)) => if IsSystem(m) then [text] else []
    case _ => []
  }

  function SystemChunks(ms: seq<Value>): seq<string> { Collect(ChunkOf, ms) }

  function SystemText(ms: seq<Value>): string { Join(SystemChunks(ms), PARAGRAPH) }

  lemma TranslateStep(codec: Codec, ms: seq<Value>, i: nat)
    requires i < |ms|
    ensures SystemChunks(ms[..i + 1]) == SystemChunks(ms[..i]) + ChunkOf(ms[i])
    ensures TranslatedMessages(codec, ms[..i + 1]) == TranslatedMessages(codec, ms[..i])
         + (if IsSystem(ms[i]) then [] else [TranslateOne(codec, ms[i])])
  {
    CollectStep(ChunkOf, ms, i);
    FilterStep(NotSystem, ms, i);
    hide Filter, TranslateOne;
    assert ms[..i + 1] == ms[..i] + [ms[i]];
  }

  method TranslateMessages(codec: Codec, messages: seq<Value>) returns (system: string, translated: seq<Value>)
    ensures system == SystemText(messages)
    ensures translated == TranslatedMessages(codec, messages)
  {
    var chunks: seq<string> := [];
    translated := [];
    for i := 0 to |messages|
      invariant chunks == SystemChunks(messages[..i])
      invariant translated == TranslatedMessages(codec, messages[..i])
    {
      TranslateStep(codec, messages, i);
      var message := messages[i];
      if RoleOf(message) == "system" {
        chunks := chunks + ChunkOf(message);
      } else {
        var one := TranslateMessage(codec, message);
        translated := translated + [one];
      }
    }
    assert messages[..|messages|] == messages;
    system := Join(chunks, PARAGRAPH);
  }

  /** The arms of the loop for messages that are not system messages. */
  method TranslateMessage(codec: Codec, message: Value) returns (out: Value)
    ensures out == TranslateOne(codec, message)
  {
    out := message;
    var role, content := RoleOf(message), Get(message, Content);
    if role == "user" {
      if content.Some? && content.value.Array? {
        var blocks := TranslateUserBlocks(content.value.items);
        out := Object(message.fields[Content := Array(blocks)]);
      }
    } else if role == "assistant" {
      var calls := ItemsOf(Get(message, ToolCalls));
      if calls != [] {
        var blocks := TranslateCalls(codec, StrOr(content, ""), calls);
        out := AssistantBlocks(blocks);
      }
    } else if role == "tool" {
      var result := ToolResultBlock(StrOr(Get(message, ToolCallId), ""), StrOr(content, ""));
      out := Object(map[Role := Str("user"), Content := Array([result])]);
    }
  }

  method TranslateUserBlocks(blocks: seq<Value>) returns (out: seq<Value>)
    ensures out == UserBlocks(blocks)
  {
    out := [];
    for i := 0 to |blocks|
      invariant out == UserBlocks(blocks[..i])
    {
      CollectStep(UserBlock, blocks, i);
      if KindOf(blocks[i]) == "image_url" {
        var image := ImageBlock(StrOr(Get2(blocks[i], ImageUrl, Url), ""));
        if image.Some? {
          out := out + [image.value];
        }
      } else {
        out := out + [blocks[i]];
      }
    }
    assert blocks[..|blocks|] == blocks;
  }

  method TranslateCalls(codec: Codec, text: string, calls: seq<Value>) returns (content: seq<Value>)
    ensures content == TextBlocks(text) + CallsToBlocks(codec, calls)
  {
    content := [];
    if text != "" {
      content := content + [TextBlock(text)];
    }
    ghost var head, blocks := content, CallsToBlocks(codec, calls);
    for i := 0 to |calls|
      invariant content == head + blocks[..i]
    {
      var call := calls[i];
      var block := ToolUseBlock(CallId(call), CallName(call), CallArguments(codec, call));
      assert blocks[i] == block;
      content := content + [block];
    }
  }

  // ---- Replies: normalize_response ----------------------------------------------------------

  function TextPart(block: Value): seq<string> {
    match Get(block, Text)
    case Some(Str(text)) => if KindOf(block) == "text" then [text] else []
    case _ => []
  }

  function TextParts(blocks: seq<Value>): seq<string> { Collect(TextPart, blocks) }

  function ToolUses(blocks: seq<Value>): seq<Value> { Filter(IsToolUse, blocks) }

  function InputOf(block: Value): Value {
    match Get(block, Input)
    case Some(v) => v
    case None => Null
  }

  function BlockToCall(codec: Codec, block: Value): Value {
    Object(map[
      Id := Str(StrOr(Get(block, Id), "")),
      Type := Str("function"),
      Function := Object(map[
        Name := Str(StrOr(Get(block, Name), "")),
        Arguments := Str(codec.encode(InputOf(block)))])])
  }

  function BlocksToCalls(codec: Codec, blocks: seq<Value>): seq<Value> {
    seq(|blocks|, i requires 0 <= i < |blocks| => BlockToCall(codec, blocks[i]))
  }

  function ReplyText(response: Value): string { Join(TextParts(ItemsOf(Get(response, Content))), "") }

  /** Cache usage as the reply reports it. */
  function CacheOf(usage: Value): Value {
    var read := U64OrZero(Get(usage, Other("cache_read_input_tokens")));
    Object(map[
      Other("read_tokens") := Number(Unsigned(read)),
      Other("creation_tokens") := Number(Unsigned(U64OrZero(Get(usage, Other("cache_creation_input_tokens"))))),
      Other("hit") := Bool(read > 0)])
  }

  function UsageOf(response: Value): Value {
    match Get(response, Other("usage"))
    case Some(u) => u
    case None => Null
  }

  function NormalizedReply(codec: Codec, model: string, response: Value): Value {
    var text := ReplyText(response);
    var stop := StrOr(Get(response, Other("stop_reason")), "");
    Object(map[
      Model := Str(model),
      AssistantMessage := Str(text),
      ContentRaw := Str(text),
      Reasoning := Str(""),
      AssistantText := Str(text),
      ToolCalls := Array(BlocksToCalls(codec, ToolUses(ItemsOf(Get(response, Content))))),
      Other("stop_reason") := Str(stop),
      Other("finish_reason") := Str(if stop == "tool_use" then "tool_calls" else stop),
      Other("usage") := UsageOf(response),
      Other("cache") := CacheOf(UsageOf(response)),
      Other("raw") := response])
  }

  lemma NormalizeStep(codec: Codec, blocks: seq<Value>, i: nat)
    requires i < |blocks|
    ensures TextParts(blocks[..i + 1]) == TextParts(blocks[..i]) + TextPart(blocks[i])
    ensures BlocksToCalls(codec, ToolUses(blocks[..i + 1])) == BlocksToCalls(codec, ToolUses(blocks[..i]))
         + (if IsToolUse(blocks[i]) then [BlockToCall(codec, blocks[i])] else [])
  {
    CollectStep(TextPart, blocks, i);
    FilterStep(IsToolUse, blocks, i);
  }

  method NormalizeResponse(codec: Codec, model: string, response: Value) returns (reply: Value)
    ensures reply == NormalizedReply(codec, model, response)
  {
    var content := ItemsOf(Get(response, Content));
    var texts: seq<string>, calls: seq<Value> := [], [];
    for i := 0 to |content|
      invariant texts == TextParts(content[..i])
      invariant calls == BlocksToCalls(codec, ToolUses(content[..i]))
    {
      NormalizeStep(codec, content, i);
      var block := content[i];
      var kind := KindOf(block);
      if kind == "text" {
        var text := Get(block, Text);
        if text.Some? && text.value.Str? {
          texts := texts + [text.value.s];
        }
      } else if kind == "tool_use" {
        calls := calls + [BlockToCall(codec, block)];
      }
    }
    assert content[..|content|] == content;
    var stop := StrOr(Get(response, Other("stop_reason")), "");
    var finish := if stop == "tool_use" then "tool_calls" else stop;
    var usage := UsageOf(response);
    var cacheRead := U64OrZero(Get(usage, Other("cache_read_input_tokens")));
    var cacheCreation := U64OrZero(Get(usage, Other("cache_creation_input_tokens")));
    var cache := Object(map[
      Other("read_tokens") := Number(Unsigned(cacheRead)), Other("creation_tokens") := Number(Unsigned(cacheCreation)),
      Other("hit") := Bool(cacheRead > 0)]);
    var text := Join(texts, "");
    reply := Object(map[
      Model := Str(model), AssistantMessage := Str(text), ContentRaw := Str(text), Reasoning := Str(""),
      AssistantText := Str(text), ToolCalls := Array(calls), Other("stop_reason") := Str(stop),
      Other("finish_reason") := Str(finish), Other("usage") := usage, Other("cache") := cache,
      Other("raw") := response]);
  }
}
