/** What an Anthropic request says of its conversation. */
module RequestMeaning {
  import opened Collections
  import opened NeutralEvents
  import opened Conversation
  import opened AnthropicRequest
  import opened Wrappers

  /** The block carries the part's own fields: its text, its text and signature, its link, or its data. */
  predicate SaysPart(block: Block, part: ContentPart) {
    match block
    case TextBlock(text) => part.kind == "text" && text == part.text
    case ThinkingBlock(text, signature) => part.kind == "reasoning" && text == part.text && signature == part.signature
    case LinkedBlock(kind, url) => SaysFile(kind, part) && part.source != [] && url == part.source[0].url != ""
    case InlineBlock(kind, mediaType, data) =>
      SaysFile(kind, part) && part.source != [] && part.source[0].url == ""
      && mediaType == part.source[0].mediaType != "" && data == part.source[0].data != ""
    case ToolUse(_, _, _) => false
    case ToolResult(_, _) => false
  }

  predicate SaysFile(kind: string, part: ContentPart) {
    (kind == "image" && part.kind == "image") || (kind == "document" && part.kind == "file")
  }

  /** The block carries the call's id, its name and the value of its arguments, an empty object when there are none. */
  predicate SaysCall(decode: Decoder, block: Block, call: ToolCall) {
    block.ToolUse? && block.id == call.id && block.name == call.name
    && if call.arguments == "" then block.input == "{}" else decode(call.arguments) == Ok(block.input)
  }

  /** The blocks of a message say its parts and then its calls, one each; a tool message is one result with its texts. */
  ghost predicate SaysMessage(decode: Decoder, blocks: seq<Block>, m: Message) {
    if m.role == "tool" then
      |blocks| == 1 && blocks[0].ToolResult? && blocks[0].id == m.toolCallId && AreTexts(blocks[0].texts, m.content)
    else
      && |blocks| == |m.content| + |m.toolCalls|
      && (forall i :: 0 <= i < |m.content| ==> SaysPart(blocks[i], m.content[i]))
      && (forall i :: 0 <= i < |m.toolCalls| ==> SaysCall(decode, blocks[|m.content| + i], m.toolCalls[i]))
  }

  /** The texts of the text parts, in order. */
  predicate AreTexts(texts: seq<string>, parts: seq<ContentPart>) {
    if parts == [] then texts == []
    else
      var n := |parts| - 1;
      if parts[n].kind == "text" then texts != [] && texts[|texts| - 1] == parts[n].text && AreTexts(texts[..|texts| - 1], parts[..n])
      else AreTexts(texts, parts[..n])
  }

  lemma {:induction false} TextsAre(parts: seq<ContentPart>)
    ensures AreTexts(Texts(parts), parts)
  {
    if parts != [] {
      var front, last := parts[..|parts| - 1], parts[|parts| - 1];
      TextsAre(front);
      if last.kind == "text" {
        assert Texts(parts)[..|Texts(parts)| - 1] == Texts(front);
      } else {
        assert Texts(parts) == Texts(front);
      }
    }
  }

  lemma PartIsSaid(part: ContentPart)
    ensures PartBlock(part).Ok? ==> SaysPart(PartBlock(part).value, part)
  {
  }

  lemma {:induction false} PartsAreSaid(parts: seq<ContentPart>)
    ensures var gathered := Gathered(PartBlocks(parts));
            gathered.Ok? ==> |gathered.value| == |parts| && forall i :: 0 <= i < |parts| ==> SaysPart(gathered.value[i], parts[i])
  {
    if parts != [] {
      var front, last := parts[..|parts| - 1], parts[|parts| - 1];
      PartsAreSaid(front);
      GatheredNext(PartBlocks(front), PartBlock(last));
      PartIsSaid(last);
    }
  }

  lemma {:induction false} CallsAreSaid(decode: Decoder, calls: seq<ToolCall>)
    ensures var gathered := Gathered(CallBlocks(decode, calls));
            gathered.Ok? ==> |gathered.value| == |calls| && forall i :: 0 <= i < |calls| ==> SaysCall(decode, gathered.value[i], calls[i])
  {
    if calls != [] {
      var front, last := calls[..|calls| - 1], calls[|calls| - 1];
      CallsAreSaid(decode, front);
      GatheredNext(CallBlocks(decode, front), CallBlock(decode, last));
    }
  }

  /** Every block of a message carries what the part or the call in its place says. */
  lemma MessageIsSaid(decode: Decoder, m: Message)
    requires Gathered(Blocks(decode, m)).Ok?
    ensures SaysMessage(decode, BlocksOf(decode, m), m)
  {
    if m.role == "tool" {
      var result: Result<Block> := Ok(ToolResult(m.toolCallId, Texts(m.content)));
      GatheredNext([], result);
      assert Blocks(decode, m) == [] + [result];
      TextsAre(m.content);
    } else {
      GatheredConcat(PartBlocks(m.content), CallBlocks(decode, m.toolCalls));
      PartsAreSaid(m.content);
      CallsAreSaid(decode, m.toolCalls);
    }
  }

  /** What a conversation says when the blocks of its messages are given: everything but the system blocks, in the role of
      its message, a tool's result as the user. */
  function Sayings(messages: seq<Message>, blocks: seq<seq<Block>>): seq<Said>
    requires |blocks| == |messages|
  {
    if messages == [] then []
    else
      var n := |messages| - 1;
      var role := messages[n].role;
      Sayings(messages[..n], blocks[..n])
      + if role in ["system", "developer"] then [] else SaidBy(if role == "tool" then "user" else role, blocks[n])
  }

  function SystemBlocks(messages: seq<Message>, blocks: seq<seq<Block>>): seq<Block>
    requires |blocks| == |messages|
  {
    if messages == [] then []
    else
      var n := |messages| - 1;
      SystemBlocks(messages[..n], blocks[..n]) + if messages[n].role in ["system", "developer"] then blocks[n] else []
  }

  ghost predicate AllSaid(decode: Decoder, messages: seq<Message>, blocks: seq<seq<Block>>) {
    |blocks| == |messages| && forall i :: 0 <= i < |messages| ==> SaysMessage(decode, blocks[i], messages[i])
  }

  ghost predicate IsSaid(decode: Decoder, messages: seq<Message>, blocks: seq<seq<Block>>) {
    && AllSaid(decode, messages, blocks)
    && SaidIn(decode, messages) == Sayings(messages, blocks) && SystemIn(decode, messages) == SystemBlocks(messages, blocks)
  }

  lemma SayingsNext(messages: seq<Message>, blocks: seq<seq<Block>>, m: Message, more: seq<Block>)
    requires |blocks| == |messages|
    ensures Sayings(messages + [m], blocks + [more])
         == Sayings(messages, blocks)
            + if m.role in ["system", "developer"] then [] else SaidBy(if m.role == "tool" then "user" else m.role, more)
    ensures SystemBlocks(messages + [m], blocks + [more])
         == SystemBlocks(messages, blocks) + if m.role in ["system", "developer"] then more else []
  {
    assert (messages + [m])[..|messages|] == messages && (blocks + [more])[..|blocks|] == blocks;
  }

  lemma SaidNext(decode: Decoder, messages: seq<Message>, m: Message)
    ensures SaidIn(decode, messages + [m])
         == SaidIn(decode, messages) + if IsSystem(m) then [] else SaidBy(RoleOf(m), BlocksOf(decode, m))
    ensures SystemIn(decode, messages + [m]) == SystemIn(decode, messages) + if IsSystem(m) then BlocksOf(decode, m) else []
  {
    assert (messages + [m])[..|messages|] == messages;
  }

  lemma NextIsSaid(decode: Decoder, front: seq<Message>, last: Message, before: seq<seq<Block>>)
    requires IsSaid(decode, front, before) && Gathered(Blocks(decode, last)).Ok?
    ensures IsSaid(decode, front + [last], before + [BlocksOf(decode, last)])
  {
    MessageIsSaid(decode, last);
    SayingsNext(front, before, last, BlocksOf(decode, last));
    SaidNext(decode, front, last);
  }

  lemma {:induction false} ConversationIsSaid(decode: Decoder, messages: seq<Message>) returns (blocks: seq<seq<Block>>)
    requires Request(decode, messages).Ok?
    ensures IsSaid(decode, messages, blocks)
  {
    if messages == [] {
      blocks := [];
    } else {
      var front, last := messages[..|messages| - 1], messages[|messages| - 1];
      assert messages == front + [last];
      RequestNext(decode, front, last);
      var before := ConversationIsSaid(decode, front);
      NextIsSaid(decode, front, last, before);
      blocks := before + [BlocksOf(decode, last)];
    }
  }

  /** A request says its conversation: there are blocks for every message, each carrying the part or the call in its place,
      and the turns say all of them but the system ones, once, in order, in the role of their message, a tool's result as
      the user; the system blocks are those of system and developer messages. */
  lemma RequestIsConversation(decode: Decoder, messages: seq<Message>) returns (blocks: seq<seq<Block>>)
    requires Request(decode, messages).Ok?
    ensures AllSaid(decode, messages, blocks)
    ensures var p := Request(decode, messages).value;
            SaidInTurns(p.turns) == Sayings(messages, blocks) && p.system == SystemBlocks(messages, blocks)
  {
    blocks := ConversationIsSaid(decode, messages);
    RequestSaysTheSame(decode, messages);
  }
}

/** What a conversation says of the Responses input items it was made of. */
module InputMeaning {
  import opened Collections
  import opened Conversation
  import opened ResponsesInput
  import opened Wrappers

  /** What one item adds to the content: the parts of an assistant message, a whole message of another role, or the output
      of a call as a tool message with one text. */
  function ContentOf(item: Item): seq<Token> {
    match item
    case Converted(m) =>
      if m.role == "assistant" then seq(|m.content|, i requires 0 <= i < |m.content| => Said(m.content[i])) else [Whole(m)]
    case FunctionCall(_) => []
    case FunctionOutput(id, text) => [Whole(Message("tool", [ContentPart("text", text, "", [])], [], id))]
    case Refused => []
  }

  /** What one item adds to the calls. */
  function CallsOf(item: Item): seq<Token> {
    match item
    case Converted(m) =>
      if m.role == "assistant" then seq(|m.toolCalls|, i requires 0 <= i < |m.toolCalls| => Called(m.toolCalls[i])) else [Whole(m)]
    case FunctionCall(call) => [Called(call)]
    case FunctionOutput(id, text) => [Whole(Message("tool", [ContentPart("text", text, "", [])], [], id))]
    case Refused => []
  }

  function ContentOfAll(items: seq<Item>): seq<Token> {
    if items == [] then [] else ContentOfAll(items[..|items| - 1]) + ContentOf(items[|items| - 1])
  }

  function CallsOfAll(items: seq<Item>): seq<Token> {
    if items == [] then [] else CallsOfAll(items[..|items| - 1]) + CallsOf(items[|items| - 1])
  }

  lemma ItemIsSaid(item: Item)
    requires !item.Refused?
    ensures Contents(ItemMessage(item)) == ContentOf(item) && Calls(ItemMessage(item)) == CallsOf(item)
  {
  }

  lemma {:induction false} ItemsAreSaid(items: seq<Item>)
    requires forall item :: item in items ==> !item.Refused?
    ensures FlatItems(Contents, items) == ContentOfAll(items) && FlatItems(Calls, items) == CallsOfAll(items)
  {
    if items != [] {
      ItemsAreSaid(items[..|items| - 1]);
      ItemIsSaid(items[|items| - 1]);
    }
  }

  lemma {:induction false} RefusedIff(items: seq<Item>)
    ensures Messages(items).Err? <==> Refused in items
  {
    if items != [] {
      var front, last := items[..|items| - 1], items[|items| - 1];
      RefusedIff(front);
      assert items == front + [last];
    }
  }

  /** Items become a conversation exactly when none of them is refused, and then the conversation says all of them in their
      order: messages of other roles whole, and between them the assistant's parts and its calls. */
  lemma ConversationIsItems(items: seq<Item>)
    ensures Messages(items).Ok? <==> Refused !in items
    ensures Messages(items).Ok? ==> Flat(Contents, Messages(items).value) == ContentOfAll(items)
                                    && Flat(Calls, Messages(items).value) == CallsOfAll(items)
  {
    RefusedIff(items);
    if Messages(items).Ok? {
      ConversationSaysTheSame(items);
      ItemsAreSaid(items);
    }
  }
}
