/** Messages of a model request. */
module Conversation {
  import opened NeutralEvents

  datatype Source = Source(url: string, data: string, mediaType: string)

  datatype ContentPart = ContentPart(kind: string, text: string, signature: string, source: seq<Source>)

  datatype Message = Message(role: string, content: seq<ContentPart>, toolCalls: seq<ToolCall>, toolCallId: string)
}

/** A conversation as an Anthropic request (internal/infra/llmproxy/anthropic.go). */
module AnthropicRequest {
  import opened Collections
  import opened NeutralEvents
  import opened Conversation
  import opened Wrappers

  datatype Block =
    | TextBlock(text: string)
    | ThinkingBlock(text: string, signature: string)
    | LinkedBlock(kind: string, url: string)
    | InlineBlock(kind: string, mediaType: string, data: string)
    | ToolUse(id: string, name: string, input: string)
    | ToolResult(id: string, texts: seq<string>)

  datatype Turn = Turn(role: string, content: seq<Block>)

  datatype Payload = Payload(turns: seq<Turn>, system: seq<Block>)

  /** JSON decoding of tool arguments, which fails or gives a value. */
  type Decoder = string -> Result<string>

  // ----- The blocks of one message

  function SourceBlock(part: ContentPart, kind: string): Result<Block> {
    if part.source == [] then Err("source is required")
    else
      var source := part.source[0];
      if source.url != "" then Ok(LinkedBlock(kind, source.url))
      else if source.data == "" || source.mediaType == "" then Err("data and mediaType are required")
      else Ok(InlineBlock(kind, source.mediaType, source.data))
  }

  function PartBlock(part: ContentPart): Result<Block> {
    match part.kind
    case "text" => Ok(TextBlock(part.text))
    case "reasoning" => Ok(ThinkingBlock(part.text, part.signature))
    case "image" => SourceBlock(part, "image")
    case "file" => SourceBlock(part, "document")
    case _ => Err("unsupported Anthropic content type")
  }

  function CallBlock(decode: Decoder, call: ToolCall): Result<Block> {
    if call.arguments == "" then Ok(ToolUse(call.id, call.name, "{}"))
    else
      match decode(call.arguments)
      case Ok(input) => Ok(ToolUse(call.id, call.name, input))
      case Err(_) => Err("tool call arguments are not valid JSON")
  }

  function Texts(parts: seq<ContentPart>): seq<string> {
    if parts == [] then []
    else
      var last := parts[|parts| - 1];
      Texts(parts[..|parts| - 1]) + if last.kind == "text" then [last.text] else []
  }

  /** All the blocks, or the first error. */
  function Gathered(blocks: seq<Result<Block>>): Result<seq<Block>> {
    if blocks == [] then Ok([])
    else
      match Gathered(blocks[..|blocks| - 1])
      case Err(reason) => Err(reason)
      case Ok(front) =>
        match blocks[|blocks| - 1]
        case Err(reason) => Err(reason)
        case Ok(block) => Ok(front + [block])
  }

  function PartBlocks(parts: seq<ContentPart>): seq<Result<Block>> {
    if parts == [] then [] else PartBlocks(parts[..|parts| - 1]) + [PartBlock(parts[|parts| - 1])]
  }

  function CallBlocks(decode: Decoder, calls: seq<ToolCall>): seq<Result<Block>> {
    if calls == [] then [] else CallBlocks(decode, calls[..|calls| - 1]) + [CallBlock(decode, calls[|calls| - 1])]
  }

  function Blocks(decode: Decoder, m: Message): seq<Result<Block>> {
    if m.role == "tool" then [Ok(ToolResult(m.toolCallId, Texts(m.content)))]
    else PartBlocks(m.content) + CallBlocks(decode, m.toolCalls)
  }

  lemma GatheredNext(blocks: seq<Result<Block>>, block: Result<Block>)
    ensures Gathered(blocks + [block])
         == match Gathered(blocks)
            case Err(reason) => Err(reason)
            case Ok(front) => match block case Err(reason) => Err(reason) case Ok(last) => Ok(front + [last])
  {
    assert (blocks + [block])[..|blocks|] == blocks;
  }

  lemma {:induction false} GatheredConcat(a: seq<Result<Block>>, b: seq<Result<Block>>)
    ensures Gathered(a + b)
         == match Gathered(a)
            case Err(reason) => Err(reason)
            case Ok(front) => match Gathered(b) case Err(reason) => Err(reason) case Ok(back) => Ok(front + back)
  {
    if b == [] {
      assert a + b == a;
      assert Gathered(a).Ok? ==> Gathered(a).value + [] == Gathered(a).value;
    } else {
      var b', last := b[..|b| - 1], b[|b| - 1];
      GatheredConcat(a, b');
      GatheredNext(a + b', last);
      assert a + b == (a + b') + [last];
      if Gathered(a).Ok? && Gathered(b').Ok? && last.Ok? {
        Associative(Gathered(a).value, Gathered(b').value, [last.value]);
      }
    }
  }

  method AnthropicTextContent(parts: seq<ContentPart>) returns (result: seq<string>)
    ensures result == Texts(parts)
  {
    result := [];
    for i := 0 to |parts|
      invariant result == Texts(parts[..i])
    {
      if parts[i].kind == "text" {
        result := result + [parts[i].text];
      }
      assert parts[..i + 1][..i] == parts[..i];
    }
    assert parts[..|parts|] == parts;
  }

  method ContentBlocks(parts: seq<ContentPart>) returns (result: Result<seq<Block>>)
    ensures result == Gathered(PartBlocks(parts))
  {
    var content: seq<Block> := [];
    for i := 0 to |parts|
      invariant Gathered(PartBlocks(parts[..i])) == Ok(content)
    {
      assert parts[..i + 1][..i] == parts[..i];
      var block := PartBlock(parts[i]);
      GatheredNext(PartBlocks(parts[..i]), block);
      if block.Err? {
        PartErrorsStay(parts, i + 1);
        return Err(block.reason);
      }
      content := content + [block.value];
    }
    assert parts[..|parts|] == parts;
    return Ok(content);
  }

  method ToolUseBlocks(decode: Decoder, calls: seq<ToolCall>) returns (result: Result<seq<Block>>)
    ensures result == Gathered(CallBlocks(decode, calls))
  {
    var content: seq<Block> := [];
    for i := 0 to |calls|
      invariant Gathered(CallBlocks(decode, calls[..i])) == Ok(content)
    {
      assert calls[..i + 1][..i] == calls[..i];
      var block := CallBlock(decode, calls[i]);
      GatheredNext(CallBlocks(decode, calls[..i]), block);
      if block.Err? {
        CallErrorsStay(decode, calls, i + 1);
        return Err(block.reason);
      }
      content := content + [block.value];
    }
    assert calls[..|calls|] == calls;
    return Ok(content);
  }

  /** The blocks of a message, or the first error. */
  method AnthropicContent(decode: Decoder, m: Message) returns (result: Result<seq<Block>>)
    ensures result == Gathered(Blocks(decode, m))
  {
    if m.role == "tool" {
      var texts := AnthropicTextContent(m.content);
      var none: seq<Result<Block>> := [];
      GatheredNext(none, Ok(ToolResult(m.toolCallId, texts)));
      assert Blocks(decode, m) == none + [Ok(ToolResult(m.toolCallId, texts))];
      var content := [ToolResult(m.toolCallId, texts)];
      assert [] + content == content;
      return Ok(content);
    }
    GatheredConcat(PartBlocks(m.content), CallBlocks(decode, m.toolCalls));
    var content := ContentBlocks(m.content);
    if content.Err? {
      return content;
    }
    var calls := ToolUseBlocks(decode, m.toolCalls);
    if calls.Err? {
      return calls;
    }
    return Ok(content.value + calls.value);
  }

  lemma {:induction false} PartErrorsStay(parts: seq<ContentPart>, n: nat)
    requires n <= |parts| && Gathered(PartBlocks(parts[..n])).Err?
    ensures Gathered(PartBlocks(parts)) == Gathered(PartBlocks(parts[..n]))
  {
    if n == |parts| {
      assert parts[..n] == parts;
    } else {
      var front := parts[..|parts| - 1];
      assert front[..n] == parts[..n];
      PartErrorsStay(front, n);
      GatheredNext(PartBlocks(front), PartBlock(parts[|parts| - 1]));
    }
  }

  lemma {:induction false} CallErrorsStay(decode: Decoder, calls: seq<ToolCall>, n: nat)
    requires n <= |calls| && Gathered(CallBlocks(decode, calls[..n])).Err?
    ensures Gathered(CallBlocks(decode, calls)) == Gathered(CallBlocks(decode, calls[..n]))
  {
    if n == |calls| {
      assert calls[..n] == calls;
    } else {
      var front := calls[..|calls| - 1];
      assert front[..n] == calls[..n];
      CallErrorsStay(decode, front, n);
      GatheredNext(CallBlocks(decode, front), CallBlock(decode, calls[|calls| - 1]));
    }
  }

  // ----- The request

  predicate IsSystem(m: Message) {
    m.role == "system" || m.role == "developer"
  }

  function RoleOf(m: Message): string {
    if m.role == "tool" then "user" else m.role
  }

  /** A message joins the last turn when that has its role. */
  function Joined(p: Payload, m: Message, content: seq<Block>): Payload {
    if IsSystem(m) then p.(system := p.system + content)
    else if p.turns != [] && p.turns[|p.turns| - 1].role == RoleOf(m) then
      var n := |p.turns| - 1;
      p.(turns := p.turns[n := Turn(RoleOf(m), p.turns[n].content + content)])
    else p.(turns := p.turns + [Turn(RoleOf(m), content)])
  }

  function Request(decode: Decoder, messages: seq<Message>): Result<Payload> {
    if messages == [] then Ok(Payload([], []))
    else
      match Request(decode, messages[..|messages| - 1])
      case Err(reason) => Err(reason)
      case Ok(p) =>
        match Gathered(Blocks(decode, messages[|messages| - 1]))
        case Err(reason) => Err(reason)
        case Ok(content) => Ok(Joined(p, messages[|messages| - 1], content))
  }

  lemma RequestNext(decode: Decoder, messages: seq<Message>, m: Message)
    ensures Request(decode, messages + [m])
         == match Request(decode, messages)
            case Err(reason) => Err(reason)
            case Ok(p) => match Gathered(Blocks(decode, m)) case Err(reason) => Err(reason) case Ok(content) => Ok(Joined(p, m, content))
  {
    assert (messages + [m])[..|messages|] == messages;
  }

  predicate Built(decode: Decoder, messages: seq<Message>, p: Payload) {
    Request(decode, messages) == Ok(p)
  }

  lemma BuiltNext(decode: Decoder, messages: seq<Message>, m: Message, p: Payload)
    requires Built(decode, messages, p)
    ensures match Gathered(Blocks(decode, m))
            case Err(reason) => Request(decode, messages + [m]) == Err(reason)
            case Ok(content) => Built(decode, messages + [m], Joined(p, m, content))
  {
    RequestNext(decode, messages, m);
  }

  class RequestBuilder {
    var turns: seq<Turn>
    var system: seq<Block>

    constructor ()
      ensures turns == [] && system == []
    {
      turns, system := [], [];
    }

    method Join(m: Message, content: seq<Block>)
      modifies this
      ensures Payload(turns, system) == Joined(old(Payload(turns, system)), m, content)
    {
      if m.role == "system" || m.role == "developer" {
        system := system + content;
        return;
      }
      var role := m.role;
      if role == "tool" {
        role := "user";
      }
      if turns != [] && turns[|turns| - 1].role == role {
        var last := turns[|turns| - 1];
        turns := turns[|turns| - 1 := last.(content := last.content + content)];
        return;
      }
      turns := turns + [Turn(role, content)];
    }
  }

  method BuildRequest(decode: Decoder, messages: seq<Message>) returns (result: Result<Payload>)
    ensures result == Request(decode, messages)
  {
    var builder := new RequestBuilder();
    assert messages[..0] == [];
    for i := 0 to |messages|
      invariant Built(decode, messages[..i], Payload(builder.turns, builder.system))
    {
      var content := AnthropicContent(decode, messages[i]);
      assert messages[..i + 1] == messages[..i] + [messages[i]];
      BuiltNext(decode, messages[..i], messages[i], Payload(builder.turns, builder.system));
      if content.Err? {
        RequestErrorsStay(decode, messages, i + 1);
        return Err(content.reason);
      }
      builder.Join(messages[i], content.value);
    }
    assert messages[..|messages|] == messages;
    return Ok(Payload(builder.turns, builder.system));
  }

  lemma {:induction false} RequestErrorsStay(decode: Decoder, messages: seq<Message>, n: nat)
    requires n <= |messages| && Request(decode, messages[..n]).Err?
    ensures Request(decode, messages) == Request(decode, messages[..n])
  {
    if n == |messages| {
      assert messages[..n] == messages;
    } else {
      var front := messages[..|messages| - 1];
      assert front[..n] == messages[..n];
      RequestErrorsStay(decode, front, n);
    }
  }

  // ----- What the request says

  datatype Said = Said(role: string, block: Block)

  function SaidBy(role: string, blocks: seq<Block>): seq<Said> {
    seq(|blocks|, i requires 0 <= i < |blocks| => Said(role, blocks[i]))
  }

  function SaidInTurns(turns: seq<Turn>): seq<Said> {
    if turns == [] then []
    else
      var last := turns[|turns| - 1];
      SaidInTurns(turns[..|turns| - 1]) + SaidBy(last.role, last.content)
  }

  function BlocksOf(decode: Decoder, m: Message): seq<Block> {
    match Gathered(Blocks(decode, m)) case Ok(content) => content case Err(_) => []
  }

  /** The blocks of the conversation with the role they are said in, system blocks left out. */
  function SaidIn(decode: Decoder, messages: seq<Message>): seq<Said> {
    if messages == [] then []
    else
      var m := messages[|messages| - 1];
      SaidIn(decode, messages[..|messages| - 1]) + if IsSystem(m) then [] else SaidBy(RoleOf(m), BlocksOf(decode, m))
  }

  function SystemIn(decode: Decoder, messages: seq<Message>): seq<Block> {
    if messages == [] then []
    else
      var m := messages[|messages| - 1];
      SystemIn(decode, messages[..|messages| - 1]) + if IsSystem(m) then BlocksOf(decode, m) else []
  }

  /** The roles of the conversation, each run of one role counted once. */
  function Speakers(messages: seq<Message>): seq<string> {
    if messages == [] then []
    else
      var front, m := Speakers(messages[..|messages| - 1]), messages[|messages| - 1];
      if IsSystem(m) || (front != [] && front[|front| - 1] == RoleOf(m)) then front else front + [RoleOf(m)]
  }

  function Roles(turns: seq<Turn>): (r: seq<string>)
    ensures |r| == |turns|
  {
    seq(|turns|, i requires 0 <= i < |turns| => turns[i].role)
  }

  predicate NoRepeatedRole(turns: seq<Turn>) {
    forall i :: 0 < i < |turns| ==> Distinct(turns, i)
  }

  predicate Distinct(turns: seq<Turn>, i: int)
    requires 0 < i < |turns|
  {
    turns[i - 1].role != turns[i].role
  }

  lemma SaidByConcat(role: string, a: seq<Block>, b: seq<Block>)
    ensures SaidBy(role, a + b) == SaidBy(role, a) + SaidBy(role, b)
  {
  }

  lemma JoinedSays(p: Payload, m: Message, content: seq<Block>)
    requires !IsSystem(m)
    ensures SaidInTurns(Joined(p, m, content).turns) == SaidInTurns(p.turns) + SaidBy(RoleOf(m), content)
  {
    var n := |p.turns| - 1;
    var turns' := Joined(p, m, content).turns;
    if p.turns != [] && p.turns[n].role == RoleOf(m) {
      var front := p.turns[..n];
      assert turns'[..n] == front;
      SaidByConcat(RoleOf(m), p.turns[n].content, content);
      Associative(SaidInTurns(front), SaidBy(RoleOf(m), p.turns[n].content), SaidBy(RoleOf(m), content));
    } else {
      assert turns'[..|p.turns|] == p.turns;
    }
  }

  lemma JoinedSpeaks(p: Payload, m: Message, content: seq<Block>)
    requires !IsSystem(m) && NoRepeatedRole(p.turns)
    ensures var turns' := Joined(p, m, content).turns;
            && NoRepeatedRole(turns')
            && Roles(turns') == if p.turns != [] && p.turns[|p.turns| - 1].role == RoleOf(m) then Roles(p.turns) else Roles(p.turns) + [RoleOf(m)]
  {
    var turns' := Joined(p, m, content).turns;
    forall i | 0 < i < |turns'|
      ensures Distinct(turns', i)
    {
      assert i < |p.turns| ==> Distinct(p.turns, i);
    }
  }

  ghost predicate SaysTheSame(decode: Decoder, messages: seq<Message>, p: Payload) {
    && NoRepeatedRole(p.turns)
    && Roles(p.turns) == Speakers(messages)
    && SaidInTurns(p.turns) == SaidIn(decode, messages)
    && p.system == SystemIn(decode, messages)
  }

  lemma JoinedSaysTheSame(decode: Decoder, messages: seq<Message>, m: Message, p: Payload)
    requires SaysTheSame(decode, messages, p)
    ensures SaysTheSame(decode, messages + [m], Joined(p, m, BlocksOf(decode, m)))
  {
    assert (messages + [m])[..|messages|] == messages;
    if !IsSystem(m) {
      JoinedSays(p, m, BlocksOf(decode, m));
      JoinedSpeaks(p, m, BlocksOf(decode, m));
    }
  }

  ghost predicate Sound(decode: Decoder, messages: seq<Message>) {
    Request(decode, messages).Ok? ==> SaysTheSame(decode, messages, Request(decode, messages).value)
  }

  lemma NextIsSound(decode: Decoder, messages: seq<Message>, m: Message)
    requires Sound(decode, messages)
    ensures Sound(decode, messages + [m])
  {
    RequestNext(decode, messages, m);
    if Request(decode, messages + [m]).Ok? {
      JoinedSaysTheSame(decode, messages, m, Request(decode, messages).value);
    }
  }

  lemma {:induction false} EveryRequestIsSound(decode: Decoder, messages: seq<Message>)
    ensures Sound(decode, messages)
  {
    if messages != [] {
      var front, m := messages[..|messages| - 1], messages[|messages| - 1];
      EveryRequestIsSound(decode, front);
      NextIsSound(decode, front, m);
      assert front + [m] == messages;
    }
  }

  /** No two turns in a row have one role; every block is said once, in order, in its own role; the system
      blocks are those of the system and developer messages. */
  lemma RequestSaysTheSame(decode: Decoder, messages: seq<Message>)
    requires Request(decode, messages).Ok?
    ensures var p := Request(decode, messages).value;
            && NoRepeatedRole(p.turns)
            && Roles(p.turns) == Speakers(messages)
            && SaidInTurns(p.turns) == SaidIn(decode, messages)
            && p.system == SystemIn(decode, messages)
  {
    EveryRequestIsSound(decode, messages);
  }

  // ----- What makes a request fail

  /** A part of a kind with no block, or an image or a file without a link and without its data. */
  predicate CannotSay(part: ContentPart) {
    match part.kind
    case "text" => false
    case "reasoning" => false
    case "image" => !HasSource(part)
    case "file" => !HasSource(part)
    case _ => true
  }

  predicate HasSource(part: ContentPart) {
    part.source != [] && (part.source[0].url != "" || (part.source[0].data != "" && part.source[0].mediaType != ""))
  }

  /** A call whose arguments are not JSON. */
  predicate CannotCall(decode: Decoder, call: ToolCall) {
    call.arguments != "" && decode(call.arguments).Err?
  }

  /** A message that is no tool result and has a part or a call that cannot be expressed. */
  ghost predicate Refuses(decode: Decoder, m: Message) {
    m.role != "tool"
    && ((exists part :: part in m.content && CannotSay(part)) || (exists call :: call in m.toolCalls && CannotCall(decode, call)))
  }

  lemma {:induction false} PartsRefusedIff(parts: seq<ContentPart>)
    ensures Gathered(PartBlocks(parts)).Err? <==> exists part :: part in parts && CannotSay(part)
  {
    if parts != [] {
      var front, last := parts[..|parts| - 1], parts[|parts| - 1];
      PartsRefusedIff(front);
      GatheredNext(PartBlocks(front), PartBlock(last));
      assert last in parts && forall part :: part in parts <==> part in front || part == last;
    }
  }

  lemma {:induction false} CallsRefusedIff(decode: Decoder, calls: seq<ToolCall>)
    ensures Gathered(CallBlocks(decode, calls)).Err? <==> exists call :: call in calls && CannotCall(decode, call)
  {
    if calls != [] {
      var front, last := calls[..|calls| - 1], calls[|calls| - 1];
      CallsRefusedIff(decode, front);
      GatheredNext(CallBlocks(decode, front), CallBlock(decode, last));
      assert last in calls && forall call :: call in calls <==> call in front || call == last;
    }
  }

  lemma MessageRefusedIff(decode: Decoder, m: Message)
    ensures Gathered(Blocks(decode, m)).Err? <==> Refuses(decode, m)
  {
    if m.role == "tool" {
      GatheredNext([], Ok(ToolResult(m.toolCallId, Texts(m.content))));
      assert Blocks(decode, m) == [] + [Ok(ToolResult(m.toolCallId, Texts(m.content)))];
    } else {
      GatheredConcat(PartBlocks(m.content), CallBlocks(decode, m.toolCalls));
      PartsRefusedIff(m.content);
      CallsRefusedIff(decode, m.toolCalls);
    }
  }

  ghost predicate SomeRefused(decode: Decoder, messages: seq<Message>) {
    exists m :: m in messages && Refuses(decode, m)
  }

  lemma NextRefused(decode: Decoder, messages: seq<Message>, m: Message)
    requires Request(decode, messages).Err? <==> SomeRefused(decode, messages)
    ensures Request(decode, messages + [m]).Err? <==> SomeRefused(decode, messages + [m])
  {
    RequestNext(decode, messages, m);
    MessageRefusedIff(decode, m);
    assert m in messages + [m];
    assert forall other :: other in messages + [m] <==> other in messages || other == m;
  }

  /** A request is refused exactly when some message has a part or a call that cannot be expressed. */
  lemma {:induction false} RefusedIff(decode: Decoder, messages: seq<Message>)
    ensures Request(decode, messages).Err? <==> SomeRefused(decode, messages)
  {
    if messages != [] {
      var front, last := messages[..|messages| - 1], messages[|messages| - 1];
      assert front + [last] == messages;
      RefusedIff(decode, front);
      NextRefused(decode, front, last);
    }
  }
}

/** Responses input items as a conversation (internal/interfaces/http/openai_compat.go). */
module ResponsesInput {
  import opened Collections
  import opened NeutralEvents
  import opened Conversation
  import opened Wrappers

  const ASSISTANT := "assistant"

  /** An input item after its own conversion; an item that cannot be converted is refused. */
  datatype Item = Converted(message: Message) | FunctionCall(call: ToolCall) | FunctionOutput(callId: string, text: string) | Refused

  function Appended(messages: seq<Message>, m: Message): seq<Message> {
    var n := |messages| - 1;
    if m.role != ASSISTANT || messages == [] || messages[n].role != ASSISTANT then messages + [m]
    else messages[n := messages[n].(content := messages[n].content + m.content, toolCalls := messages[n].toolCalls + m.toolCalls)]
  }

  function ItemMessage(item: Item): Message
    requires !item.Refused?
  {
    match item
    case Converted(m) => m
    case FunctionCall(call) => Message(ASSISTANT, [], [call], "")
    case FunctionOutput(id, text) => Message("tool", [ContentPart("text", text, "", [])], [], id)
  }

  function Messages(items: seq<Item>): Result<seq<Message>> {
    if items == [] then Ok([])
    else
      match Messages(items[..|items| - 1])
      case Err(reason) => Err(reason)
      case Ok(front) =>
        if items[|items| - 1].Refused? then Err("unsupported Responses input item")
        else Ok(Appended(front, ItemMessage(items[|items| - 1])))
  }

  class MessageList {
    var messages: seq<Message>

    constructor ()
      ensures messages == []
    {
      messages := [];
    }

    method Append(m: Message)
      modifies this
      ensures messages == Appended(old(messages), m)
    {
      if m.role != ASSISTANT || messages == [] || messages[|messages| - 1].role != ASSISTANT {
        messages := messages + [m];
        return;
      }
      var last := messages[|messages| - 1];
      last := last.(content := last.content + m.content);
      last := last.(toolCalls := last.toolCalls + m.toolCalls);
      messages := messages[|messages| - 1 := last];
    }
  }

  method ToNeutral(items: seq<Item>) returns (result: Result<seq<Message>>)
    ensures result == Messages(items)
  {
    var list := new MessageList();
    for i := 0 to |items|
      invariant Messages(items[..i]) == Ok(list.messages)
    {
      assert items[..i + 1][..i] == items[..i];
      match items[i]
      case Converted(m) => list.Append(m);
      case FunctionCall(call) => list.Append(Message(ASSISTANT, [], [call], ""));
      case FunctionOutput(id, text) =>
        list.messages := list.messages + [Message("tool", [ContentPart("text", text, "", [])], [], id)];
      case Refused =>
        RefusalStays(items, i + 1);
        return Err("unsupported Responses input item");
    }
    assert items[..|items|] == items;
    return Ok(list.messages);
  }

  lemma {:induction false} RefusalStays(items: seq<Item>, n: nat)
    requires n <= |items| && Messages(items[..n]).Err?
    ensures Messages(items) == Messages(items[..n])
  {
    if n == |items| {
      assert items[..n] == items;
    } else {
      var front := items[..|items| - 1];
      assert front[..n] == items[..n];
      RefusalStays(front, n);
    }
  }

  // ----- What the conversation says

  /** A message of another role, or one piece of what the assistant says between two of them. */
  datatype Token = Whole(message: Message) | Said(part: ContentPart) | Called(call: ToolCall)

  function Contents(m: Message): seq<Token> {
    if m.role != ASSISTANT then [Whole(m)] else seq(|m.content|, i requires 0 <= i < |m.content| => Said(m.content[i]))
  }

  function Calls(m: Message): seq<Token> {
    if m.role != ASSISTANT then [Whole(m)] else seq(|m.toolCalls|, i requires 0 <= i < |m.toolCalls| => Called(m.toolCalls[i]))
  }

  function Flat(tokens: Message -> seq<Token>, messages: seq<Message>): seq<Token> {
    if messages == [] then [] else Flat(tokens, messages[..|messages| - 1]) + tokens(messages[|messages| - 1])
  }

  function FlatItems(tokens: Message -> seq<Token>, items: seq<Item>): seq<Token> {
    if items == [] then []
    else
      var last := items[|items| - 1];
      FlatItems(tokens, items[..|items| - 1]) + if last.Refused? then [] else tokens(ItemMessage(last))
  }

  predicate NoRepeatedAssistant(messages: seq<Message>) {
    forall i :: 0 < i < |messages| ==> !BothAssistant(messages, i)
  }

  predicate BothAssistant(messages: seq<Message>, i: int)
    requires 0 < i < |messages|
  {
    messages[i - 1].role == ASSISTANT && messages[i].role == ASSISTANT
  }

  lemma AppendedSays(tokens: Message -> seq<Token>, messages: seq<Message>, m: Message)
    requires tokens == Contents || tokens == Calls
    ensures Flat(tokens, Appended(messages, m)) == Flat(tokens, messages) + tokens(m)
  {
    var n := |messages| - 1;
    var all := Appended(messages, m);
    if m.role != ASSISTANT || messages == [] || messages[n].role != ASSISTANT {
      assert all[..|messages|] == messages;
    } else {
      assert all[..n] == messages[..n];
      assert tokens(all[n]) == tokens(messages[n]) + tokens(m);
      Associative(Flat(tokens, messages[..n]), tokens(messages[n]), tokens(m));
    }
  }

  lemma AppendedKeepsRuns(messages: seq<Message>, m: Message)
    requires NoRepeatedAssistant(messages)
    ensures NoRepeatedAssistant(Appended(messages, m))
  {
    var all := Appended(messages, m);
    forall i | 0 < i < |all|
      ensures !BothAssistant(all, i)
    {
      assert i < |messages| ==> !BothAssistant(messages, i);
    }
  }

  /** No two assistant messages stand in a row, and between the other messages, which are unchanged, the
      assistant's content and its tool calls each keep their order. */
  lemma {:induction false} ConversationSaysTheSame(items: seq<Item>)
    requires Messages(items).Ok?
    ensures var messages := Messages(items).value;
            && NoRepeatedAssistant(messages)
            && Flat(Contents, messages) == FlatItems(Contents, items)
            && Flat(Calls, messages) == FlatItems(Calls, items)
  {
    if items != [] {
      var front, m := items[..|items| - 1], ItemMessage(items[|items| - 1]);
      ConversationSaysTheSame(front);
      AppendedKeepsRuns(Messages(front).value, m);
      AppendedSays(Contents, Messages(front).value, m);
      AppendedSays(Calls, Messages(front).value, m);
    }
  }
}
