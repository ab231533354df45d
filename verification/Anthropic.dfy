/** An Anthropic message stream accumulated into a response while it is passed on
    (internal/infra/llmproxy/anthropic.go). */
module Anthropic {
  import opened Collections
  import opened NeutralEvents
  import opened ToolArguments

  /** A content block; only a tool block has a call. */
  datatype Block = Block(kind: Kind, text: string, call: ToolCall)

  datatype Content = TextContent(text: string) | Thinking(text: string) | Signature | Json(text: string) | Unknown

  datatype Message =
    | MessageStart
    | BlockStart(index: int, block: Block)
    | BlockDelta(index: int, content: Content)
    | MessageStop
    | Failure
    | Ignored

  type Blocks = map<int, Block>

  function ToPart(block: Block): Part {
    match block.kind
    case TextKind => Text(block.text)
    case RefusalKind => Refusal(block.text)
    case ReasoningKind => Reasoning(block.text)
    case ToolCallKind => Tool(block.call)
    case MetadataKind => Metadata
  }

  // ----- One message

  function Grown(block: Block, content: Content): Block {
    match content
    case TextContent(text) => block.(text := block.text + text)
    case Thinking(text) => block.(text := block.text + text)
    case Json(text) =>
      if block.kind.ToolCallKind? then
        block.(call := block.call.(arguments := Appended(Accumulated(block.call.arguments, ""), text).arguments))
      else block
    case _ => block
  }

  function DeltaEvents(index: int, block: Block, content: Content): seq<Event> {
    match content
    case TextContent(text) => [TextDelta(index, text)]
    case Thinking(text) => [ReasoningDelta(index, text)]
    case Json(text) =>
      var forward := Appended(Accumulated(block.call.arguments, ""), text).forwarded;
      if block.kind.ToolCallKind? && forward != "" then [ArgumentsDelta(index, forward)] else []
    case _ => []
  }

  function BlocksAfter(blocks: Blocks, m: Message): Blocks {
    match m
    case BlockStart(index, block) => blocks[index := block]
    case BlockDelta(index, content) =>
      if index in blocks then blocks[index := Grown(blocks[index], content)] else blocks
    case _ => blocks
  }

  function EventsFor(blocks: Blocks, m: Message): seq<Event> {
    match m
    case MessageStart => [Created]
    case BlockStart(index, block) => [Added(index, ToPart(block))]
    case BlockDelta(index, content) => if index in blocks then DeltaEvents(index, blocks[index], content) else []
    case MessageStop => [Completed(Output(blocks, |blocks|))]
    case Failure => [Error]
    case Ignored => []
  }

  /** The final loop looks for blocks under as many indexes as there are blocks, counting from zero. */
  function Output(blocks: Blocks, n: nat): seq<Part> {
    if n == 0 then []
    else Output(blocks, n - 1) + if n - 1 in blocks then [ToPart(blocks[n - 1])] else []
  }

  predicate Stops(m: Message) {
    m.MessageStop? || m.Failure?
  }

  class AnthropicStream {
    var parts: Blocks
    var events: seq<Event>

    constructor ()
      ensures parts == map[] && events == []
    {
      parts, events := map[], [];
    }

    method ConsumeDelta(index: int, content: Content)
      modifies this
      ensures parts == BlocksAfter(old(parts), BlockDelta(index, content))
      ensures events == old(events) + EventsFor(old(parts), BlockDelta(index, content))
    {
      if index !in parts {
        return;
      }
      var part := parts[index];
      match content
      case TextContent(text) =>
        parts := parts[index := part.(text := part.text + text)];
        events := events + [TextDelta(index, text)];
      case Thinking(text) =>
        parts := parts[index := part.(text := part.text + text)];
        events := events + [ReasoningDelta(index, text)];
      case Json(text) =>
        if !part.kind.ToolCallKind? {
          return;
        }
        var arguments, forward := AppendToolArguments(part.call.arguments, text);
        assert Appended(Accumulated(part.call.arguments, ""), text) == Accumulated(arguments, "" + forward);
        assert "" + forward == forward;
        parts := parts[index := part.(call := part.call.(arguments := arguments))];
        if forward == "" {
          return;
        }
        events := events + [ArgumentsDelta(index, forward)];
      case _ =>
    }

    method Complete()
      modifies this`events
      ensures events == old(events) + [Completed(Output(parts, |parts|))]
    {
      var output: seq<Part> := [];
      for index := 0 to |parts|
        invariant output == Output(parts, index) && events == old(events)
      {
        if index in parts {
          output := output + [ToPart(parts[index])];
        }
      }
      events := events + [Completed(output)];
    }

    method ConsumeMessage(m: Message) returns (more: bool)
      modifies this
      ensures parts == BlocksAfter(old(parts), m) && events == old(events) + EventsFor(old(parts), m)
      ensures more == !Stops(m)
      ensures more <==> !m.MessageStop? && !m.Failure?
    {
      more := true;
      match m
      case MessageStart => events := events + [Created];
      case BlockStart(index, block) =>
        parts := parts[index := block];
        events := events + [Added(index, ToPart(block))];
      case BlockDelta(index, content) => ConsumeDelta(index, content);
      case MessageStop =>
        Complete();
        more := false;
      case Failure =>
        events := events + [Error];
        more := false;
      case Ignored =>
    }

    /** Every message up to the one that ends the stream. */
    method Consume(messages: seq<Message>) returns (count: nat)
      requires parts == map[] && events == []
      modifies this
      ensures count <= |messages| && RunsFor(messages, count)
      ensures count < |messages| ==> count > 0 && Stops(messages[count - 1])
      ensures count < |messages| ==> messages[count - 1].MessageStop? || messages[count - 1].Failure?
      ensures forall i :: 0 <= i < count - 1 ==> !messages[i].MessageStop? && !messages[i].Failure?
      ensures parts == BlocksOf(messages[..count]) && events == EventsOf(messages[..count])
    {
      count := 0;
      var more := true;
      while count < |messages| && more
        invariant count <= |messages| && RunsFor(messages, count)
        invariant more == (count == 0 || !Stops(messages[count - 1]))
        invariant parts == BlocksOf(messages[..count]) && events == EventsOf(messages[..count])
      {
        ConsumedNext(messages, count);
        more := ConsumeMessage(messages[count]);
        count := count + 1;
      }
    }
  }

  /** None of the messages but the last ends the stream. */
  predicate RunsFor(messages: seq<Message>, count: nat)
    requires count <= |messages|
  {
    forall i :: 0 <= i < count - 1 ==> !Stops(messages[i])
  }

  lemma ConsumedNext(messages: seq<Message>, count: nat)
    requires count < |messages|
    ensures BlocksOf(messages[..count + 1]) == BlocksAfter(BlocksOf(messages[..count]), messages[count])
    ensures EventsOf(messages[..count + 1]) == EventsOf(messages[..count]) + EventsFor(BlocksOf(messages[..count]), messages[count])
  {
    assert messages[..count + 1][..count] == messages[..count];
  }

  // ----- Whole streams

  function BlocksOf(messages: seq<Message>): Blocks {
    if messages == [] then map[] else BlocksAfter(BlocksOf(messages[..|messages| - 1]), messages[|messages| - 1])
  }

  function EventsOf(messages: seq<Message>): seq<Event> {
    if messages == [] then []
    else
      var front, last := messages[..|messages| - 1], messages[|messages| - 1];
      EventsOf(front) + EventsFor(BlocksOf(front), last)
  }

  /** A delta a block of this kind has. */
  predicate Suits(kind: Kind, content: Content) {
    match content
    case TextContent(_) => kind.TextKind?
    case Thinking(_) => kind.ReasoningKind?
    case Signature => kind.ReasoningKind?
    case Json(_) => kind.ToolCallKind?
    case Unknown => true
  }

  /** Blocks start once, and their deltas suit them. */
  predicate Orderly(messages: seq<Message>) {
    messages == [] || (
      var front, last := messages[..|messages| - 1], messages[|messages| - 1];
      Orderly(front)
      && (last.BlockStart? ==> last.index !in BlocksOf(front))
      && (last.BlockDelta? && last.index in BlocksOf(front) ==> Suits(BlocksOf(front)[last.index].kind, last.content)))
  }

  /** What a block has to show after a start and some deltas, and what was passed on of them. */
  function Expected(messages: seq<Message>, index: int): Accumulated {
    if messages == [] then NOTHING
    else
      var front, last := Expected(messages[..|messages| - 1], index), messages[|messages| - 1];
      if last.BlockStart? && last.index == index then Accumulated(Shown(ToPart(last.block)), "")
      else if last.BlockDelta? && last.index == index then
        match last.content
        case TextContent(text) => Accumulated(front.arguments + text, front.forwarded + text)
        case Thinking(text) => Accumulated(front.arguments + text, front.forwarded + text)
        case Json(text) => Appended(front, text)
        case _ => front
      else front
  }

  ghost predicate BlockMatches(messages: seq<Message>, index: int) {
    && index in BlocksOf(messages)
    && Expected(messages, index) == Accumulated(Shown(ToPart(BlocksOf(messages)[index])), DeltasAt(EventsOf(messages), index))
  }

  ghost predicate EventsMatch(blocks: Blocks, events: seq<Event>) {
    forall e :: e in events && IsTyped(e) ==> e.index in blocks && EventKind(e) == blocks[e.index].kind
  }

  /** What one message adds under an index. */
  lemma MessageDeltas(blocks: Blocks, m: Message, index: int)
    ensures DeltasAt(EventsFor(blocks, m), index)
         == if m.BlockDelta? && m.index == index && index in blocks then Passed(blocks[index], m.content) else ""
  {
    var more := EventsFor(blocks, m);
    if more != [] {
      OneEvent(more[0], index);
      assert more == [more[0]];
    }
  }

  lemma DeltasFor(blocks: Blocks, m: Message, events: seq<Event>, index: int)
    ensures DeltasAt(events + EventsFor(blocks, m), index)
         == DeltasAt(events, index)
            + if m.BlockDelta? && m.index == index && index in blocks then Passed(blocks[index], m.content) else ""
  {
    DeltasAtConcat(events, EventsFor(blocks, m), index);
    MessageDeltas(blocks, m, index);
  }

  function Passed(block: Block, content: Content): string {
    match content
    case TextContent(text) => text
    case Thinking(text) => text
    case Json(text) =>
      if block.kind.ToolCallKind? then Appended(Accumulated(block.call.arguments, ""), text).forwarded else ""
    case _ => ""
  }

  lemma GrownMatches(block: Block, content: Content, forwarded: string)
    requires Suits(block.kind, content)
    ensures var before := Accumulated(Shown(ToPart(block)), forwarded);
            Accumulated(Shown(ToPart(Grown(block, content))), forwarded + Passed(block, content))
            == match content
               case TextContent(text) => Accumulated(before.arguments + text, before.forwarded + text)
               case Thinking(text) => Accumulated(before.arguments + text, before.forwarded + text)
               case Json(text) => Appended(before, text)
               case _ => before
  {
    assert forwarded + "" == forwarded;
    if content.Json? {
      ForwardedIsAppended(Accumulated(block.call.arguments, forwarded), content.text);
    }
  }

  lemma NextKeepsEvents(blocks: Blocks, events: seq<Event>, m: Message)
    requires EventsMatch(blocks, events)
    requires m.BlockStart? ==> m.index !in blocks
    requires m.BlockDelta? && m.index in blocks ==> Suits(blocks[m.index].kind, m.content)
    ensures EventsMatch(BlocksAfter(blocks, m), events + EventsFor(blocks, m))
  {
  }

  lemma {:induction false} OrderlyEvents(messages: seq<Message>)
    requires Orderly(messages)
    ensures EventsMatch(BlocksOf(messages), EventsOf(messages))
  {
    if messages != [] {
      var front := messages[..|messages| - 1];
      OrderlyEvents(front);
      NextKeepsEvents(BlocksOf(front), EventsOf(front), messages[|messages| - 1]);
    }
  }

  /** In an orderly stream a block shows what it started with and the deltas for it, and the deltas passed
      on under its index are what the accumulation says. */
  lemma {:induction false} OrderlyBlocks(messages: seq<Message>, index: int)
    requires Orderly(messages) && index in BlocksOf(messages)
    ensures BlockMatches(messages, index)
  {
    var front, last := messages[..|messages| - 1], messages[|messages| - 1];
    var blocks := BlocksOf(front);
    DeltasFor(blocks, last, EventsOf(front), index);
    if index in blocks {
      OrderlyBlocks(front, index);
      if last.BlockDelta? && last.index == index {
        GrownMatches(blocks[index], last.content, DeltasAt(EventsOf(front), index));
      }
    } else {
      OrderlyEvents(front);
      NothingStreamed(EventsOf(front), index);
    }
  }

  // ----- Text

  /** The text a block started with. */
  function StartText(messages: seq<Message>, index: int): string {
    if messages == [] then ""
    else
      var last := messages[|messages| - 1];
      if last.BlockStart? && last.index == index then last.block.text
      else StartText(messages[..|messages| - 1], index)
  }

  /** The text deltas since a block started. */
  function TextsOf(messages: seq<Message>, index: int): seq<string> {
    if messages == [] then []
    else
      var front, last := TextsOf(messages[..|messages| - 1], index), messages[|messages| - 1];
      if last.BlockStart? && last.index == index then []
      else if last.BlockDelta? && last.index == index && (last.content.TextContent? || last.content.Thinking?)
      then front + [last.content.text]
      else front
  }

  predicate HasText(kind: Kind) {
    kind.TextKind? || kind.ReasoningKind?
  }

  lemma ConcatNext(start: string, texts: seq<string>, next: string)
    ensures Concat(texts + [next]) == Concat(texts) + next
    ensures start + Concat(texts + [next]) == (start + Concat(texts)) + next
  {
    assert (texts + [next])[..|texts|] == texts;
    Associative(start, Concat(texts), next);
  }

  lemma {:induction false} TextExpected(messages: seq<Message>, index: int)
    requires Orderly(messages) && index in BlocksOf(messages) && HasText(BlocksOf(messages)[index].kind)
    ensures var text := Concat(TextsOf(messages, index));
            Expected(messages, index) == Accumulated(StartText(messages, index) + text, text)
  {
    var front, last := messages[..|messages| - 1], messages[|messages| - 1];
    if index in BlocksOf(front) {
      TextExpected(front, index);
      if last.BlockDelta? && last.index == index && (last.content.TextContent? || last.content.Thinking?) {
        ConcatNext(StartText(front, index), TextsOf(front, index), last.content.text);
      }
    } else {
      assert StartText(messages, index) + "" == StartText(messages, index);
    }
  }

  /** A text or reasoning block ends as the text it started with and its deltas, its index carries the deltas
      alone, and so the two agree exactly when the block started empty. */
  lemma TextsAgreeIff(messages: seq<Message>, index: int)
    requires Orderly(messages) && index in BlocksOf(messages) && HasText(BlocksOf(messages)[index].kind)
    ensures var shown, streamed := Shown(ToPart(BlocksOf(messages)[index])), DeltasAt(EventsOf(messages), index);
            && shown == StartText(messages, index) + Concat(TextsOf(messages, index))
            && streamed == Concat(TextsOf(messages, index))
            && (streamed == shown <==> StartText(messages, index) == "")
  {
    TextExpected(messages, index);
    OrderlyBlocks(messages, index);
    LongerUnlessEmpty(StartText(messages, index), Concat(TextsOf(messages, index)));
  }

  lemma LongerUnlessEmpty(start: string, text: string)
    ensures text == start + text <==> start == ""
  {
    assert start != "" ==> |start + text| > |text|;
  }

  // ----- Tool arguments

  /** The arguments a tool block started with. */
  function StartOf(messages: seq<Message>, index: int): string {
    if messages == [] then ""
    else
      var last := messages[|messages| - 1];
      if last.BlockStart? && last.index == index then last.block.call.arguments
      else StartOf(messages[..|messages| - 1], index)
  }

  /** The argument deltas since a block started. */
  function JsonsOf(messages: seq<Message>, index: int): seq<string> {
    if messages == [] then []
    else
      var front, last := JsonsOf(messages[..|messages| - 1], index), messages[|messages| - 1];
      if last.BlockStart? && last.index == index then []
      else if last.BlockDelta? && last.index == index && last.content.Json? then front + [last.content.text]
      else front
  }

  lemma AppendedNext(start: string, deltas: seq<string>, next: string)
    ensures AppendedAll([start] + (deltas + [next])) == Appended(AppendedAll([start] + deltas), next)
  {
    var all := [start] + deltas;
    assert [start] + (deltas + [next]) == all + [next];
    assert (all + [next])[..|all|] == all;
  }

  lemma {:induction false} ToolExpected(messages: seq<Message>, index: int)
    requires Orderly(messages) && index in BlocksOf(messages) && BlocksOf(messages)[index].kind.ToolCallKind?
    requires IsPlaceholder(StartOf(messages, index))
    ensures Expected(messages, index) == AppendedAll([StartOf(messages, index)] + JsonsOf(messages, index))
  {
    var front, last := messages[..|messages| - 1], messages[|messages| - 1];
    if index in BlocksOf(front) {
      ToolExpected(front, index);
      if last.BlockDelta? && last.index == index && last.content.Json? {
        AppendedNext(StartOf(front, index), JsonsOf(front, index), last.content.text);
      }
    } else {
      var start := StartOf(messages, index);
      var none: seq<string> := [];
      FirstOfAll(start);
      PlaceholderAppended(start);
      assert [start] + none == [start];
    }
  }

  lemma FirstOfAll(start: string)
    ensures AppendedAll([start]) == Appended(NOTHING, start)
  {
    assert [start][..0] == [];
  }

  /** After a placeholder start and any more placeholders, tool arguments that do not begin with an empty
      object come out whole in both views, however they are cut. In particular a lone empty delta leaves no
      arguments at all. */
  lemma ToolArgumentsAgree(messages: seq<Message>, index: int, placeholders: seq<string>, chunks: seq<string>)
    requires Orderly(messages) && index in BlocksOf(messages) && BlocksOf(messages)[index].kind.ToolCallKind?
    requires IsPlaceholder(StartOf(messages, index)) && Placeholders(placeholders)
    requires JsonsOf(messages, index) == placeholders + chunks && chunks != [] && !StartsEmpty(Concat(chunks))
    ensures BlocksOf(messages)[index].call.arguments == Concat(chunks)
    ensures DeltasAt(EventsOf(messages), index) == Concat(chunks)
  {
    var start := [StartOf(messages, index)];
    ToolExpected(messages, index);
    Associative(start, placeholders, chunks);
    WholeAfterPlaceholders(start + placeholders, chunks);
    OrderlyViews(messages, index, Concat(chunks));
  }

  /** When nothing but placeholders and white space follows a placeholder start, the tool keeps an empty object
      exactly when nothing follows or the last delta is one; otherwise it ends with no arguments. */
  lemma EmptyArgumentsIffLast(messages: seq<Message>, index: int)
    requires Orderly(messages) && index in BlocksOf(messages) && BlocksOf(messages)[index].kind.ToolCallKind?
    requires IsPlaceholder(StartOf(messages, index)) && SaysNothing(JsonsOf(messages, index))
    ensures var arguments, jsons := BlocksOf(messages)[index].call.arguments, JsonsOf(messages, index);
            && (IsPlaceholder(arguments) <==> jsons == [] || IsPlaceholder(jsons[|jsons| - 1]))
            && (IsBlank(arguments) <==> jsons != [] && IsBlank(jsons[|jsons| - 1]))
  {
    ToolExpected(messages, index);
    EmptyObjectAfter([StartOf(messages, index)], JsonsOf(messages, index));
    OrderlyArguments(messages, index);
  }

  lemma OrderlyArguments(messages: seq<Message>, index: int)
    requires Orderly(messages) && index in BlocksOf(messages) && BlocksOf(messages)[index].kind.ToolCallKind?
    ensures BlocksOf(messages)[index].call.arguments == Expected(messages, index).arguments
  {
    OrderlyBlocks(messages, index);
  }

  /** After a placeholder start and any more placeholders, both views are the provider's text exactly when no cut
      makes part of it look like a placeholder. */
  lemma ToolArgumentsIffClean(messages: seq<Message>, index: int, placeholders: seq<string>, chunks: seq<string>)
    requires Orderly(messages) && index in BlocksOf(messages) && BlocksOf(messages)[index].kind.ToolCallKind?
    requires IsPlaceholder(StartOf(messages, index)) && Placeholders(placeholders)
    requires JsonsOf(messages, index) == placeholders + chunks && chunks != [] && !IsPlaceholder(chunks[0])
    ensures BlocksOf(messages)[index].call.arguments == DeltasAt(EventsOf(messages), index) == Concat(chunks)
       <==> Clean(chunks)
  {
    var start := [StartOf(messages, index)];
    ToolExpected(messages, index);
    Associative(start, placeholders, chunks);
    FaithfulIffClean(start + placeholders, chunks);
    OrderlyToolViews(messages, index);
  }

  lemma OrderlyToolViews(messages: seq<Message>, index: int)
    requires Orderly(messages) && index in BlocksOf(messages) && BlocksOf(messages)[index].kind.ToolCallKind?
    ensures Expected(messages, index) == Accumulated(BlocksOf(messages)[index].call.arguments, DeltasAt(EventsOf(messages), index))
  {
    OrderlyBlocks(messages, index);
  }

  lemma OrderlyViews(messages: seq<Message>, index: int, text: string)
    requires Orderly(messages) && index in BlocksOf(messages) && BlocksOf(messages)[index].kind.ToolCallKind?
    requires Expected(messages, index) == Accumulated(text, text)
    ensures BlocksOf(messages)[index].call.arguments == text && DeltasAt(EventsOf(messages), index) == text
  {
    OrderlyBlocks(messages, index);
  }

  // ----- The final response

  ghost predicate AllPresent(blocks: Blocks, n: nat) {
    forall i :: 0 <= i < n ==> i in blocks
  }

  lemma AllPresentNext(blocks: Blocks, n: nat)
    requires n > 0
    ensures AllPresent(blocks, n) <==> AllPresent(blocks, n - 1) && n - 1 in blocks
  {
  }

  lemma {:induction false} OutputLength(blocks: Blocks, n: nat)
    ensures |Output(blocks, n)| <= n
    ensures |Output(blocks, n)| == n <==> AllPresent(blocks, n)
  {
    if n > 0 {
      AllPresentNext(blocks, n);
      OutputLength(blocks, n - 1);
    }
  }

  lemma {:induction false} OutputPlace(blocks: Blocks, n: nat, index: nat)
    requires index < n && AllPresent(blocks, n)
    ensures |Output(blocks, n)| == n && Output(blocks, n)[index] == ToPart(blocks[index])
  {
    AllPresentNext(blocks, n);
    OutputLength(blocks, n);
    OutputLength(blocks, n - 1);
    if index < n - 1 {
      OutputPlace(blocks, n - 1, index);
    }
  }

  lemma PresentIffContiguous(blocks: Blocks)
    ensures AllPresent(blocks, |blocks|) <==> blocks.Keys == Range(|blocks|)
  {
    assert |blocks.Keys| == |blocks|;
    if AllPresent(blocks, |blocks|) {
      SameSize(Range(|blocks|), blocks.Keys);
    }
  }

  /** The final response holds every block exactly when the blocks are numbered from zero without gaps, and
      then each one stands at the index it was streamed under. */
  lemma FinalResponseMatchesBlocks(blocks: Blocks)
    ensures var output := Output(blocks, |blocks|);
            && (|output| == |blocks| <==> blocks.Keys == Range(|blocks|))
            && (|output| == |blocks| ==> forall index :: index in blocks ==> 0 <= index < |output| && output[index] == ToPart(blocks[index]))
  {
    OutputLength(blocks, |blocks|);
    PresentIffContiguous(blocks);
    forall index | index in blocks && AllPresent(blocks, |blocks|)
      ensures 0 <= index < |blocks| && Output(blocks, |blocks|)[index] == ToPart(blocks[index])
    {
      assert index in Range(|blocks|);
      OutputPlace(blocks, |blocks|, index);
    }
  }
}
