/** What an Anthropic stream ends with, in terms of the provider's messages. */
module AnthropicResponse {
  import opened Collections
  import opened NeutralEvents
  import opened ToolArguments
  import opened Anthropic

  // ----- What the messages carry

  predicate StartsBlock(m: Message, index: int) {
    m.BlockStart? && m.index == index
  }

  ghost predicate IsStarted(messages: seq<Message>, index: int) {
    exists m :: m in messages && StartsBlock(m, index)
  }

  function StartedIndexes(messages: seq<Message>): set<int> {
    set m | m in messages && m.BlockStart? :: m.index
  }

  /** The block that an index was last started with. */
  function StartOfBlock(messages: seq<Message>, index: int): Block {
    if messages == [] then Block(MetadataKind, "", ToolCall("", "", ""))
    else if StartsBlock(messages[|messages| - 1], index) then messages[|messages| - 1].block
    else StartOfBlock(messages[..|messages| - 1], index)
  }

  /** What the messages say a block's part is: of the kind it started with, with the text it started with and its text
      deltas, or with the id and the name it started with and the arguments that its deltas add up to. */
  function SentPart(messages: seq<Message>, index: int): Part {
    var start := StartOfBlock(messages, index);
    match start.kind
    case TextKind => Text(StartText(messages, index) + Concat(TextsOf(messages, index)))
    case ReasoningKind => Reasoning(StartText(messages, index) + Concat(TextsOf(messages, index)))
    case RefusalKind => Refusal(start.text)
    case ToolCallKind => Tool(ToolCall(start.call.id, start.call.name, Expected(messages, index).arguments))
    case MetadataKind => Metadata
  }

  /** The parts of the blocks started under the indexes below a bound. */
  function SentParts(messages: seq<Message>, bound: nat): seq<Part> {
    if bound == 0 then []
    else SentParts(messages, bound - 1) + if bound - 1 in StartedIndexes(messages) then [SentPart(messages, bound - 1)] else []
  }

  // ----- Blocks are what was sent

  lemma {:induction false} BlocksAreStarted(messages: seq<Message>)
    ensures BlocksOf(messages).Keys == StartedIndexes(messages)
  {
    if messages != [] {
      var front, last := messages[..|messages| - 1], messages[|messages| - 1];
      BlocksAreStarted(front);
      assert forall m :: m in messages <==> m in front || m == last;
    }
  }

  /** A block keeps the kind, the id and the name it started with, and a refusal its text. */
  lemma {:induction false} BlockKeepsStart(messages: seq<Message>, index: int)
    requires Orderly(messages) && index in BlocksOf(messages)
    ensures var block, start := BlocksOf(messages)[index], StartOfBlock(messages, index);
            && block.kind == start.kind && block.call.id == start.call.id && block.call.name == start.call.name
            && (start.kind.RefusalKind? ==> block.text == start.text)
  {
    var front, last := messages[..|messages| - 1], messages[|messages| - 1];
    if index in BlocksOf(front) {
      BlockKeepsStart(front, index);
    }
  }

  lemma BlockIsSent(messages: seq<Message>, index: int)
    requires Orderly(messages) && index in BlocksOf(messages)
    ensures ToPart(BlocksOf(messages)[index]) == SentPart(messages, index)
  {
    BlockKeepsStart(messages, index);
    OrderlyBlocks(messages, index);
    if HasText(BlocksOf(messages)[index].kind) {
      TextsAgreeIff(messages, index);
    }
  }

  lemma {:induction false} OutputIsSent(messages: seq<Message>, n: nat)
    requires Orderly(messages)
    ensures Output(BlocksOf(messages), n) == SentParts(messages, n)
  {
    if n > 0 {
      OutputIsSent(messages, n - 1);
      BlocksAreStarted(messages);
      if n - 1 in BlocksOf(messages) {
        BlockIsSent(messages, n - 1);
      }
    }
  }

  // ----- What a stream ends with

  lemma EventsNext(messages: seq<Message>, m: Message)
    ensures EventsOf(messages + [m]) == EventsOf(messages) + EventsFor(BlocksOf(messages), m)
  {
    assert (messages + [m])[..|messages|] == messages;
  }

  /** The stop message of an orderly stream sends the final response, with the parts of all blocks started under the
      indexes below their number, in the order of their indexes. */
  lemma StopSendsResponse(messages: seq<Message>)
    requires Orderly(messages)
    ensures EventsOf(messages + [MessageStop])
         == EventsOf(messages) + [Completed(SentParts(messages, |StartedIndexes(messages)|))]
  {
    EventsNext(messages, MessageStop);
    BlocksAreStarted(messages);
    assert |BlocksOf(messages)| == |BlocksOf(messages).Keys|;
    OutputIsSent(messages, |BlocksOf(messages)|);
  }

  /** A part that shows a block: its kind, its text, and all of its call. */
  predicate Presents(part: Part, block: Block) {
    KindOf(part) == block.kind && (part.Tool? ==> part.call == block.call) && (!part.Tool? && !part.Metadata? ==> Shown(part) == block.text)
  }

  /** What a message sends: an opening, an announcement of the block as it starts, deltas of the one block it names if that
      was started, the final response, or an error. */
  predicate Reports(m: Message, started: bool, sent: seq<Event>) {
    match m
    case MessageStart => sent == [Created]
    case BlockStart(index, block) => |sent| == 1 && sent[0].Added? && sent[0].index == index && Presents(sent[0].part, block)
    case BlockDelta(index, _) => |sent| <= 1 && (!started ==> sent == []) && forall e :: e in sent ==> IsDelta(e) && e.index == index
    case MessageStop => |sent| == 1 && sent[0].Completed?
    case Failure => sent == [Error]
    case Ignored => sent == []
  }

  lemma SentReports(blocks: Blocks, m: Message)
    ensures Reports(m, m.BlockDelta? && m.index in blocks, EventsFor(blocks, m))
  {
  }

  lemma MessageSends(messages: seq<Message>, m: Message) returns (sent: seq<Event>)
    ensures EventsOf(messages + [m]) == EventsOf(messages) + sent
    ensures Reports(m, m.BlockDelta? && m.index in StartedIndexes(messages), sent)
  {
    sent := EventsFor(BlocksOf(messages), m);
    EventsNext(messages, m);
    BlocksAreStarted(messages);
    SentReports(BlocksOf(messages), m);
  }

  /** The final response is sent exactly when the stream is consumed up to a stop message, and then it is the last event. */
  lemma {:induction false} ResponseIffStopped(messages: seq<Message>, count: nat)
    requires count <= |messages| && RunsFor(messages, count)
    ensures (exists e :: e in EventsOf(messages[..count]) && e.Completed?) <==> count > 0 && messages[count - 1].MessageStop?
    ensures count > 0 && messages[count - 1].MessageStop? ==>
              EventsOf(messages[..count]) != [] && EventsOf(messages[..count])[|EventsOf(messages[..count])| - 1].Completed?
  {
    if count > 0 {
      var n: nat := count - 1;
      var front := messages[..n];
      assert messages[..count] == front + [messages[n]];
      EventsNext(front, messages[n]);
      NoResponseYet(front);
      if messages[n].MessageStop? {
        assert EventsFor(BlocksOf(front), MessageStop)[0] in EventsOf(messages[..count]);
      }
    }
  }

  lemma {:induction false} NoResponseYet(messages: seq<Message>)
    requires forall i :: 0 <= i < |messages| ==> !Stops(messages[i])
    ensures forall e :: e in EventsOf(messages) ==> !e.Completed?
  {
    if messages != [] {
      NoResponseYet(messages[..|messages| - 1]);
    }
  }
}
