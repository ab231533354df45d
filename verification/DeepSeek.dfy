/** A DeepSeek chat stream accumulated into a response while it is passed on
    (internal/infra/llmproxy/deepseek.go). */
module DeepSeek {
  import opened Collections
  import opened NeutralEvents
  import opened ToolArguments

  datatype ToolDelta = ToolDelta(key: int, id: string, name: string, arguments: string)

  datatype Choice = Choice(content: string, reasoning: string, tools: seq<ToolDelta>)

  /** A server-sent message: the end marker, something that is not JSON, or a chunk. */
  datatype Message = DoneMarker | Malformed | Chunk(choices: seq<Choice>)

  datatype State = State(
    text: string, reasoning: string, toolCalls: map<int, ToolCall>, toolIndexes: map<int, int>,
    textIndex: int, reasonIndex: int, nextIndex: int)

  const EMPTY := State("", "", map[], map[], -1, -1, 0)

  // ----- One piece of a delta

  datatype Piece = TextPiece(text: string) | ReasoningPiece(text: string) | ToolPiece(tool: ToolDelta)

  function WithText(s: State): State {
    if s.textIndex < 0 then s.(textIndex := s.nextIndex, nextIndex := s.nextIndex + 1) else s
  }

  function WithReasoning(s: State): State {
    if s.reasonIndex < 0 then s.(reasonIndex := s.nextIndex, nextIndex := s.nextIndex + 1) else s
  }

  predicate ToolsIndexed(s: State) {
    s.toolIndexes.Keys == s.toolCalls.Keys
  }

  function WithTool(s: State, key: int): (r: State)
    requires ToolsIndexed(s)
    ensures ToolsIndexed(r) && key in r.toolCalls && key in r.toolIndexes
  {
    if key in s.toolCalls then s
    else s.(toolCalls := s.toolCalls[key := ToolCall("", "", "")],
         toolIndexes := s.toolIndexes[key := s.nextIndex], nextIndex := s.nextIndex + 1)
  }

  function Named(call: ToolCall, d: ToolDelta): ToolCall {
    call.(id := if d.id != "" then d.id else call.id, name := if d.name != "" then d.name else call.name)
  }

  function Forwarded(call: ToolCall, d: ToolDelta): string {
    if d.arguments == "" then "" else Appended(Accumulated(call.arguments, ""), d.arguments).forwarded
  }

  function Grown(call: ToolCall, d: ToolDelta): ToolCall {
    if d.arguments == "" then Named(call, d)
    else Named(call, d).(arguments := Appended(Accumulated(call.arguments, ""), d.arguments).arguments)
  }

  function ToolEvents(index: int, call: ToolCall, d: ToolDelta): seq<Event> {
    (if d.name != "" then [Added(index, Tool(Named(call, d)))] else [])
    + (if Forwarded(call, d) != "" then [ArgumentsDelta(index, Forwarded(call, d))] else [])
  }

  function Fed(s: State, piece: Piece): (r: State)
    requires ToolsIndexed(s)
    ensures ToolsIndexed(r)
  {
    match piece
    case TextPiece(text) => if text == "" then s else var t := WithText(s); t.(text := t.text + text)
    case ReasoningPiece(text) => if text == "" then s else var t := WithReasoning(s); t.(reasoning := t.reasoning + text)
    case ToolPiece(d) =>
      var t := WithTool(s, d.key);
      t.(toolCalls := t.toolCalls[d.key := Grown(t.toolCalls[d.key], d)])
  }

  function Emitted(s: State, piece: Piece): seq<Event>
    requires ToolsIndexed(s)
  {
    match piece
    case TextPiece(text) => if text == "" then [] else [TextDelta(WithText(s).textIndex, text)]
    case ReasoningPiece(text) => if text == "" then [] else [ReasoningDelta(WithReasoning(s).reasonIndex, text)]
    case ToolPiece(d) =>
      var t := WithTool(s, d.key);
      ToolEvents(t.toolIndexes[d.key], t.toolCalls[d.key], d)
  }

  function FedAll(s: State, pieces: seq<Piece>): (r: State)
    requires ToolsIndexed(s)
    ensures ToolsIndexed(r)
    decreases |pieces|
  {
    if pieces == [] then s else Fed(FedAll(s, pieces[..|pieces| - 1]), pieces[|pieces| - 1])
  }

  function EmittedAll(s: State, pieces: seq<Piece>): seq<Event>
    requires ToolsIndexed(s)
    decreases |pieces|
  {
    if pieces == [] then []
    else
      var front := pieces[..|pieces| - 1];
      EmittedAll(s, front) + Emitted(FedAll(s, front), pieces[|pieces| - 1])
  }

  function ToolPieces(tools: seq<ToolDelta>): seq<Piece> {
    if tools == [] then [] else ToolPieces(tools[..|tools| - 1]) + [ToolPiece(tools[|tools| - 1])]
  }

  function ChoicePieces(choice: Choice): seq<Piece> {
    [TextPiece(choice.content), ReasoningPiece(choice.reasoning)] + ToolPieces(choice.tools)
  }

  function Pieces(choices: seq<Choice>): seq<Piece> {
    if choices == [] then [] else Pieces(choices[..|choices| - 1]) + ChoicePieces(choices[|choices| - 1])
  }

  lemma {:induction false} FedInTurn(s: State, a: seq<Piece>, b: seq<Piece>)
    requires ToolsIndexed(s)
    ensures FedAll(s, a + b) == FedAll(FedAll(s, a), b)
    ensures EmittedAll(s, a + b) == EmittedAll(s, a) + EmittedAll(FedAll(s, a), b)
    decreases |b|
  {
    if b == [] {
      assert a + b == a;
    } else {
      var b', last := b[..|b| - 1], b[|b| - 1];
      assert (a + b)[..|a + b| - 1] == a + b';
      FedInTurn(s, a, b');
      Associative(EmittedAll(s, a), EmittedAll(FedAll(s, a), b'), Emitted(FedAll(s, a + b'), last));
    }
  }

  lemma FedOne(s: State, pieces: seq<Piece>, piece: Piece)
    requires ToolsIndexed(s)
    ensures FedAll(s, pieces + [piece]) == Fed(FedAll(s, pieces), piece)
    ensures EmittedAll(s, pieces + [piece]) == EmittedAll(s, pieces) + Emitted(FedAll(s, pieces), piece)
  {
    assert (pieces + [piece])[..|pieces|] == pieces;
  }

  lemma FedOnce(s: State, a: Piece)
    requires ToolsIndexed(s)
    ensures FedAll(s, [a]) == Fed(s, a) && EmittedAll(s, [a]) == Emitted(s, a)
  {
    var none: seq<Piece> := [];
    FedOne(s, none, a);
    assert none + [a] == [a];
  }

  lemma FedTwo(s: State, a: Piece, b: Piece)
    requires ToolsIndexed(s)
    ensures FedAll(s, [a, b]) == Fed(Fed(s, a), b)
    ensures EmittedAll(s, [a, b]) == Emitted(s, a) + Emitted(Fed(s, a), b)
  {
    var one := [a];
    FedOnce(s, a);
    FedOne(s, one, b);
    assert one + [b] == [a, b];
  }

  lemma PiecesNext(choices: seq<Choice>, i: nat)
    requires i < |choices|
    ensures Pieces(choices[..i + 1]) == Pieces(choices[..i]) + ChoicePieces(choices[i])
  {
    assert choices[..i + 1][..i] == choices[..i];
  }

  // ----- The final response

  /** The parts of an output: what is accumulated under one index. */
  datatype Slot = TextSlot | ReasoningSlot | ToolSlot(key: int)

  function IndexOf(s: State, slot: Slot): int {
    match slot
    case TextSlot => s.textIndex
    case ReasoningSlot => s.reasonIndex
    case ToolSlot(key) => if key in s.toolIndexes then s.toolIndexes[key] else -1
  }

  function PartOf(s: State, slot: Slot): Part {
    match slot
    case TextSlot => Text(s.text)
    case ReasoningSlot => Reasoning(s.reasoning)
    case ToolSlot(key) => Tool(if key in s.toolCalls then s.toolCalls[key] else ToolCall("", "", ""))
  }

  ghost predicate Occupied(s: State, i: int) {
    exists slot :: IndexOf(s, slot) == i
  }

  /** Every index below the next one belongs to exactly one slot, and no other index to any. */
  ghost predicate WellIndexed(s: State) {
    && ToolsIndexed(s)
    && 0 <= s.nextIndex
    && (forall slot :: -1 <= IndexOf(s, slot) < s.nextIndex)
    && (forall key :: key in s.toolIndexes ==> 0 <= s.toolIndexes[key])
    && (forall a, b :: 0 <= IndexOf(s, a) == IndexOf(s, b) ==> a == b)
    && (forall i :: 0 <= i < s.nextIndex ==> Occupied(s, i))
    && (s.text == "" <==> s.textIndex < 0)
    && (s.reasoning == "" <==> s.reasonIndex < 0)
  }

  /** The final loop looks for tool calls under as many keys as there are calls, counting from zero. */
  predicate Listed(s: State, slot: Slot) {
    match slot
    case TextSlot => s.text != ""
    case ReasoningSlot => s.reasoning != ""
    case ToolSlot(key) => 0 <= key < |s.toolCalls| && key in s.toolCalls
  }

  ghost function SlotAt(s: State, i: int): Slot
    requires WellIndexed(s) && 0 <= i < s.nextIndex
    ensures IndexOf(s, SlotAt(s, i)) == i
  {
    assert Occupied(s, i);
    var slot :| IndexOf(s, slot) == i;
    slot
  }

  ghost function Output(s: State, n: nat): seq<Part>
    requires WellIndexed(s) && n <= s.nextIndex
  {
    if n == 0 then []
    else Output(s, n - 1) + if Listed(s, SlotAt(s, n - 1)) then [PartOf(s, SlotAt(s, n - 1))] else []
  }

  lemma SlotAtIndex(s: State, slot: Slot)
    requires WellIndexed(s) && IndexOf(s, slot) >= 0
    ensures SlotAt(s, IndexOf(s, slot)) == slot
  {
  }

  predicate ListedBelow(s: State, slot: Slot, key: int) {
    Listed(s, slot) && (slot.ToolSlot? ==> slot.key < key)
  }

  /** The parts collected once the keys below `key` have been looked at. */
  ghost predicate Placed(s: State, parts: map<int, Part>, key: int)
    requires WellIndexed(s)
  {
    forall i :: 0 <= i < s.nextIndex ==>
                  (i in parts <==> ListedBelow(s, SlotAt(s, i), key)) && (i in parts ==> parts[i] == PartOf(s, SlotAt(s, i)))
  }

  class DeepSeekStream {
    var text: string
    var reasoning: string
    var toolCalls: map<int, ToolCall>
    var toolIndexes: map<int, int>
    var textIndex: int
    var reasonIndex: int
    var nextIndex: int
    var started: bool
    var events: seq<Event>

    function Now(): State
      reads this
    {
      State(text, reasoning, toolCalls, toolIndexes, textIndex, reasonIndex, nextIndex)
    }

    constructor ()
      ensures Now() == EMPTY && !started && events == []
    {
      text, reasoning, toolCalls, toolIndexes := "", "", map[], map[];
      textIndex, reasonIndex, nextIndex, started, events := -1, -1, 0, false, [];
    }

    method AllocateIndex() returns (index: int)
      modifies this`nextIndex
      ensures index == old(nextIndex) && nextIndex == index + 1
    {
      index := nextIndex;
      nextIndex := nextIndex + 1;
    }

    /** The call under a key, made if it is new. */
    method FindCall(key: int) returns (call: ToolCall, index: int)
      requires ToolsIndexed(Now())
      modifies this`toolCalls, this`toolIndexes, this`nextIndex
      ensures Now() == WithTool(old(Now()), key)
      ensures call == toolCalls[key] && index == toolIndexes[key]
    {
      if key !in toolCalls {
        toolCalls := toolCalls[key := ToolCall("", "", "")];
        index := AllocateIndex();
        toolIndexes := toolIndexes[key := index];
      }
      return toolCalls[key], toolIndexes[key];
    }

    /** What a delta adds to its call, and what is passed on of it. */
    method GrowCall(index: int, before: ToolCall, d: ToolDelta) returns (call: ToolCall)
      modifies this`events
      ensures call == Grown(before, d) && events == old(events) + ToolEvents(index, before, d)
    {
      call := before;
      if d.id != "" {
        call := call.(id := d.id);
      }
      if d.name != "" {
        call := call.(name := d.name);
        events := events + [Added(index, Tool(call))];
      }
      assert call == Named(before, d);
      if d.arguments != "" {
        var arguments, forward := AppendToolArguments(call.arguments, d.arguments);
        assert Appended(Accumulated(call.arguments, ""), d.arguments) == Accumulated(arguments, "" + forward);
        assert "" + forward == forward;
        call := call.(arguments := arguments);
        if forward != "" {
          events := events + [ArgumentsDelta(index, forward)];
        }
      }
    }

    method ConsumeTool(d: ToolDelta)
      requires ToolsIndexed(Now())
      modifies this`toolCalls, this`toolIndexes, this`nextIndex, this`events
      ensures Now() == Fed(old(Now()), ToolPiece(d))
      ensures events == old(events) + Emitted(old(Now()), ToolPiece(d))
    {
      var call, index := FindCall(d.key);
      call := GrowCall(index, call, d);
      toolCalls := toolCalls[d.key := call];
    }

    method ConsumeToolDeltas(tools: seq<ToolDelta>)
      requires ToolsIndexed(Now())
      modifies this`toolCalls, this`toolIndexes, this`nextIndex, this`events
      ensures Now() == FedAll(old(Now()), ToolPieces(tools))
      ensures events == old(events) + EmittedAll(old(Now()), ToolPieces(tools))
    {
      for i := 0 to |tools|
        invariant ToolsIndexed(Now())
        invariant Now() == FedAll(old(Now()), ToolPieces(tools[..i]))
        invariant events == old(events) + EmittedAll(old(Now()), ToolPieces(tools[..i]))
      {
        ghost var fed := EmittedAll(old(Now()), ToolPieces(tools[..i]));
        ghost var last := Emitted(Now(), ToolPiece(tools[i]));
        ConsumeTool(tools[i]);
        FedOne(old(Now()), ToolPieces(tools[..i]), ToolPiece(tools[i]));
        assert tools[..i + 1][..i] == tools[..i];
        Associative(old(events), fed, last);
      }
      assert tools[..|tools|] == tools;
    }

    method ConsumeChoice(choice: Choice)
      requires ToolsIndexed(Now())
      modifies this`text, this`reasoning, this`toolCalls, this`toolIndexes, this`textIndex, this`reasonIndex, this`nextIndex, this`events
      ensures Now() == FedAll(old(Now()), ChoicePieces(choice))
      ensures events == old(events) + EmittedAll(old(Now()), ChoicePieces(choice))
    {
      if choice.content != "" {
        if textIndex < 0 {
          textIndex := AllocateIndex();
        }
        text := text + choice.content;
        events := events + [TextDelta(textIndex, choice.content)];
      }
      ghost var middle := Now();
      assert middle == Fed(old(Now()), TextPiece(choice.content));
      if choice.reasoning != "" {
        if reasonIndex < 0 {
          reasonIndex := AllocateIndex();
        }
        reasoning := reasoning + choice.reasoning;
        events := events + [ReasoningDelta(reasonIndex, choice.reasoning)];
      }
      assert Now() == Fed(middle, ReasoningPiece(choice.reasoning));
      ghost var sent := Emitted(old(Now()), TextPiece(choice.content)) + Emitted(middle, ReasoningPiece(choice.reasoning));
      assert events == old(events) + sent;
      FedTwo(old(Now()), TextPiece(choice.content), ReasoningPiece(choice.reasoning));
      FedInTurn(old(Now()), [TextPiece(choice.content), ReasoningPiece(choice.reasoning)], ToolPieces(choice.tools));
      Associative(old(events), sent, EmittedAll(Now(), ToolPieces(choice.tools)));
      ConsumeToolDeltas(choice.tools);
    }

    /** The parts of the final response by index. */
    method CollectParts() returns (parts: map<int, Part>)
      requires WellIndexed(Now())
      ensures Placed(Now(), parts, |toolCalls|)
    {
      parts := map[];
      if reasoning != "" {
        SlotAtIndex(Now(), ReasoningSlot);
        parts := parts[reasonIndex := Part.Reasoning(reasoning)];
      }
      if text != "" {
        SlotAtIndex(Now(), TextSlot);
        parts := parts[textIndex := Part.Text(text)];
      }
      for key := 0 to |toolCalls|
        invariant Placed(Now(), parts, key)
      {
        if key in toolCalls {
          SlotAtIndex(Now(), ToolSlot(key));
          parts := parts[toolIndexes[key] := Tool(toolCalls[key])];
        }
      }
    }

    method Complete()
      requires WellIndexed(Now())
      modifies this`events
      ensures events == old(events) + [Completed(Output(Now(), nextIndex))]
    {
      var parts := CollectParts();
      var output: seq<Part> := [];
      for index := 0 to nextIndex
        invariant output == Output(Now(), index)
        invariant events == old(events)
      {
        assert ListedBelow(Now(), SlotAt(Now(), index), |toolCalls|) <==> Listed(Now(), SlotAt(Now(), index));
        if index in parts {
          output := output + [parts[index]];
        }
      }
      ghost var now := Now();
      events := events + [Completed(output)];
      assert Now() == now;
    }

    method ConsumeChunk(choices: seq<Choice>)
      requires WellIndexed(Now())
      modifies this
      ensures Now() == FedAll(old(Now()), Pieces(choices)) && started
      ensures events == old(events) + (if old(started) then [] else [Created]) + EmittedAll(old(Now()), Pieces(choices))
    {
      if !started {
        started := true;
        events := events + [Created];
      }
      ghost var before := events;
      for i := 0 to |choices|
        invariant ToolsIndexed(Now()) && started
        invariant Now() == FedAll(old(Now()), Pieces(choices[..i]))
        invariant events == before + EmittedAll(old(Now()), Pieces(choices[..i]))
      {
        ghost var done := Pieces(choices[..i]);
        PiecesNext(choices, i);
        FedInTurn(old(Now()), done, ChoicePieces(choices[i]));
        Associative(before, EmittedAll(old(Now()), done), EmittedAll(Now(), ChoicePieces(choices[i])));
        ConsumeChoice(choices[i]);
      }
      assert choices[..|choices|] == choices;
    }

    ghost predicate Consumed(done: seq<Message>)
      reads this
    {
      WellIndexed(Now()) && Now() == StateAfter(done) && started == HasChunk(done) && events == SoFar(done)
    }

    /** One server-sent message; the end marker stops the stream. */
    method ConsumeMessage(m: Message, ghost done: seq<Message>) returns (more: bool)
      requires Consumed(done)
      modifies this
      ensures more == !m.DoneMarker?
      ensures more ==> Consumed(done + [m])
      ensures !more ==> events == SoFar(done) + [Completed(FinalOutput(MessagePieces(done)))]
    {
      if m.DoneMarker? {
        Complete();
        return false;
      }
      RunIsIndexed(MessagePieces(done + [m]));
      if m.Chunk? {
        NextIsChunk(done, m);
        ConsumeChunk(m.choices);
      } else {
        NextIsSilent(done, m);
      }
      return true;
    }

    /** Every message up to the end marker. */
    method Consume(messages: seq<Message>)
      requires Now() == EMPTY && !started && events == []
      modifies this
      ensures events == Answer(messages)
    {
      NothingYet();
      assert messages[..0] == [];
      for i := 0 to |messages|
        invariant NoneDone(messages[..i]) && Consumed(messages[..i])
      {
        var more := ConsumeMessage(messages[i], messages[..i]);
        if !more {
          AnswerIs(messages, i);
          return;
        }
        assert messages[..i + 1] == messages[..i] + [messages[i]];
      }
      AnswerIs(messages, |messages|);
    }
  }

  // ----- Whole streams

  function HasChunk(messages: seq<Message>): bool {
    exists m :: m in messages && m.Chunk?
  }

  function Opening(messages: seq<Message>): seq<Event> {
    if HasChunk(messages) then [Created] else []
  }

  function MessagePieces(messages: seq<Message>): seq<Piece> {
    if messages == [] then []
    else
      var last := messages[|messages| - 1];
      MessagePieces(messages[..|messages| - 1]) + if last.Chunk? then Pieces(last.choices) else []
  }

  predicate NoneDone(messages: seq<Message>) {
    forall j :: 0 <= j < |messages| ==> !messages[j].DoneMarker?
  }

  lemma NothingYet()
    ensures StateAfter([]) == EMPTY && SoFar([]) == [] && !HasChunk([]) && WellIndexed(EMPTY)
  {
    EmptyIsIndexed();
  }

  /** The messages before the end marker. */
  function Live(messages: seq<Message>): seq<Message> {
    if messages == [] || messages[0].DoneMarker? then [] else [messages[0]] + Live(messages[1..])
  }

  function StateAfter(messages: seq<Message>): State {
    FedAll(EMPTY, MessagePieces(messages))
  }

  function SoFar(messages: seq<Message>): seq<Event> {
    Opening(messages) + EmittedAll(EMPTY, MessagePieces(messages))
  }

  /** Everything sent on for a stream of messages. */
  ghost function Answer(messages: seq<Message>): seq<Event> {
    var live := Live(messages);
    SoFar(live) + if |live| < |messages| then [Completed(FinalOutput(MessagePieces(live)))] else []
  }

  ghost function FinalOutput(pieces: seq<Piece>): seq<Part> {
    RunIsIndexed(pieces);
    var s := FedAll(EMPTY, pieces);
    Output(s, s.nextIndex)
  }

  lemma {:induction false} LiveIs(messages: seq<Message>, n: nat)
    requires n <= |messages| && NoneDone(messages[..n])
    requires n < |messages| ==> messages[n].DoneMarker?
    ensures Live(messages) == messages[..n]
  {
    if n > 0 {
      assert messages[..n] == [messages[0]] + messages[1..][..n - 1];
      assert messages[..n][0] == messages[0];
      LiveIs(messages[1..], n - 1);
    }
  }

  lemma AnswerIs(messages: seq<Message>, n: nat)
    requires n <= |messages| && NoneDone(messages[..n])
    requires n < |messages| ==> messages[n].DoneMarker?
    ensures Answer(messages) == SoFar(messages[..n])
                                + if n < |messages| then [Completed(FinalOutput(MessagePieces(messages[..n])))] else []
  {
    LiveIs(messages, n);
  }

  lemma {:induction false} NoChunkNoPieces(messages: seq<Message>)
    ensures !HasChunk(messages) ==> MessagePieces(messages) == []
  {
    if messages != [] {
      NoChunkNoPieces(messages[..|messages| - 1]);
      assert messages[|messages| - 1] in messages;
    }
  }

  lemma NextIsSilent(done: seq<Message>, m: Message)
    requires !m.Chunk?
    ensures HasChunk(done + [m]) == HasChunk(done) && MessagePieces(done + [m]) == MessagePieces(done)
  {
    assert (done + [m])[..|done|] == done;
  }

  lemma ChunkPieces(done: seq<Message>, m: Message)
    requires m.Chunk?
    ensures HasChunk(done + [m])
    ensures MessagePieces(done + [m]) == MessagePieces(done) + Pieces(m.choices)
  {
    assert (done + [m])[..|done|] == done;
    assert m in done + [m];
  }

  lemma ChunkFeeds(done: seq<Message>, m: Message)
    requires m.Chunk?
    ensures StateAfter(done + [m]) == FedAll(StateAfter(done), Pieces(m.choices))
    ensures EmittedAll(EMPTY, MessagePieces(done + [m]))
         == EmittedAll(EMPTY, MessagePieces(done)) + EmittedAll(StateAfter(done), Pieces(m.choices))
  {
    ChunkPieces(done, m);
    FedInTurn(EMPTY, MessagePieces(done), Pieces(m.choices));
  }

  lemma Opens(opening: seq<Event>, sent: seq<Event>, more: seq<Event>)
    requires opening == [Created] || (opening == [] && sent == [])
    ensures [Created] + (sent + more) == (opening + sent) + (if opening == [] then [Created] else []) + more
  {
    if opening == [] {
      assert sent + more == more && opening + sent + [Created] == [Created];
    } else {
      Associative(opening, sent, more);
      assert (opening + sent) + [] == opening + sent;
    }
  }

  lemma NextIsChunk(done: seq<Message>, m: Message)
    requires m.Chunk?
    ensures HasChunk(done + [m])
    ensures StateAfter(done + [m]) == FedAll(StateAfter(done), Pieces(m.choices))
    ensures SoFar(done + [m]) == SoFar(done) + (if HasChunk(done) then [] else [Created]) + EmittedAll(StateAfter(done), Pieces(m.choices))
  {
    ChunkPieces(done, m);
    ChunkFeeds(done, m);
    NoChunkNoPieces(done);
    Opens(Opening(done), EmittedAll(EMPTY, MessagePieces(done)), EmittedAll(StateAfter(done), Pieces(m.choices)));
  }

  // ----- Output indexes

  lemma EmptyIsIndexed()
    ensures WellIndexed(EMPTY)
  {
  }

  function PieceSlot(piece: Piece): Slot {
    match piece
    case TextPiece(_) => TextSlot
    case ReasoningPiece(_) => ReasoningSlot
    case ToolPiece(d) => ToolSlot(d.key)
  }

  /** The next index goes to the slot of the piece when that has none, and no other index changes. */
  lemma FedIndexes(s: State, piece: Piece, slot: Slot)
    requires ToolsIndexed(s) && (forall key :: key in s.toolIndexes ==> 0 <= s.toolIndexes[key])
    ensures var s' := Fed(s, piece);
            && (slot != PieceSlot(piece) || IndexOf(s, slot) >= 0 ==> IndexOf(s', slot) == IndexOf(s, slot))
            && (s'.nextIndex == s.nextIndex ==> IndexOf(s', slot) == IndexOf(s, slot))
            && (s'.nextIndex != s.nextIndex ==> s'.nextIndex == s.nextIndex + 1 && IndexOf(s', PieceSlot(piece)) == s.nextIndex)
  {
  }

  lemma FedKeepsIndexed(s: State, piece: Piece)
    requires WellIndexed(s)
    ensures WellIndexed(Fed(s, piece))
  {
    var s' := Fed(s, piece);
    forall slot
      ensures -1 <= IndexOf(s', slot) < s'.nextIndex
    {
      FedIndexes(s, piece, slot);
    }
    forall a, b | 0 <= IndexOf(s', a) == IndexOf(s', b)
      ensures a == b
    {
      FedIndexes(s, piece, a);
      FedIndexes(s, piece, b);
    }
    forall i | 0 <= i < s'.nextIndex
      ensures Occupied(s', i)
    {
      FedIndexes(s, piece, PieceSlot(piece));
      if i < s.nextIndex {
        FedIndexes(s, piece, SlotAt(s, i));
        assert IndexOf(s', SlotAt(s, i)) == i;
      } else {
        assert IndexOf(s', PieceSlot(piece)) == i;
      }
    }
  }

  /** In every stream the indexes allocated are exactly those below the next one, none of them shared. */
  lemma {:induction false} RunIsIndexed(pieces: seq<Piece>)
    ensures WellIndexed(FedAll(EMPTY, pieces))
  {
    if pieces == [] {
      EmptyIsIndexed();
    } else {
      RunIsIndexed(pieces[..|pieces| - 1]);
      FedKeepsIndexed(FedAll(EMPTY, pieces[..|pieces| - 1]), pieces[|pieces| - 1]);
    }
  }
}
