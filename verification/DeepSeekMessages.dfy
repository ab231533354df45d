/** What a DeepSeek stream sends on, in terms of the fields of the provider's messages. */
module DeepSeekMessages {
  import opened Collections
  import opened NeutralEvents
  import opened ToolArguments
  import opened DeepSeek
  import opened DeepSeekResponse

  // ----- What the messages carry

  function NonEmpty(text: string): seq<string> {
    if text != "" then [text] else []
  }

  function ArgumentsIn(tools: seq<ToolDelta>, key: int): seq<string> {
    if tools == [] then []
    else
      var last := tools[|tools| - 1];
      ArgumentsIn(tools[..|tools| - 1], key) + if last.key == key then NonEmpty(last.arguments) else []
  }

  /** The text of a choice that belongs to a slot: its content, its reasoning, or the arguments of one tool call. */
  function TextsIn(choice: Choice, slot: Slot): seq<string> {
    match slot
    case TextSlot => NonEmpty(choice.content)
    case ReasoningSlot => NonEmpty(choice.reasoning)
    case ToolSlot(key) => ArgumentsIn(choice.tools, key)
  }

  /** The choices of all chunks in order. */
  function ChoicesOf(messages: seq<Message>): seq<Choice> {
    if messages == [] then []
    else
      var last := messages[|messages| - 1];
      ChoicesOf(messages[..|messages| - 1]) + if last.Chunk? then last.choices else []
  }

  function SentFor(choices: seq<Choice>, slot: Slot): seq<string> {
    if choices == [] then [] else SentFor(choices[..|choices| - 1], slot) + TextsIn(choices[|choices| - 1], slot)
  }

  function DeltasOf(choices: seq<Choice>): seq<ToolDelta> {
    if choices == [] then [] else DeltasOf(choices[..|choices| - 1]) + choices[|choices| - 1].tools
  }

  function LastId(tools: seq<ToolDelta>, key: int): string {
    if tools == [] then ""
    else
      var last := tools[|tools| - 1];
      if last.key == key && last.id != "" then last.id else LastId(tools[..|tools| - 1], key)
  }

  function LastName(tools: seq<ToolDelta>, key: int): string {
    if tools == [] then ""
    else
      var last := tools[|tools| - 1];
      if last.key == key && last.name != "" then last.name else LastName(tools[..|tools| - 1], key)
  }

  function ToolSlots(tools: seq<ToolDelta>): seq<Slot> {
    seq(|tools|, i requires 0 <= i < |tools| => ToolSlot(tools[i].key))
  }

  /** The slots that a choice has something for: text first, then reasoning, then its tool calls in order. */
  function SlotsIn(choice: Choice): seq<Slot> {
    (if choice.content != "" then [TextSlot] else []) + (if choice.reasoning != "" then [ReasoningSlot] else []) + ToolSlots(choice.tools)
  }

  function SlotsOf(choices: seq<Choice>): seq<Slot> {
    if choices == [] then [] else SlotsOf(choices[..|choices| - 1]) + SlotsIn(choices[|choices| - 1])
  }

  /** Each slot once, where it comes first. */
  function FirstOnly(slots: seq<Slot>): seq<Slot> {
    if slots == [] then []
    else
      var front, last := FirstOnly(slots[..|slots| - 1]), slots[|slots| - 1];
      if last in front then front else front + [last]
  }

  // ----- The same of pieces

  function Touched(piece: Piece): seq<Slot> {
    if piece.ToolPiece? || PieceInput(piece) != "" then [PieceSlot(piece)] else []
  }

  function TouchedAll(pieces: seq<Piece>): seq<Slot> {
    if pieces == [] then [] else TouchedAll(pieces[..|pieces| - 1]) + Touched(pieces[|pieces| - 1])
  }

  function ToolsOf(pieces: seq<Piece>): seq<ToolDelta> {
    if pieces == [] then []
    else
      var last := pieces[|pieces| - 1];
      ToolsOf(pieces[..|pieces| - 1]) + if last.ToolPiece? then [last.tool] else []
  }

  lemma OneMore(pieces: seq<Piece>, piece: Piece)
    ensures TouchedAll(pieces + [piece]) == TouchedAll(pieces) + Touched(piece)
    ensures ToolsOf(pieces + [piece]) == ToolsOf(pieces) + if piece.ToolPiece? then [piece.tool] else []
  {
    assert (pieces + [piece])[..|pieces|] == pieces;
  }

  /** What a sequence of pieces says, slot by slot. */
  ghost predicate Says(pieces: seq<Piece>, slot: Slot, texts: seq<string>, slots: seq<Slot>, tools: seq<ToolDelta>) {
    InputOf(pieces, slot) == texts && TouchedAll(pieces) == slots && ToolsOf(pieces) == tools
  }

  lemma SaysOne(piece: Piece, slot: Slot)
    ensures Says([piece], slot, if PieceSlot(piece) == slot then NonEmpty(PieceInput(piece)) else [], Touched(piece),
                 if piece.ToolPiece? then [piece.tool] else [])
  {
    var none: seq<Piece> := [];
    assert none + [piece] == [piece];
    OneMore(none, piece);
    InputOfAppend(none, piece, slot);
  }

  lemma {:induction false} InputConcat(a: seq<Piece>, b: seq<Piece>, slot: Slot)
    ensures InputOf(a + b, slot) == InputOf(a, slot) + InputOf(b, slot)
  {
    if b == [] {
      assert a + b == a;
    } else {
      var b', last := b[..|b| - 1], b[|b| - 1];
      assert b == b' + [last] && a + b == (a + b') + [last];
      InputConcat(a, b', slot);
      InputOfAppend(a + b', last, slot);
      InputOfAppend(b', last, slot);
    }
  }

  lemma {:induction false} TouchedConcat(a: seq<Piece>, b: seq<Piece>)
    ensures TouchedAll(a + b) == TouchedAll(a) + TouchedAll(b)
  {
    if b == [] {
      assert a + b == a;
    } else {
      var b', last := b[..|b| - 1], b[|b| - 1];
      assert (a + b)[..|a + b| - 1] == a + b';
      TouchedConcat(a, b');
      Associative(TouchedAll(a), TouchedAll(b'), Touched(last));
    }
  }

  lemma {:induction false} ToolsConcat(a: seq<Piece>, b: seq<Piece>)
    ensures ToolsOf(a + b) == ToolsOf(a) + ToolsOf(b)
  {
    if b == [] {
      assert a + b == a;
    } else {
      var b', last := b[..|b| - 1], b[|b| - 1];
      assert (a + b)[..|a + b| - 1] == a + b';
      ToolsConcat(a, b');
      Associative(ToolsOf(a), ToolsOf(b'), if last.ToolPiece? then [last.tool] else []);
    }
  }

  lemma SaysConcat(a: seq<Piece>, b: seq<Piece>, slot: Slot)
    ensures Says(a + b, slot, InputOf(a, slot) + InputOf(b, slot), TouchedAll(a) + TouchedAll(b), ToolsOf(a) + ToolsOf(b))
  {
    InputConcat(a, b, slot);
    TouchedConcat(a, b);
    ToolsConcat(a, b);
  }

  lemma {:induction false} ToolsInput(tools: seq<ToolDelta>, slot: Slot)
    ensures InputOf(ToolPieces(tools), slot) == if slot.ToolSlot? then ArgumentsIn(tools, slot.key) else []
  {
    if tools != [] {
      var front, last := tools[..|tools| - 1], tools[|tools| - 1];
      ToolsInput(front, slot);
      InputOfAppend(ToolPieces(front), ToolPiece(last), slot);
      assert InputOf(ToolPieces(front), slot) + [] == InputOf(ToolPieces(front), slot);
    }
  }

  lemma {:induction false} ToolsTouched(tools: seq<ToolDelta>)
    ensures TouchedAll(ToolPieces(tools)) == ToolSlots(tools)
  {
    if tools != [] {
      var front, last := tools[..|tools| - 1], tools[|tools| - 1];
      ToolsTouched(front);
      OneMore(ToolPieces(front), ToolPiece(last));
      assert ToolSlots(tools) == ToolSlots(front) + [ToolSlot(last.key)];
    }
  }

  lemma {:induction false} ToolsStay(tools: seq<ToolDelta>)
    ensures ToolsOf(ToolPieces(tools)) == tools
  {
    if tools != [] {
      var front, last := tools[..|tools| - 1], tools[|tools| - 1];
      ToolsStay(front);
      OneMore(ToolPieces(front), ToolPiece(last));
      assert tools == front + [last];
    }
  }

  lemma ToolsSay(tools: seq<ToolDelta>, slot: Slot)
    ensures Says(ToolPieces(tools), slot, if slot.ToolSlot? then ArgumentsIn(tools, slot.key) else [], ToolSlots(tools), tools)
  {
    ToolsInput(tools, slot);
    ToolsTouched(tools);
    ToolsStay(tools);
  }

  /** A choice's pieces carry its fields: its content for the text, its reasoning for the reasoning, and each call's
      arguments for the call. */
  lemma ChoiceSays(choice: Choice, slot: Slot)
    ensures Says(ChoicePieces(choice), slot, TextsIn(choice, slot), SlotsIn(choice), choice.tools)
  {
    var text, reasoning := TextPiece(choice.content), ReasoningPiece(choice.reasoning);
    SaysOne(text, slot);
    SaysOne(reasoning, slot);
    SaysConcat([text], [reasoning], slot);
    assert [text] + [reasoning] == [text, reasoning];
    ToolsSay(choice.tools, slot);
    SaysConcat([text, reasoning], ToolPieces(choice.tools), slot);
  }

  lemma {:induction false} ChoicesSay(choices: seq<Choice>, slot: Slot)
    ensures Says(Pieces(choices), slot, SentFor(choices, slot), SlotsOf(choices), DeltasOf(choices))
  {
    if choices != [] {
      var front, last := choices[..|choices| - 1], choices[|choices| - 1];
      ChoicesSay(front, slot);
      ChoiceSays(last, slot);
      SaysConcat(Pieces(front), ChoicePieces(last), slot);
    }
  }

  lemma {:induction false} PiecesConcat(a: seq<Choice>, b: seq<Choice>)
    ensures Pieces(a + b) == Pieces(a) + Pieces(b)
  {
    if b == [] {
      assert a + b == a;
    } else {
      var b', last := b[..|b| - 1], b[|b| - 1];
      assert (a + b)[..|a + b| - 1] == a + b';
      PiecesConcat(a, b');
      Associative(Pieces(a), Pieces(b'), ChoicePieces(last));
    }
  }

  lemma {:induction false} MessagesArePieces(messages: seq<Message>)
    ensures MessagePieces(messages) == Pieces(ChoicesOf(messages))
  {
    if messages != [] {
      var front, last := messages[..|messages| - 1], messages[|messages| - 1];
      MessagesArePieces(front);
      PiecesConcat(ChoicesOf(front), if last.Chunk? then last.choices else []);
    }
  }

  // ----- The indexes are given in the order of arrival

  /** Each slot of a list has its place there as its index, and no other slot has one. */
  ghost predicate InOrder(s: State, order: seq<Slot>) {
    && |order| == s.nextIndex
    && (forall i :: 0 <= i < |order| ==> IndexOf(s, order[i]) == i)
    && (forall slot :: slot !in order ==> IndexOf(s, slot) < 0)
  }

  function Joined(order: seq<Slot>, slots: seq<Slot>): seq<Slot> {
    if slots == [] || slots[0] in order then order else order + [slots[0]]
  }

  lemma FedInOrder(s: State, order: seq<Slot>, piece: Piece)
    requires WellIndexed(s) && InOrder(s, order)
    ensures InOrder(Fed(s, piece), Joined(order, Touched(piece)))
  {
    var s', slot := Fed(s, piece), PieceSlot(piece);
    forall other
      ensures other != slot || IndexOf(s, other) >= 0 ==> IndexOf(s', other) == IndexOf(s, other)
      ensures s'.nextIndex == s.nextIndex ==> IndexOf(s', other) == IndexOf(s, other)
    {
      FedIndexes(s, piece, other);
    }
    FedIndexes(s, piece, slot);
    FedAllocates(s, piece);
  }

  lemma FedAllocates(s: State, piece: Piece)
    requires WellIndexed(s)
    ensures Fed(s, piece).nextIndex != s.nextIndex <==> Touched(piece) != [] && IndexOf(s, PieceSlot(piece)) < 0
  {
  }

  lemma FirstOnlyNext(slots: seq<Slot>, more: seq<Slot>)
    requires |more| <= 1
    ensures FirstOnly(slots + more) == Joined(FirstOnly(slots), more)
  {
    if more == [] {
      assert slots + more == slots;
    } else {
      assert (slots + more)[..|slots|] == slots;
    }
  }

  lemma {:induction false} RunInOrder(pieces: seq<Piece>)
    ensures InOrder(FedAll(EMPTY, pieces), FirstOnly(TouchedAll(pieces)))
  {
    if pieces != [] {
      var front, last := pieces[..|pieces| - 1], pieces[|pieces| - 1];
      RunInOrder(front);
      RunIsIndexed(front);
      FedInOrder(FedAll(EMPTY, front), FirstOnly(TouchedAll(front)), last);
      FirstOnlyNext(TouchedAll(front), Touched(last));
    }
  }

  // ----- Tool calls have the last id and name sent for them

  ghost predicate NamedBy(s: State, tools: seq<ToolDelta>) {
    forall key ::
      if key in s.toolCalls then s.toolCalls[key].id == LastId(tools, key) && s.toolCalls[key].name == LastName(tools, key)
      else LastId(tools, key) == "" && LastName(tools, key) == ""
  }

  lemma LastNext(tools: seq<ToolDelta>, d: ToolDelta, key: int)
    ensures LastId(tools + [d], key) == if d.key == key && d.id != "" then d.id else LastId(tools, key)
    ensures LastName(tools + [d], key) == if d.key == key && d.name != "" then d.name else LastName(tools, key)
  {
    assert (tools + [d])[..|tools|] == tools;
  }

  lemma FedIsNamed(s: State, tools: seq<ToolDelta>, d: ToolDelta)
    requires ToolsIndexed(s) && NamedBy(s, tools)
    ensures NamedBy(Fed(s, ToolPiece(d)), tools + [d])
  {
    forall key
      ensures LastId(tools + [d], key) == if d.key == key && d.id != "" then d.id else LastId(tools, key)
      ensures LastName(tools + [d], key) == if d.key == key && d.name != "" then d.name else LastName(tools, key)
    {
      LastNext(tools, d, key);
    }
  }

  lemma {:induction false} RunIsNamed(pieces: seq<Piece>)
    ensures NamedBy(FedAll(EMPTY, pieces), ToolsOf(pieces))
  {
    if pieces != [] {
      var front, last := pieces[..|pieces| - 1], pieces[|pieces| - 1];
      RunIsNamed(front);
      if last.ToolPiece? {
        FedIsNamed(FedAll(EMPTY, front), ToolsOf(front), last.tool);
      } else {
        assert ToolsOf(front) + [] == ToolsOf(front);
      }
    }
  }

  /** Whether an event announces a tool call under an index, with an id and a name. */
  predicate Announces(e: Event, index: int, id: string, name: string) {
    e.Added? && e.index == index && e.part.Tool? && e.part.call.id == id && e.part.call.name == name
  }

  lemma AnnouncedOnce(index: int, call: ToolCall, d: ToolDelta)
    ensures d.name == "" ==> forall e :: e in ToolEvents(index, call, d) ==> !e.Added?
    ensures d.name != "" ==> ToolEvents(index, call, d) != []
                             && Announces(ToolEvents(index, call, d)[0], index, if d.id != "" then d.id else call.id, d.name)
  {
  }

  /** A tool call is announced each time a name is sent for it, first of all, with that name and the last id sent for it. */
  lemma AnnouncedAsNamed(pieces: seq<Piece>, d: ToolDelta)
    ensures var s', emitted := Fed(FedAll(EMPTY, pieces), ToolPiece(d)), Emitted(FedAll(EMPTY, pieces), ToolPiece(d));
            && (d.name == "" ==> forall e :: e in emitted ==> !e.Added?)
            && (d.name != "" ==> emitted != [] && d.key in s'.toolIndexes
                                 && Announces(emitted[0], s'.toolIndexes[d.key], LastId(ToolsOf(pieces) + [d], d.key), d.name))
  {
    RunIsNamed(pieces);
    LastNext(ToolsOf(pieces), d, d.key);
    var t := WithTool(FedAll(EMPTY, pieces), d.key);
    AnnouncedOnce(t.toolIndexes[d.key], t.toolCalls[d.key], d);
  }

  // ----- The final response

  /** What the messages say a slot's part is. */
  function SentPart(choices: seq<Choice>, slot: Slot): Part {
    var sent := SentFor(choices, slot);
    match slot
    case TextSlot => Text(Concat(sent))
    case ReasoningSlot => Reasoning(Concat(sent))
    case ToolSlot(key) =>
      Tool(ToolCall(LastId(DeltasOf(choices), key), LastName(DeltasOf(choices), key), AppendedAll(sent).arguments))
  }

  function KeysIn(tools: seq<ToolDelta>): set<int> {
    set d | d in tools :: d.key
  }

  /** The parts of some slots in their order, without the tool calls whose key is not below a bound. */
  function SentParts(choices: seq<Choice>, slots: seq<Slot>, bound: nat): seq<Part> {
    if slots == [] then []
    else
      var last := slots[|slots| - 1];
      SentParts(choices, slots[..|slots| - 1], bound)
      + if last.ToolSlot? && !(0 <= last.key < bound) then [] else [SentPart(choices, last)]
  }

  lemma {:induction false} KeysOfTools(pieces: seq<Piece>)
    ensures KeysOf(pieces) == KeysIn(ToolsOf(pieces))
  {
    if pieces != [] {
      var front, last := pieces[..|pieces| - 1], pieces[|pieces| - 1];
      KeysOfTools(front);
      if last.ToolPiece? {
        assert forall d :: d in ToolsOf(pieces) <==> d in ToolsOf(front) || d == last.tool;
      }
    }
  }

  /** What a state holds for a slot is what the messages say. */
  lemma PartIsSent(choices: seq<Choice>, slot: Slot)
    requires IndexOf(FedAll(EMPTY, Pieces(choices)), slot) >= 0
    ensures PartOf(FedAll(EMPTY, Pieces(choices)), slot) == SentPart(choices, slot)
  {
    var pieces := Pieces(choices);
    var s := FedAll(EMPTY, pieces);
    ChoicesSay(choices, slot);
    StreamMatches(pieces, slot);
    if slot.ToolSlot? {
      RunIsNamed(pieces);
      assert slot.key in s.toolCalls;
    }
  }

  lemma SentPartsAppend(choices: seq<Choice>, slots: seq<Slot>, slot: Slot, bound: nat)
    ensures SentParts(choices, slots + [slot], bound)
         == SentParts(choices, slots, bound) + if slot.ToolSlot? && !(0 <= slot.key < bound) then [] else [SentPart(choices, slot)]
  {
    assert (slots + [slot])[..|slots|] == slots;
  }

  lemma OutputNext(choices: seq<Choice>, s: State, order: seq<Slot>, n: nat)
    requires s == FedAll(EMPTY, Pieces(choices)) && WellIndexed(s) && InOrder(s, order) && n < |order|
    requires Output(s, n) == SentParts(choices, order[..n], |s.toolCalls|)
    ensures Output(s, n + 1) == SentParts(choices, order[..n + 1], |s.toolCalls|)
  {
    var slot := order[n];
    assert order[..n + 1] == order[..n] + [slot];
    SentPartsAppend(choices, order[..n], slot, |s.toolCalls|);
    SlotAtIndex(s, slot);
    PartIsSent(choices, slot);
    ListedIs(s, slot);
  }

  lemma {:induction false} OutputIsSent(choices: seq<Choice>, s: State, order: seq<Slot>, n: nat)
    requires s == FedAll(EMPTY, Pieces(choices)) && WellIndexed(s) && InOrder(s, order) && n <= |order|
    ensures Output(s, n) == SentParts(choices, order[..n], |s.toolCalls|)
  {
    if n > 0 {
      var m: nat := n - 1;
      OutputIsSent(choices, s, order, m);
      OutputNext(choices, s, order, m);
    }
  }

  lemma ListedIs(s: State, slot: Slot)
    requires WellIndexed(s) && IndexOf(s, slot) >= 0
    ensures Listed(s, slot) <==> !(slot.ToolSlot? && !(0 <= slot.key < |s.toolCalls|))
  {
  }

  /** The final response lists the parts in the order in which the messages first have something for them: the text is the
      whole content, the reasoning is the whole reasoning, and a tool call has the last id and name sent for it and the
      arguments sent for it, if its key is below the number of tool calls. */
  lemma FinalOutputIsSent(messages: seq<Message>)
    ensures var choices := ChoicesOf(messages);
            FinalOutput(MessagePieces(messages))
            == SentParts(choices, FirstOnly(SlotsOf(choices)), |KeysIn(DeltasOf(choices))|)
  {
    var choices := ChoicesOf(messages);
    var pieces := Pieces(choices);
    MessagesArePieces(messages);
    ChoicesSay(choices, TextSlot);
    RunInOrder(pieces);
    RunIsIndexed(pieces);
    KeysAreKept(pieces);
    KeysOfTools(pieces);
    var order := FirstOnly(SlotsOf(choices));
    OutputIsSent(choices, FedAll(EMPTY, pieces), order, |order|);
    assert order[..|order|] == order;
  }

  /** Under each index, what was sent on is what the messages have for the slot that came in that place. */
  lemma StreamIsSent(messages: seq<Message>, slot: Slot)
    ensures var choices, pieces := ChoicesOf(messages), MessagePieces(messages);
            var i := IndexOf(FedAll(EMPTY, pieces), slot);
            && (i >= 0 <==> slot in FirstOnly(SlotsOf(choices)))
            && (i >= 0 ==> i < |FirstOnly(SlotsOf(choices))| && FirstOnly(SlotsOf(choices))[i] == slot
                           && DeltasAt(EmittedAll(EMPTY, pieces), i) == Expected(slot, SentFor(choices, slot)).forwarded)
  {
    var choices := ChoicesOf(messages);
    MessagesArePieces(messages);
    ChoicesSay(choices, slot);
    RunInOrder(Pieces(choices));
    StreamMatches(Pieces(choices), slot);
    var order := FirstOnly(SlotsOf(choices));
    var s := FedAll(EMPTY, Pieces(choices));
    if slot in order {
      var i :| 0 <= i < |order| && order[i] == slot;
    }
  }

  // ----- The whole answer

  /** The final response that the messages before the end marker say. */
  function SentOutput(messages: seq<Message>): seq<Part> {
    var choices := ChoicesOf(Live(messages));
    SentParts(choices, FirstOnly(SlotsOf(choices)), |KeysIn(DeltasOf(choices))|)
  }

  /** Everything sent on: an opening event when there is a chunk, then only events about output items, and last, exactly
      when the end marker came, the final response with what the messages before it carry. */
  lemma AnswerIsSent(messages: seq<Message>)
    ensures var live := Live(messages);
            var middle := EmittedAll(EMPTY, MessagePieces(live));
            && (forall e :: e in middle ==> IsTyped(e))
            && Answer(messages)
               == (if exists m :: m in live && m.Chunk? then [Created] else []) + middle
                  + (if exists m :: m in messages && m.DoneMarker? then [Completed(SentOutput(messages))] else [])
  {
    FinalOutputIsSent(Live(messages));
    StreamMatches(MessagePieces(Live(messages)), TextSlot);
    LiveIsAll(messages);
  }

  lemma {:induction false} LiveIsAll(messages: seq<Message>)
    ensures |Live(messages)| < |messages| <==> exists m :: m in messages && m.DoneMarker?
  {
    if messages != [] {
      assert messages[0] in messages;
      if !messages[0].DoneMarker? {
        LiveIsAll(messages[1..]);
        assert forall m :: m in messages <==> m == messages[0] || m in messages[1..];
      }
    }
  }

  lemma AnswerEnds(messages: seq<Message>) returns (front: seq<Event>)
    requires exists m :: m in messages && m.DoneMarker?
    ensures Answer(messages) == front + [Completed(SentOutput(messages))]
  {
    AnswerIsSent(messages);
    var live := Live(messages);
    front := (if exists m :: m in live && m.Chunk? then [Created] else []) + EmittedAll(EMPTY, MessagePieces(live));
  }

  lemma {:induction false} NoMetadata(choices: seq<Choice>, slots: seq<Slot>, bound: nat)
    ensures forall part :: part in SentParts(choices, slots, bound) ==> !part.Metadata?
  {
    if slots != [] {
      NoMetadata(choices, slots[..|slots| - 1], bound);
    }
  }

  lemma NothingHidden(messages: seq<Message>)
    ensures forall part :: part in SentOutput(messages) ==> !part.Metadata?
  {
    var choices := ChoicesOf(Live(messages));
    NoMetadata(choices, FirstOnly(SlotsOf(choices)), |KeysIn(DeltasOf(choices))|);
  }
}
