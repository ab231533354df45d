/** What a DeepSeek stream adds up to: the incremental view and the final response agree. */
module DeepSeekResponse {
  import opened Collections
  import opened NeutralEvents
  import opened ToolArguments
  import opened DeepSeek

  // ----- What the provider sent for one slot

  function PieceInput(piece: Piece): string {
    match piece
    case TextPiece(text) => text
    case ReasoningPiece(text) => text
    case ToolPiece(d) => d.arguments
  }

  function InputOf(pieces: seq<Piece>, slot: Slot): seq<string> {
    if pieces == [] then []
    else
      var front, last := InputOf(pieces[..|pieces| - 1], slot), pieces[|pieces| - 1];
      if PieceSlot(last) == slot && PieceInput(last) != "" then front + [PieceInput(last)] else front
  }

  /** Text and reasoning are passed on as they come; tool arguments lose their placeholders. */
  function Expected(slot: Slot, input: seq<string>): Accumulated {
    if slot.ToolSlot? then AppendedAll(input) else Accumulated(Concat(input), Concat(input))
  }

  function SlotKind(slot: Slot): Kind {
    match slot
    case TextSlot => TextKind
    case ReasoningSlot => ReasoningKind
    case ToolSlot(_) => ToolCallKind
  }

  lemma InputOfAppend(pieces: seq<Piece>, piece: Piece, slot: Slot)
    ensures InputOf(pieces + [piece], slot)
         == if PieceSlot(piece) == slot && PieceInput(piece) != "" then InputOf(pieces, slot) + [PieceInput(piece)] else InputOf(pieces, slot)
  {
    assert (pieces + [piece])[..|pieces|] == pieces;
  }

  /** Feeding one more string to a slot. */
  function Grows(slot: Slot, a: Accumulated, input: string): Accumulated {
    if slot.ToolSlot? then Appended(a, input) else Accumulated(a.arguments + input, a.forwarded + input)
  }

  lemma ExpectedAppend(slot: Slot, input: seq<string>, next: string)
    ensures Expected(slot, input + [next]) == Grows(slot, Expected(slot, input), next)
  {
    assert (input + [next])[..|input|] == input;
  }

  // ----- What one piece does

  /** What is passed on of a piece. */
  function PassedOn(s: State, piece: Piece): string
    requires ToolsIndexed(s)
  {
    match piece
    case TextPiece(text) => text
    case ReasoningPiece(text) => text
    case ToolPiece(d) => Forwarded(WithTool(s, d.key).toolCalls[d.key], d)
  }

  predicate IsAbout(e: Event, index: int, kind: Kind) {
    IsTyped(e) && e.index == index && EventKind(e) == kind
  }

  lemma EmittedIsAbout(s: State, piece: Piece, e: Event)
    requires WellIndexed(s) && e in Emitted(s, piece)
    ensures IndexOf(Fed(s, piece), PieceSlot(piece)) >= 0
    ensures IsAbout(e, IndexOf(Fed(s, piece), PieceSlot(piece)), SlotKind(PieceSlot(piece)))
  {
  }

  lemma EmittedDeltas(s: State, piece: Piece, events: seq<Event>, index: int)
    requires WellIndexed(s) && 0 <= index
    ensures DeltasAt(events + Emitted(s, piece), index)
         == DeltasAt(events, index) + if index == IndexOf(Fed(s, piece), PieceSlot(piece)) then PassedOn(s, piece) else ""
  {
    var emitted := Emitted(s, piece);
    EmittedTotal(s, piece, index);
    DeltasAtConcat(events, emitted, index);
  }

  lemma EmittedTotal(s: State, piece: Piece, index: int)
    requires WellIndexed(s) && 0 <= index
    ensures DeltasAt(Emitted(s, piece), index) == if index == IndexOf(Fed(s, piece), PieceSlot(piece)) then PassedOn(s, piece) else ""
  {
    match piece
    case TextPiece(text) => if text != "" { OneEvent(Emitted(s, piece)[0], index); }
    case ReasoningPiece(text) => if text != "" { OneEvent(Emitted(s, piece)[0], index); }
    case ToolPiece(d) =>
      var t := WithTool(s, d.key);
      assert IndexOf(Fed(s, piece), ToolSlot(d.key)) == t.toolIndexes[d.key];
      ToolEventsTotal(t.toolIndexes[d.key], t.toolCalls[d.key], d, index);
  }

  lemma ToolEventsTotal(at: int, call: ToolCall, d: ToolDelta, index: int)
    ensures DeltasAt(ToolEvents(at, call, d), index) == if index == at then Forwarded(call, d) else ""
  {
    var forwarded := Forwarded(call, d);
    var head := if d.name != "" then [Added(at, Tool(Named(call, d)))] else [];
    var tail := if forwarded != "" then [ArgumentsDelta(at, forwarded)] else [];
    assert ToolEvents(at, call, d) == head + tail;
    DeltasAtConcat(head, tail, index);
    if d.name != "" {
      OneEvent(head[0], index);
    }
    if forwarded != "" {
      OneEvent(tail[0], index);
    }
  }

  lemma FedGrows(s: State, piece: Piece, forwarded: string)
    requires WellIndexed(s)
    ensures var slot := PieceSlot(piece);
            var a := Accumulated(Shown(PartOf(s, slot)), forwarded);
            Accumulated(Shown(PartOf(Fed(s, piece), slot)), forwarded + PassedOn(s, piece))
            == if PieceInput(piece) == "" then a else Grows(slot, a, PieceInput(piece))
  {
    assert forwarded + "" == forwarded;
    match piece
    case TextPiece(_) =>
    case ReasoningPiece(_) =>
    case ToolPiece(d) =>
      assert Shown(PartOf(s, ToolSlot(d.key))) == WithTool(s, d.key).toolCalls[d.key].arguments;
      ForwardedIsAppended(Accumulated(WithTool(s, d.key).toolCalls[d.key].arguments, forwarded), d.arguments);
  }

  lemma FedLeavesOthers(s: State, piece: Piece, slot: Slot)
    requires WellIndexed(s) && slot != PieceSlot(piece)
    ensures PartOf(Fed(s, piece), slot) == PartOf(s, slot)
  {
  }

  // ----- What every stream keeps

  ghost predicate SlotMatches(s: State, events: seq<Event>, slot: Slot, expected: Accumulated) {
    && Shown(PartOf(s, slot)) == expected.arguments
    && (IndexOf(s, slot) < 0 ==> expected == NOTHING)
    && (IndexOf(s, slot) >= 0 ==> DeltasAt(events, IndexOf(s, slot)) == expected.forwarded)
  }

  ghost predicate EventsMatch(s: State, events: seq<Event>) {
    forall e :: e in events ==> IsTyped(e) && exists slot :: IndexOf(s, slot) >= 0 && IsAbout(e, IndexOf(s, slot), SlotKind(slot))
  }

  lemma NothingStreamedYet(s: State, events: seq<Event>)
    requires WellIndexed(s) && EventsMatch(s, events)
    ensures DeltasAt(events, s.nextIndex) == ""
  {
    forall e | e in events
      ensures IsTyped(e) && e.index != s.nextIndex
    {
      var slot :| IndexOf(s, slot) >= 0 && IsAbout(e, IndexOf(s, slot), SlotKind(slot));
    }
    NothingStreamed(events, s.nextIndex);
  }

  lemma FedKeepsEvents(s: State, piece: Piece, events: seq<Event>)
    requires WellIndexed(s) && EventsMatch(s, events)
    ensures EventsMatch(Fed(s, piece), events + Emitted(s, piece))
  {
    var s' := Fed(s, piece);
    forall e | e in events + Emitted(s, piece)
      ensures IsTyped(e) && exists slot :: IndexOf(s', slot) >= 0 && IsAbout(e, IndexOf(s', slot), SlotKind(slot))
    {
      if e in Emitted(s, piece) {
        EmittedIsAbout(s, piece, e);
        assert IndexOf(s', PieceSlot(piece)) >= 0;
      } else {
        var slot :| IndexOf(s, slot) >= 0 && IsAbout(e, IndexOf(s, slot), SlotKind(slot));
        FedIndexes(s, piece, slot);
        assert IndexOf(s', slot) >= 0;
      }
    }
  }

  lemma FedKeepsSlot(s: State, piece: Piece, events: seq<Event>, slot: Slot, expected: Accumulated)
    requires WellIndexed(s) && EventsMatch(s, events) && SlotMatches(s, events, slot, expected)
    ensures SlotMatches(Fed(s, piece), events + Emitted(s, piece), slot,
                        if slot == PieceSlot(piece) && PieceInput(piece) != "" then Grows(slot, expected, PieceInput(piece)) else expected)
  {
    var s' := Fed(s, piece);
    FedKeepsIndexed(s, piece);
    FedIndexes(s, piece, slot);
    NothingStreamedYet(s, events);
    if IndexOf(s', slot) >= 0 {
      EmittedDeltas(s, piece, events, IndexOf(s', slot));
    }
    if slot == PieceSlot(piece) {
      FedGrows(s, piece, expected.forwarded);
    } else {
      FedLeavesOthers(s, piece, slot);
    }
  }

  lemma {:induction false} StreamMatches(pieces: seq<Piece>, slot: Slot)
    ensures var s := FedAll(EMPTY, pieces);
            && EventsMatch(s, EmittedAll(EMPTY, pieces))
            && SlotMatches(s, EmittedAll(EMPTY, pieces), slot, Expected(slot, InputOf(pieces, slot)))
  {
    if pieces != [] {
      var front, last := pieces[..|pieces| - 1], pieces[|pieces| - 1];
      assert pieces == front + [last];
      StreamMatches(front, slot);
      RunIsIndexed(front);
      InputOfAppend(front, last, slot);
      ExpectedAppend(slot, InputOf(front, slot), PieceInput(last));
      FedOne(EMPTY, front, last);
      FedKeepsEvents(FedAll(EMPTY, front), last, EmittedAll(EMPTY, front));
      FedKeepsSlot(FedAll(EMPTY, front), last, EmittedAll(EMPTY, front), slot, Expected(slot, InputOf(front, slot)));
    }
  }

  // ----- The final response

  /** The tool-call indexes the provider used. */
  function KeysOf(pieces: seq<Piece>): set<int> {
    if pieces == [] then {}
    else
      var last := pieces[|pieces| - 1];
      KeysOf(pieces[..|pieces| - 1]) + if last.ToolPiece? then {last.tool.key} else {}
  }

  lemma {:induction false} KeysAreKept(pieces: seq<Piece>)
    ensures FedAll(EMPTY, pieces).toolCalls.Keys == KeysOf(pieces)
  {
    if pieces != [] {
      KeysAreKept(pieces[..|pieces| - 1]);
    }
  }

  predicate KeysAreContiguous(pieces: seq<Piece>) {
    KeysOf(pieces) == Range(|KeysOf(pieces)|)
  }

  ghost predicate AllListed(s: State) {
    forall slot :: IndexOf(s, slot) >= 0 ==> Listed(s, slot)
  }

  lemma ListedIffContiguous(s: State)
    requires WellIndexed(s)
    ensures AllListed(s) <==> s.toolCalls.Keys == Range(|s.toolCalls.Keys|)
  {
    var range := Range(|s.toolCalls|);
    if AllListed(s) {
      forall key | key in s.toolCalls
        ensures key in range
      {
        assert IndexOf(s, ToolSlot(key)) >= 0 && Listed(s, ToolSlot(key));
      }
      SameSize(s.toolCalls.Keys, range);
    } else {
      var slot :| IndexOf(s, slot) >= 0 && !Listed(s, slot);
      assert slot.ToolSlot? && slot.key !in range && slot.key in s.toolCalls.Keys;
    }
  }

  lemma {:induction false} OutputLength(s: State, n: nat)
    requires WellIndexed(s) && n <= s.nextIndex
    ensures |Output(s, n)| <= n
    ensures |Output(s, n)| == n <==> forall i :: 0 <= i < n ==> Listed(s, SlotAt(s, i))
    ensures |Output(s, n)| == n ==> forall i :: 0 <= i < n ==> Output(s, n)[i] == PartOf(s, SlotAt(s, i))
  {
    if n > 0 {
      OutputLength(s, n - 1);
    }
  }

  /** The final response holds everything that was streamed exactly when the tool calls are numbered from
      zero without gaps; then each part stands at the index it was streamed under, shows what the provider
      sent for it, and the deltas passed on under that index are what it says they should be. */
  lemma FinalResponseMatchesStream(pieces: seq<Piece>)
    ensures var s, output := FedAll(EMPTY, pieces), FinalOutput(pieces);
            && WellIndexed(s)
            && |output| <= s.nextIndex
            && (|output| == s.nextIndex <==> KeysAreContiguous(pieces))
            && (KeysAreContiguous(pieces) ==> forall slot :: IndexOf(s, slot) >= 0 ==> StandsInPlace(pieces, slot))
  {
    RunIsIndexed(pieces);
    var s := FedAll(EMPTY, pieces);
    OutputLength(s, s.nextIndex);
    ListedIffContiguous(s);
    KeysAreKept(pieces);
    ListedByIndex(s);
    forall slot | AllListed(s) && IndexOf(s, slot) >= 0
      ensures StandsInPlace(pieces, slot)
    {
      ListedStandsInPlace(pieces, slot);
    }
  }

  lemma ListedByIndex(s: State)
    requires WellIndexed(s)
    ensures AllListed(s) <==> forall i :: 0 <= i < s.nextIndex ==> Listed(s, SlotAt(s, i))
  {
    if forall i :: 0 <= i < s.nextIndex ==> Listed(s, SlotAt(s, i)) {
      forall slot | IndexOf(s, slot) >= 0
        ensures Listed(s, slot)
      {
        SlotAtIndex(s, slot);
      }
    }
  }

  lemma ListedStandsInPlace(pieces: seq<Piece>, slot: Slot)
    requires var s := FedAll(EMPTY, pieces); WellIndexed(s) && AllListed(s) && IndexOf(s, slot) >= 0
    ensures StandsInPlace(pieces, slot)
  {
    var s := FedAll(EMPTY, pieces);
    ListedByIndex(s);
    OutputLength(s, s.nextIndex);
    SlotAtIndex(s, slot);
    StreamMatches(pieces, slot);
  }

  ghost predicate StandsInPlace(pieces: seq<Piece>, slot: Slot) {
    var s, output := FedAll(EMPTY, pieces), FinalOutput(pieces);
    var i := IndexOf(s, slot);
    var expected := Expected(slot, InputOf(pieces, slot));
    && 0 <= i < |output| && KindOf(output[i]) == SlotKind(slot)
    && Shown(output[i]) == expected.arguments
    && DeltasAt(EmittedAll(EMPTY, pieces), i) == expected.forwarded
  }

  /** The part at an index is of its slot's kind; unless it is a tool call it shows the deltas passed on there. */
  lemma PartInPlace(pieces: seq<Piece>, i: nat)
    requires KeysAreContiguous(pieces) && WellIndexed(FedAll(EMPTY, pieces)) && i < FedAll(EMPTY, pieces).nextIndex
    ensures var output := FinalOutput(pieces);
            && i < |output| && KindOf(output[i]) == SlotKind(SlotAt(FedAll(EMPTY, pieces), i))
            && (!output[i].Tool? ==> Shown(output[i]) == DeltasAt(EmittedAll(EMPTY, pieces), i))
  {
    FinalResponseMatchesStream(pieces);
    var slot := SlotAt(FedAll(EMPTY, pieces), i);
    assert StandsInPlace(pieces, slot);
  }

  /** After any placeholders, tool arguments that do not begin with an empty object come out whole in both
      views, however they are cut. */
  lemma ToolArgumentsAgree(pieces: seq<Piece>, key: int, placeholders: seq<string>, chunks: seq<string>)
    requires key in FedAll(EMPTY, pieces).toolCalls && InputOf(pieces, ToolSlot(key)) == placeholders + chunks
    requires Placeholders(placeholders) && chunks != [] && !StartsEmpty(Concat(chunks))
    ensures FedAll(EMPTY, pieces).toolCalls[key].arguments == Concat(chunks)
    ensures DeltasAt(EmittedAll(EMPTY, pieces), FedAll(EMPTY, pieces).toolIndexes[key]) == Concat(chunks)
  {
    RunIsIndexed(pieces);
    StreamMatches(pieces, ToolSlot(key));
    WholeAfterPlaceholders(placeholders, chunks);
  }
}
