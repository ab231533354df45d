/** Provider streams, all the way to the Responses wire. */
module ProviderToWire {
  import opened NeutralEvents
  import opened ToolArguments
  import opened ResponsesWire
  import D = DeepSeek
  import R = DeepSeekResponse
  import A = Anthropic

  /** Events about one item agree on its kind, and none of them is metadata with deltas. */
  ghost predicate AgreeOnKinds(events: seq<Event>, kinds: map<int, Kind>) {
    forall e :: e in events && IsTyped(e) ==> e.index in kinds && EventKind(e) == kinds[e.index]
  }

  lemma {:induction false} FirstKindAgrees(events: seq<Event>, kinds: map<int, Kind>, index: int)
    requires AgreeOnKinds(events, kinds)
    ensures FirstKind(events, index) != [] ==> index in kinds && FirstKind(events, index) == [kinds[index]]
  {
    if events != [] {
      FirstKindAgrees(events[1..], kinds, index);
    }
  }

  lemma AgreementFits(events: seq<Event>, kinds: map<int, Kind>)
    requires AgreeOnKinds(events, kinds)
    ensures AllFit(events)
  {
    forall i | 0 <= i < |events| && IsDelta(events[i])
      ensures FitsAt(events, i)
    {
      assert events[i] in events;
      SomeKind(events, i);
      FirstKindAgrees(events, kinds, events[i].index);
    }
  }

  ghost predicate WellAnnounced(events: seq<Event>) {
    AnnouncedOnce(Wires(events)) && DeltasAnnounced(Wires(events))
  }

  lemma AgreementAnnounced(events: seq<Event>, kinds: map<int, Kind>)
    requires AgreeOnKinds(events, kinds)
    ensures WellAnnounced(events)
  {
    AgreementFits(events, kinds);
    ItemsAnnouncedOnce(events);
    AnnouncedIffAllFit(events);
  }

  /** Every item announced on the wire is in the final response, under the same id and with the part of its
      index; and a final item was announced, under its own id, exactly when something was streamed for it. */
  ghost predicate ItemsAgree(events: seq<Event>, output: seq<Part>) {
    && (forall w :: w in Wires(events) && w.ItemAdded? ==>
                      0 <= w.index < |output| && FinalItem(w.id, output[w.index]) in FinalItems(output)
                      && w.id == ItemId(KindOf(output[w.index]), w.index))
    && (forall i :: 0 <= i < |output| && !output[i].Metadata? ==> (WasAnnounced(events, i, KindOf(output[i])) <==> FirstKind(events, i) != []))
  }

  predicate KindsMatch(kinds: map<int, Kind>, output: seq<Part>) {
    forall i :: i in kinds ==> 0 <= i < |output| && KindOf(output[i]) == kinds[i]
  }

  ghost predicate WasAnnounced(events: seq<Event>, index: int, kind: Kind) {
    HasItem(Wires(events), index, ItemId(kind, index))
  }

  lemma AnnouncedIsFinal(events: seq<Event>, kinds: map<int, Kind>, output: seq<Part>, w: Wire)
    requires AgreeOnKinds(events, kinds) && w in Wires(events) && w.ItemAdded?
    requires KindsMatch(kinds, output)
    ensures 0 <= w.index < |output| && w.id == ItemId(KindOf(output[w.index]), w.index)
    ensures FinalItem(w.id, output[w.index]) in FinalItems(output)
  {
    StreamKeepsItems(events);
    StartedIsFirstKind(events, w.index);
    FirstKindAgrees(events, kinds, w.index);
    PartIsItem(output, w.index);
  }

  lemma FinalIsAnnounced(events: seq<Event>, kinds: map<int, Kind>, output: seq<Part>, i: nat)
    requires AgreeOnKinds(events, kinds) && i < |output| && !output[i].Metadata?
    requires i in kinds ==> KindOf(output[i]) == kinds[i]
    ensures WasAnnounced(events, i, KindOf(output[i])) <==> FirstKind(events, i) != []
  {
    FirstKindAgrees(events, kinds, i);
    AnnouncedIffFits(events, i, KindOf(output[i]));
  }

  lemma AgreementItems(events: seq<Event>, kinds: map<int, Kind>, output: seq<Part>)
    requires AgreeOnKinds(events, kinds)
    requires KindsMatch(kinds, output)
    ensures ItemsAgree(events, output)
  {
    forall w | w in Wires(events) && w.ItemAdded?
      ensures 0 <= w.index < |output| && FinalItem(w.id, output[w.index]) in FinalItems(output)
      ensures w.id == ItemId(KindOf(output[w.index]), w.index)
    {
      AnnouncedIsFinal(events, kinds, output, w);
    }
    forall i | 0 <= i < |output| && !output[i].Metadata?
      ensures WasAnnounced(events, i, KindOf(output[i])) <==> FirstKind(events, i) != []
    {
      FinalIsAnnounced(events, kinds, output, i);
    }
  }

  // ----- DeepSeek

  ghost function DeepSeekKinds(s: D.State): map<int, Kind>
    requires D.WellIndexed(s)
  {
    map i | 0 <= i < s.nextIndex :: R.SlotKind(D.SlotAt(s, i))
  }

  lemma DeepSeekAgrees(pieces: seq<D.Piece>)
    ensures D.WellIndexed(D.FedAll(D.EMPTY, pieces))
    ensures AgreeOnKinds(D.EmittedAll(D.EMPTY, pieces), DeepSeekKinds(D.FedAll(D.EMPTY, pieces)))
  {
    D.RunIsIndexed(pieces);
    R.StreamMatches(pieces, D.TextSlot);
    var s, events := D.FedAll(D.EMPTY, pieces), D.EmittedAll(D.EMPTY, pieces);
    forall e | e in events && IsTyped(e)
      ensures e.index in DeepSeekKinds(s) && EventKind(e) == DeepSeekKinds(s)[e.index]
    {
      var slot :| D.IndexOf(s, slot) >= 0 && R.IsAbout(e, D.IndexOf(s, slot), R.SlotKind(slot));
      D.SlotAtIndex(s, slot);
    }
  }

  /** The part at an index is of the kind streamed there, and all that was written for it is what it shows. */
  ghost predicate PartAgrees(pieces: seq<D.Piece>, i: nat) {
    var output := D.FinalOutput(pieces);
    && i < |output| && !output[i].Metadata?
    && (!output[i].Tool? ==> WrittenAt(Wires(D.EmittedAll(D.EMPTY, pieces)), i) == Shown(output[i]))
  }

  lemma DeepSeekPartAgrees(pieces: seq<D.Piece>, i: nat)
    requires R.KeysAreContiguous(pieces)
    requires D.WellIndexed(D.FedAll(D.EMPTY, pieces)) && i < D.FedAll(D.EMPTY, pieces).nextIndex
    ensures PartAgrees(pieces, i)
    ensures KindOf(D.FinalOutput(pieces)[i]) == DeepSeekKinds(D.FedAll(D.EMPTY, pieces))[i]
  {
    R.PartInPlace(pieces, i);
    DeltasAreWritten(D.EmittedAll(D.EMPTY, pieces), i);
  }

  lemma DeepSeekItemsAgree(pieces: seq<D.Piece>)
    requires R.KeysAreContiguous(pieces)
    ensures ItemsAgree(D.EmittedAll(D.EMPTY, pieces), D.FinalOutput(pieces))
    ensures forall i :: 0 <= i < |D.FinalOutput(pieces)| ==> PartAgrees(pieces, i)
  {
    var s := D.FedAll(D.EMPTY, pieces);
    DeepSeekAgrees(pieces);
    R.FinalResponseMatchesStream(pieces);
    forall i | 0 <= i < s.nextIndex
      ensures PartAgrees(pieces, i) && KindOf(D.FinalOutput(pieces)[i]) == DeepSeekKinds(s)[i]
    {
      DeepSeekPartAgrees(pieces, i);
    }
    AgreementItems(D.EmittedAll(D.EMPTY, pieces), DeepSeekKinds(s), D.FinalOutput(pieces));
  }

  /** Every DeepSeek stream is announced properly; with tool calls numbered from zero without gaps, the items
      announced are the final ones that something was streamed for, and the text written for each is what its
      part shows. */
  lemma DeepSeekOnTheWire(pieces: seq<D.Piece>)
    ensures WellAnnounced(D.EmittedAll(D.EMPTY, pieces))
    ensures var output := D.FinalOutput(pieces);
            R.KeysAreContiguous(pieces) ==>
              && ItemsAgree(D.EmittedAll(D.EMPTY, pieces), output)
              && |FinalItems(output)| == |output|
              && forall i :: 0 <= i < |output| ==> PartAgrees(pieces, i) && FinalItems(output)[i] == FinalItem(ItemId(KindOf(output[i]), i), output[i])
  {
    DeepSeekAgrees(pieces);
    AgreementAnnounced(D.EmittedAll(D.EMPTY, pieces), DeepSeekKinds(D.FedAll(D.EMPTY, pieces)));
    if R.KeysAreContiguous(pieces) {
      DeepSeekItemsAgree(pieces);
      NoMetadata(pieces);
      FinalItemIds(D.FinalOutput(pieces));
    }
  }

  lemma NoMetadata(pieces: seq<D.Piece>)
    requires forall i :: 0 <= i < |D.FinalOutput(pieces)| ==> PartAgrees(pieces, i)
    ensures forall part :: part in D.FinalOutput(pieces) ==> !part.Metadata?
  {
    forall i | 0 <= i < |D.FinalOutput(pieces)|
      ensures !D.FinalOutput(pieces)[i].Metadata?
    {
      assert PartAgrees(pieces, i);
    }
  }

  lemma ToolInPlace(pieces: seq<D.Piece>, key: int)
    requires R.KeysAreContiguous(pieces) && key in D.FedAll(D.EMPTY, pieces).toolIndexes
    ensures var i, output := D.FedAll(D.EMPTY, pieces).toolIndexes[key], D.FinalOutput(pieces);
            var expected := AppendedAll(R.InputOf(pieces, D.ToolSlot(key)));
            && 0 <= i < |output| && output[i].Tool? && output[i].call.arguments == expected.arguments
            && DeltasAt(D.EmittedAll(D.EMPTY, pieces), i) == expected.forwarded
  {
    D.RunIsIndexed(pieces);
    R.FinalResponseMatchesStream(pieces);
    assert R.StandsInPlace(pieces, D.ToolSlot(key));
  }

  /** With tool calls numbered from zero without gaps, both what is written on the wire for a tool call and its
      final arguments are the provider's text, whatever placeholders came first, exactly when no cut of the text
      makes part of it look like a placeholder. */
  lemma DeepSeekToolOnTheWire(pieces: seq<D.Piece>, key: int, placeholders: seq<string>, chunks: seq<string>)
    requires R.KeysAreContiguous(pieces) && key in D.FedAll(D.EMPTY, pieces).toolIndexes
    requires R.InputOf(pieces, D.ToolSlot(key)) == placeholders + chunks
    requires Placeholders(placeholders) && chunks != [] && !IsPlaceholder(chunks[0])
    ensures var i, text := D.FedAll(D.EMPTY, pieces).toolIndexes[key], Concat(chunks);
            && 0 <= i < |D.FinalOutput(pieces)| && D.FinalOutput(pieces)[i].Tool?
            && (WrittenAt(Wires(D.EmittedAll(D.EMPTY, pieces)), i) == text && D.FinalOutput(pieces)[i].call.arguments == text
                <==> Clean(chunks))
  {
    var i := D.FedAll(D.EMPTY, pieces).toolIndexes[key];
    ToolInPlace(pieces, key);
    DeltasAreWritten(D.EmittedAll(D.EMPTY, pieces), i);
    FaithfulIffClean(placeholders, chunks);
  }

  // ----- Anthropic

  ghost function AnthropicKinds(blocks: A.Blocks): map<int, Kind> {
    map i | i in blocks :: blocks[i].kind
  }

  /** An orderly Anthropic stream is announced properly; with blocks numbered from zero without gaps, the items
      announced are exactly the items of the final response, under the same ids. */
  lemma AnthropicOnTheWire(messages: seq<A.Message>)
    requires A.Orderly(messages)
    ensures WellAnnounced(A.EventsOf(messages))
    ensures var blocks := A.BlocksOf(messages);
            blocks.Keys == Range(|blocks|) ==>
              && ItemsAgree(A.EventsOf(messages), A.Output(blocks, |blocks|))
              && AllAnnounced(A.EventsOf(messages), A.Output(blocks, |blocks|))
  {
    var blocks := A.BlocksOf(messages);
    AnthropicAgrees(messages);
    AgreementAnnounced(A.EventsOf(messages), AnthropicKinds(blocks));
    if blocks.Keys == Range(|blocks|) {
      BlockItemsAgree(blocks, A.EventsOf(messages));
      BlocksAreAnnounced(messages);
    }
  }

  /** Every item of the final response was announced under its own id. */
  ghost predicate AllAnnounced(events: seq<Event>, output: seq<Part>) {
    forall item :: item in FinalItems(output) ==> exists w :: w in Wires(events) && w.ItemAdded? && w.id == item.id
  }

  lemma BlockItemsAgree(blocks: A.Blocks, events: seq<Event>)
    requires AgreeOnKinds(events, AnthropicKinds(blocks)) && blocks.Keys == Range(|blocks|)
    ensures ItemsAgree(events, A.Output(blocks, |blocks|))
  {
    BlockKindsMatch(blocks);
    AgreementItems(events, AnthropicKinds(blocks), A.Output(blocks, |blocks|));
  }

  lemma BlockKindsMatch(blocks: A.Blocks)
    requires blocks.Keys == Range(|blocks|)
    ensures KindsMatch(AnthropicKinds(blocks), A.Output(blocks, |blocks|))
  {
    A.FinalResponseMatchesBlocks(blocks);
  }

  lemma {:induction false} BlockWasStarted(messages: seq<A.Message>, index: int)
    requires index in A.BlocksOf(messages)
    ensures exists i :: 0 <= i < |A.EventsOf(messages)| && A.EventsOf(messages)[i].Added? && A.EventsOf(messages)[i].index == index
  {
    var front, last := messages[..|messages| - 1], messages[|messages| - 1];
    var before, more := A.EventsOf(front), A.EventsFor(A.BlocksOf(front), last);
    if index in A.BlocksOf(front) {
      BlockWasStarted(front, index);
      var i :| 0 <= i < |before| && before[i].Added? && before[i].index == index;
      assert A.EventsOf(messages)[i] == before[i];
    } else {
      assert A.EventsOf(messages)[|before|] == more[0];
    }
  }

  lemma BlocksAreAnnounced(messages: seq<A.Message>)
    requires var blocks := A.BlocksOf(messages);
             blocks.Keys == Range(|blocks|) && ItemsAgree(A.EventsOf(messages), A.Output(blocks, |blocks|))
    ensures AllAnnounced(A.EventsOf(messages), A.Output(A.BlocksOf(messages), |A.BlocksOf(messages)|))
  {
    var events, blocks := A.EventsOf(messages), A.BlocksOf(messages);
    var output := A.Output(blocks, |blocks|);
    A.FinalResponseMatchesBlocks(blocks);
    forall item | item in FinalItems(output)
      ensures exists w :: w in Wires(events) && w.ItemAdded? && w.id == item.id
    {
      var i := ItemIsPart(output, item);
      BlockWasStarted(messages, i);
      var at :| 0 <= at < |events| && events[at].Added? && events[at].index == i;
      SomeKind(events, at);
      assert WasAnnounced(events, i, KindOf(output[i]));
      var j :| 0 <= j < |Wires(events)| && Adds(Wires(events)[j], i, item.id);
      assert Wires(events)[j] in Wires(events);
    }
  }

  /** What is written for a tool block and its final arguments are the provider's text exactly when no cut of the
      text makes part of it look like a placeholder. */
  lemma AnthropicToolOnTheWire(messages: seq<A.Message>, index: int, placeholders: seq<string>, chunks: seq<string>)
    requires A.Orderly(messages) && index in A.BlocksOf(messages) && A.BlocksOf(messages)[index].kind.ToolCallKind?
    requires IsPlaceholder(A.StartOf(messages, index)) && Placeholders(placeholders)
    requires A.JsonsOf(messages, index) == placeholders + chunks && chunks != [] && !IsPlaceholder(chunks[0])
    ensures A.BlocksOf(messages)[index].call.arguments == WrittenAt(Wires(A.EventsOf(messages)), index) == Concat(chunks)
       <==> Clean(chunks)
  {
    A.ToolArgumentsIffClean(messages, index, placeholders, chunks);
    DeltasAreWritten(A.EventsOf(messages), index);
  }

  /** What is written for a text or reasoning block agrees with the final response exactly when the block
      started empty. */
  lemma AnthropicTextOnTheWire(messages: seq<A.Message>, index: int)
    requires A.Orderly(messages) && index in A.BlocksOf(messages) && A.HasText(A.BlocksOf(messages)[index].kind)
    ensures WrittenAt(Wires(A.EventsOf(messages)), index) == Shown(A.ToPart(A.BlocksOf(messages)[index]))
       <==> A.StartText(messages, index) == ""
  {
    A.TextsAgreeIff(messages, index);
    DeltasAreWritten(A.EventsOf(messages), index);
  }

  lemma AnthropicAgrees(messages: seq<A.Message>)
    requires A.Orderly(messages)
    ensures AgreeOnKinds(A.EventsOf(messages), AnthropicKinds(A.BlocksOf(messages)))
  {
    A.OrderlyEvents(messages);
  }
}
