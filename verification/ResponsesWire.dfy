/** Neutral events as OpenAI Responses wire events (internal/interfaces/http/openai_compat.go). */
module ResponsesWire {
  import opened Collections
  import opened NeutralEvents
  import opened StreamId

  function Prefix(kind: Kind): string {
    match kind
    case ReasoningKind => "rs"
    case ToolCallKind => "fc"
    case _ => "msg"
  }

  function ItemId(kind: Kind, index: int): string {
    Prefix(kind) + "_" + if index < 0 then "-" + Decimal(-index) else Decimal(index)
  }

  lemma ItemIdByPrefix(a: Kind, b: Kind, index: int)
    ensures ItemId(a, index) == ItemId(b, index) <==> Prefix(a) == Prefix(b)
  {
    assert ItemId(a, index)[0] == Prefix(a)[0] && ItemId(b, index)[0] == Prefix(b)[0];
  }

  datatype FinalItem = FinalItem(id: string, part: Part)

  datatype Wire =
    | ItemAdded(index: int, id: string, callId: string, name: string)
    | PartAdded(index: int, id: string)
    | Delta(index: int, id: string, delta: string)
    | ResponseCreated
    | ResponseCompleted(items: seq<FinalItem>)
    | ErrorEvent

  datatype Numbered = Numbered(sequence: int, wire: Wire)

  type Started = map<int, Kind>

  /** How an item of a kind is announced; metadata is not. */
  function StartItem(e: Event): seq<Wire>
    requires IsTyped(e)
  {
    var kind := EventKind(e);
    var id := ItemId(kind, e.index);
    match kind
    case MetadataKind => []
    case ToolCallKind =>
      var call := if e.Added? && e.part.Tool? then e.part.call else ToolCall("", "", "");
      [ItemAdded(e.index, id, call.id, call.name)]
    case _ => [ItemAdded(e.index, id, "", ""), PartAdded(e.index, id)]
  }

  function FinalItems(parts: seq<Part>): seq<FinalItem> {
    if parts == [] then []
    else
      var n := |parts| - 1;
      FinalItems(parts[..n]) + if parts[n].Metadata? then [] else [FinalItem(ItemId(KindOf(parts[n]), n), parts[n])]
  }

  function Translated(e: Event): seq<Wire> {
    match e
    case Created => [ResponseCreated]
    case TextDelta(index, delta) => [Delta(index, ItemId(TextKind, index), delta)]
    case ReasoningDelta(index, delta) => [Delta(index, ItemId(ReasoningKind, index), delta)]
    case ArgumentsDelta(index, delta) => [Delta(index, ItemId(ToolCallKind, index), delta)]
    case Added(_, _) => []
    case Completed(output) => [ResponseCompleted(FinalItems(output))]
    case Error => [ErrorEvent]
  }

  predicate IsNew(started: Started, e: Event) {
    IsTyped(e) && e.index !in started
  }

  function Announced(started: Started, e: Event): seq<Wire> {
    if IsNew(started, e) then StartItem(e) else []
  }

  function StartedAfter(started: Started, e: Event): Started {
    if IsNew(started, e) then started[e.index := EventKind(e)] else started
  }

  function Count(wires: seq<Wire>, sequence: int): seq<Numbered> {
    seq(|wires|, i requires 0 <= i < |wires| => Numbered(sequence + 1 + i, wires[i]))
  }

  class ResponsesStreamAdapter {
    var sequence: int
    var started: Started

    constructor ()
      ensures sequence == 0 && started == map[]
    {
      sequence, started := 0, map[];
    }

    method Convert(e: Event) returns (result: seq<Numbered>)
      modifies this
      ensures result == Count(Announced(old(started), e) + Translated(e), old(sequence))
      ensures sequence == old(sequence) + |result| && started == StartedAfter(old(started), e)
    {
      var wires: seq<Wire> := [];
      if IsTyped(e) {
        if e.index !in started {
          wires := StartItem(e);
          started := started[e.index := EventKind(e)];
        }
      }
      wires := wires + Translated(e);
      result := Stamp(wires);
    }

    method Stamp(wires: seq<Wire>) returns (result: seq<Numbered>)
      modifies this`sequence
      ensures result == Count(wires, old(sequence)) && sequence == old(sequence) + |wires|
    {
      result := [];
      for i := 0 to |wires|
        invariant |result| == i && sequence == old(sequence) + i
        invariant forall j :: 0 <= j < i ==> result[j] == Numbered(old(sequence) + 1 + j, wires[j])
      {
        sequence := sequence + 1;
        result := result + [Numbered(sequence, wires[i])];
      }
    }
  }

  // ----- Whole streams

  function StartedBy(events: seq<Event>): Started {
    if events == [] then map[] else StartedAfter(StartedBy(events[..|events| - 1]), events[|events| - 1])
  }

  function Wires(events: seq<Event>): seq<Wire> {
    if events == [] then []
    else
      var front, last := events[..|events| - 1], events[|events| - 1];
      Wires(front) + (Announced(StartedBy(front), last) + Translated(last))
  }

  /** What the adapter has written after a stream. */
  function Written(events: seq<Event>): seq<Numbered> {
    if events == [] then []
    else
      var front, last := events[..|events| - 1], events[|events| - 1];
      Written(front) + Count(Announced(StartedBy(front), last) + Translated(last), |Written(front)|)
  }

  method Convert(events: seq<Event>) returns (result: seq<Numbered>)
    ensures result == Written(events)
  {
    var adapter := new ResponsesStreamAdapter();
    result := [];
    for i := 0 to |events|
      invariant result == Written(events[..i])
      invariant adapter.sequence == |result| && adapter.started == StartedBy(events[..i])
    {
      var more := adapter.Convert(events[i]);
      result := result + more;
      assert events[..i + 1][..i] == events[..i];
    }
    assert events[..|events|] == events;
  }

  /** Sequence numbers are 1, 2, 3, … over the whole stream. */
  lemma {:induction false} NumberedFromOne(events: seq<Event>)
    ensures |Written(events)| == |Wires(events)|
    ensures forall i :: 0 <= i < |Written(events)| ==> Written(events)[i] == Numbered(i + 1, Wires(events)[i])
  {
    if events != [] {
      NumberedFromOne(events[..|events| - 1]);
    }
  }

  // ----- Announcements

  /** The kind of the first event about an item. */
  function FirstKind(events: seq<Event>, index: int): (r: seq<Kind>)
    ensures |r| <= 1
  {
    if events == [] then []
    else if IsTyped(events[0]) && events[0].index == index then [EventKind(events[0])]
    else FirstKind(events[1..], index)
  }

  lemma {:induction false} FirstKindAppend(events: seq<Event>, e: Event, index: int)
    ensures FirstKind(events + [e], index)
         == if FirstKind(events, index) != [] then FirstKind(events, index)
            else if IsTyped(e) && e.index == index then [EventKind(e)] else []
  {
    if events == [] {
      assert events + [e] == [e];
    } else {
      assert (events + [e])[1..] == events[1..] + [e];
      FirstKindAppend(events[1..], e, index);
    }
  }

  lemma {:induction false} StartedIsFirstKind(events: seq<Event>, index: int)
    ensures FirstKind(events, index) == if index in StartedBy(events) then [StartedBy(events)[index]] else []
  {
    if events != [] {
      var front, last := events[..|events| - 1], events[|events| - 1];
      StartedIsFirstKind(front, index);
      FirstKindAppend(front, last, index);
      assert events == front + [last];
    }
  }

  predicate Adds(w: Wire, index: int, id: string) {
    w.ItemAdded? && w.index == index && w.id == id
  }

  ghost predicate HasItem(wires: seq<Wire>, index: int, id: string) {
    exists j :: 0 <= j < |wires| && Adds(wires[j], index, id)
  }

  /** Every delta comes after an announcement with its index and its item id. */
  ghost predicate DeltasAnnounced(wires: seq<Wire>) {
    forall i :: 0 <= i < |wires| && wires[i].Delta? ==> HasItem(wires[..i], wires[i].index, wires[i].id)
  }

  /** No item is announced twice. */
  predicate AnnouncedOnce(wires: seq<Wire>) {
    forall i, j :: 0 <= i < j < |wires| && wires[i].ItemAdded? && wires[j].ItemAdded? ==> wires[i].index != wires[j].index
  }

  /** A delta fits an item that was announced and whose id starts the same. */
  predicate Fits(first: Kind, kind: Kind) {
    !first.MetadataKind? && Prefix(first) == Prefix(kind)
  }

  predicate FitsAt(events: seq<Event>, i: nat)
    requires i < |events|
  {
    IsDelta(events[i]) ==>
      var first := FirstKind(events, events[i].index);
      first != [] && Fits(first[0], EventKind(events[i]))
  }

  predicate AllFit(events: seq<Event>) {
    forall i :: 0 <= i < |events| ==> FitsAt(events, i)
  }

  /** The items announced are those that were started and are not metadata. */
  ghost predicate ItemsAre(wires: seq<Wire>, started: Started) {
    && AnnouncedOnce(wires)
    && (forall w :: w in wires && w.ItemAdded? ==> w.index in started && !started[w.index].MetadataKind? && w.id == ItemId(started[w.index], w.index))
    && (forall index :: index in started && !started[index].MetadataKind? ==> HasItem(wires, index, ItemId(started[index], index)))
  }

  lemma HasItemGrows(wires: seq<Wire>, more: seq<Wire>, index: int, id: string)
    ensures HasItem(wires, index, id) ==> HasItem(wires + more, index, id)
    ensures HasItem(more, index, id) ==> HasItem(wires + more, index, id)
    ensures HasItem(wires + more, index, id) ==> HasItem(wires, index, id) || HasItem(more, index, id)
  {
    if j :| 0 <= j < |wires| && Adds(wires[j], index, id) {
      assert Adds((wires + more)[j], index, id);
    }
    if j :| 0 <= j < |more| && Adds(more[j], index, id) {
      assert Adds((wires + more)[|wires| + j], index, id);
    }
    if j :| 0 <= j < |wires + more| && Adds((wires + more)[j], index, id) {
      assert if j < |wires| then Adds(wires[j], index, id) else Adds(more[j - |wires|], index, id);
    }
  }

  lemma AnnouncementKeepsItems(wires: seq<Wire>, started: Started, e: Event)
    requires ItemsAre(wires, started)
    ensures ItemsAre(wires + Announced(started, e), StartedAfter(started, e))
  {
    var more, started' := Announced(started, e), StartedAfter(started, e);
    forall index | index in started' && !started'[index].MetadataKind?
      ensures HasItem(wires + more, index, ItemId(started'[index], index))
    {
      HasItemGrows(wires, more, index, ItemId(started'[index], index));
      if IsNew(started, e) && index == e.index {
        assert Adds(more[0], index, ItemId(started'[index], index));
      }
    }
  }

  lemma TranslationKeepsItems(wires: seq<Wire>, started: Started, e: Event)
    requires ItemsAre(wires, started)
    ensures ItemsAre(wires + Translated(e), started)
  {
    forall index | index in started && !started[index].MetadataKind?
      ensures HasItem(wires + Translated(e), index, ItemId(started[index], index))
    {
      HasItemGrows(wires, Translated(e), index, ItemId(started[index], index));
    }
  }

  lemma {:induction false} StreamKeepsItems(events: seq<Event>)
    ensures ItemsAre(Wires(events), StartedBy(events))
  {
    if events != [] {
      var front, last := events[..|events| - 1], events[|events| - 1];
      StreamKeepsItems(front);
      AnnouncementKeepsItems(Wires(front), StartedBy(front), last);
      TranslationKeepsItems(Wires(front) + Announced(StartedBy(front), last), StartedBy(events), last);
      Associative(Wires(front), Announced(StartedBy(front), last), Translated(last));
    }
  }

  lemma DeltasAnnouncedAppend(wires: seq<Wire>, w: Wire)
    ensures DeltasAnnounced(wires + [w]) <==> DeltasAnnounced(wires) && (w.Delta? ==> HasItem(wires, w.index, w.id))
  {
    var all := wires + [w];
    assert all[..|wires|] == wires;
    forall i | 0 <= i < |wires|
      ensures all[..i] == wires[..i] && all[i] == wires[i]
    {
    }
    assert all[|wires|] == w;
  }

  lemma AnnouncedAddsNoDelta(wires: seq<Wire>, started: Started, e: Event)
    ensures DeltasAnnounced(wires + Announced(started, e)) <==> DeltasAnnounced(wires)
  {
    var more := Announced(started, e);
    if more == [] {
      assert wires + more == wires;
    } else if |more| == 1 {
      DeltasAnnouncedAppend(wires, more[0]);
      assert wires + more == wires + [more[0]];
    } else {
      DeltasAnnouncedAppend(wires, more[0]);
      DeltasAnnouncedAppend(wires + [more[0]], more[1]);
      assert wires + more == wires + [more[0]] + [more[1]];
    }
  }

  lemma TranslationAnnounced(wires: seq<Wire>, e: Event)
    ensures DeltasAnnounced(wires + Translated(e))
       <==> DeltasAnnounced(wires) && (IsDelta(e) ==> HasItem(wires, e.index, ItemId(EventKind(e), e.index)))
  {
    if e.Added? {
      assert wires + Translated(e) == wires;
    } else {
      DeltasAnnouncedAppend(wires, Translated(e)[0]);
    }
  }

  lemma HasItemIff(wires: seq<Wire>, started: Started, index: int, kind: Kind)
    requires ItemsAre(wires, started)
    ensures HasItem(wires, index, ItemId(kind, index)) <==> index in started && Fits(started[index], kind)
  {
    if index in started {
      ItemIdByPrefix(started[index], kind, index);
    }
  }

  lemma WiresNext(events: seq<Event>, e: Event)
    ensures Wires(events + [e]) == Wires(events) + Announced(StartedBy(events), e) + Translated(e)
    ensures StartedBy(events + [e]) == StartedAfter(StartedBy(events), e)
  {
    assert (events + [e])[..|events|] == events;
    Associative(Wires(events), Announced(StartedBy(events), e), Translated(e));
  }

  lemma LastDeltaAnnounced(events: seq<Event>, e: Event)
    ensures DeltasAnnounced(Wires(events + [e])) <==> DeltasAnnounced(Wires(events)) && FitsAt(events + [e], |events|)
  {
    var wires := Wires(events) + Announced(StartedBy(events), e);
    WiresNext(events, e);
    AnnouncedAddsNoDelta(Wires(events), StartedBy(events), e);
    TranslationAnnounced(wires, e);
    if IsDelta(e) {
      StreamKeepsItems(events);
      AnnouncementKeepsItems(Wires(events), StartedBy(events), e);
      HasItemIff(wires, StartedAfter(StartedBy(events), e), e.index, EventKind(e));
      StartedIsFirstKind(events + [e], e.index);
    }
  }

  /** Exactly the streams whose deltas fit the first event about their item are announced properly. */
  lemma {:induction false} AnnouncedIffAllFit(events: seq<Event>)
    ensures DeltasAnnounced(Wires(events)) <==> AllFit(events)
  {
    if events != [] {
      var front, last := events[..|events| - 1], events[|events| - 1];
      assert events == front + [last];
      AnnouncedIffAllFit(front);
      LastDeltaAnnounced(front, last);
      AllFitAppend(front, last);
    }
  }

  lemma FitsAtAppend(events: seq<Event>, e: Event, i: nat)
    requires i < |events|
    ensures FitsAt(events + [e], i) <==> FitsAt(events, i)
  {
    assert (events + [e])[i] == events[i];
    if IsDelta(events[i]) {
      SomeKind(events, i);
      FirstKindAppend(events, e, events[i].index);
    }
  }

  lemma AllFitAppend(events: seq<Event>, e: Event)
    ensures AllFit(events + [e]) <==> AllFit(events) && FitsAt(events + [e], |events|)
  {
    forall i | 0 <= i < |events|
      ensures FitsAt(events + [e], i) <==> FitsAt(events, i)
    {
      FitsAtAppend(events, e, i);
    }
  }

  lemma {:induction false} SomeKind(events: seq<Event>, i: nat)
    requires i < |events| && IsTyped(events[i])
    ensures FirstKind(events, events[i].index) != []
  {
    if i > 0 {
      SomeKind(events[1..], i - 1);
    }
  }

  /** In every stream each item is announced at most once. */
  lemma ItemsAnnouncedOnce(events: seq<Event>)
    ensures AnnouncedOnce(Wires(events))
  {
    StreamKeepsItems(events);
  }

  // ----- The final response

  lemma {:induction false} FinalItemIds(parts: seq<Part>)
    requires forall part :: part in parts ==> !part.Metadata?
    ensures |FinalItems(parts)| == |parts|
    ensures forall i :: 0 <= i < |parts| ==> FinalItems(parts)[i] == FinalItem(ItemId(KindOf(parts[i]), i), parts[i])
  {
    if parts != [] {
      FinalItemIds(parts[..|parts| - 1]);
    }
  }

  /** Every part but metadata is an item, under the id of its kind and index. */
  lemma {:induction false} PartIsItem(parts: seq<Part>, i: nat)
    requires i < |parts| && !parts[i].Metadata?
    ensures FinalItem(ItemId(KindOf(parts[i]), i), parts[i]) in FinalItems(parts)
  {
    var front := parts[..|parts| - 1];
    if i < |front| {
      PartIsItem(front, i);
    }
  }

  lemma {:induction false} ItemIsPart(parts: seq<Part>, item: FinalItem) returns (i: nat)
    requires item in FinalItems(parts)
    ensures i < |parts| && !parts[i].Metadata? && item == FinalItem(ItemId(KindOf(parts[i]), i), parts[i])
  {
    var n := |parts| - 1;
    if item in FinalItems(parts[..n]) {
      i := ItemIsPart(parts[..n], item);
    } else {
      i := n;
    }
  }

  /** An item is announced under an id exactly when its first event fits the id's kind. */
  lemma AnnouncedIffFits(events: seq<Event>, index: int, kind: Kind)
    ensures HasItem(Wires(events), index, ItemId(kind, index))
       <==> FirstKind(events, index) != [] && Fits(FirstKind(events, index)[0], kind)
  {
    StreamKeepsItems(events);
    StartedIsFirstKind(events, index);
    HasItemIff(Wires(events), StartedBy(events), index, kind);
  }

  /** Everything written under one index. */
  function WrittenAt(wires: seq<Wire>, index: int): string {
    if wires == [] then ""
    else
      var front, last := WrittenAt(wires[..|wires| - 1], index), wires[|wires| - 1];
      if last.Delta? && last.index == index then front + last.delta else front
  }

  lemma WrittenAtAppend(wires: seq<Wire>, w: Wire, index: int)
    ensures WrittenAt(wires + [w], index)
         == if w.Delta? && w.index == index then WrittenAt(wires, index) + w.delta else WrittenAt(wires, index)
  {
    assert (wires + [w])[..|wires|] == wires;
  }

  lemma AnnouncedWritesNothing(wires: seq<Wire>, started: Started, e: Event, index: int)
    ensures WrittenAt(wires + Announced(started, e), index) == WrittenAt(wires, index)
  {
    var more := Announced(started, e);
    if more == [] {
      assert wires + more == wires;
    } else if |more| == 1 {
      WrittenAtAppend(wires, more[0], index);
      assert wires + more == wires + [more[0]];
    } else {
      WrittenAtAppend(wires, more[0], index);
      WrittenAtAppend(wires + [more[0]], more[1], index);
      assert wires + more == wires + [more[0]] + [more[1]];
    }
  }

  lemma TranslationWrites(wires: seq<Wire>, e: Event, index: int)
    ensures WrittenAt(wires + Translated(e), index)
         == if IsDelta(e) && e.index == index then WrittenAt(wires, index) + e.delta else WrittenAt(wires, index)
  {
    if e.Added? {
      assert wires + Translated(e) == wires;
    } else {
      WrittenAtAppend(wires, Translated(e)[0], index);
    }
  }

  lemma NextIsWritten(events: seq<Event>, e: Event, index: int)
    requires WrittenAt(Wires(events), index) == DeltasAt(events, index)
    ensures WrittenAt(Wires(events + [e]), index) == DeltasAt(events + [e], index)
  {
    var announced := Wires(events) + Announced(StartedBy(events), e);
    WiresNext(events, e);
    AnnouncedWritesNothing(Wires(events), StartedBy(events), e, index);
    TranslationWrites(announced, e, index);
    DeltasAtAppend(events, e, index);
  }

  /** No delta is lost, added or moved to another item. */
  lemma {:induction false} DeltasAreWritten(events: seq<Event>, index: int)
    ensures WrittenAt(Wires(events), index) == DeltasAt(events, index)
  {
    if events != [] {
      var front, last := events[..|events| - 1], events[|events| - 1];
      assert events == front + [last];
      DeltasAreWritten(front, index);
      NextIsWritten(front, last, index);
    }
  }
}
