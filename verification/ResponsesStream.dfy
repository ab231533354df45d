/** What a client can read off the Responses wire. */
module ResponsesStream {
  import opened Collections
  import opened NeutralEvents
  import opened ResponsesWire

  // ----- The events can be read back

  function PartsOf(items: seq<FinalItem>): seq<Part> {
    seq(|items|, i requires 0 <= i < |items| => items[i].part)
  }

  /** The neutral event that a wire event tells a client; announcements tell nothing more. */
  function Told(w: Wire): seq<Event> {
    match w
    case ResponseCreated => [Created]
    case Delta(index, id, delta) =>
      if id == ItemId(TextKind, index) then [TextDelta(index, delta)]
      else if id == ItemId(ReasoningKind, index) then [ReasoningDelta(index, delta)]
      else [ArgumentsDelta(index, delta)]
    case ResponseCompleted(items) => [Completed(PartsOf(items))]
    case ErrorEvent => [Error]
    case _ => []
  }

  function ToldAll(wires: seq<Wire>): seq<Event> {
    if wires == [] then [] else ToldAll(wires[..|wires| - 1]) + Told(wires[|wires| - 1])
  }

  /** A final response as the wire shows it, without metadata. */
  function WithoutMetadata(parts: seq<Part>): seq<Part> {
    if parts == [] then []
    else
      var last := parts[|parts| - 1];
      WithoutMetadata(parts[..|parts| - 1]) + if last.Metadata? then [] else [last]
  }

  function Kept(e: Event): seq<Event> {
    if e.Added? then [] else if e.Completed? then [Completed(WithoutMetadata(e.output))] else [e]
  }

  function KeptAll(events: seq<Event>): seq<Event> {
    if events == [] then [] else KeptAll(events[..|events| - 1]) + Kept(events[|events| - 1])
  }

  lemma {:induction false} ItemsShowParts(parts: seq<Part>)
    ensures PartsOf(FinalItems(parts)) == WithoutMetadata(parts)
  {
    if parts != [] {
      var front := parts[..|parts| - 1];
      ItemsShowParts(front);
      assert PartsOf(FinalItems(parts)) == PartsOf(FinalItems(front)) + if parts[|front|].Metadata? then [] else [parts[|front|]];
    }
  }

  lemma {:induction false} ToldConcat(a: seq<Wire>, b: seq<Wire>)
    ensures ToldAll(a + b) == ToldAll(a) + ToldAll(b)
  {
    if b == [] {
      assert a + b == a;
    } else {
      var b', last := b[..|b| - 1], b[|b| - 1];
      assert (a + b)[..|a + b| - 1] == a + b';
      ToldConcat(a, b');
      Associative(ToldAll(a), ToldAll(b'), Told(last));
    }
  }

  lemma ToldOne(w: Wire)
    ensures ToldAll([w]) == Told(w)
  {
    assert [w][..0] == [];
  }

  lemma {:induction false} SilentWires(wires: seq<Wire>)
    requires forall w :: w in wires ==> Told(w) == []
    ensures ToldAll(wires) == []
  {
    if wires != [] {
      SilentWires(wires[..|wires| - 1]);
    }
  }

  lemma AnnouncedTellsNothing(started: Started, e: Event)
    ensures ToldAll(Announced(started, e)) == []
  {
    SilentWires(Announced(started, e));
  }

  lemma DeltaIsTold(kind: Kind, index: int, delta: string)
    requires kind.TextKind? || kind.ReasoningKind? || kind.ToolCallKind?
    ensures Told(Delta(index, ItemId(kind, index), delta))
         == [if kind.TextKind? then TextDelta(index, delta) else if kind.ReasoningKind? then ReasoningDelta(index, delta)
             else ArgumentsDelta(index, delta)]
  {
    ItemIdByPrefix(kind, TextKind, index);
    ItemIdByPrefix(kind, ReasoningKind, index);
  }

  lemma CompletionIsTold(output: seq<Part>)
    ensures ToldAll([ResponseCompleted(FinalItems(output))]) == [Completed(WithoutMetadata(output))]
  {
    ToldOne(ResponseCompleted(FinalItems(output)));
    ItemsShowParts(output);
  }

  predicate IsDelta(e: Event) {
    e.TextDelta? || e.ReasoningDelta? || e.ArgumentsDelta?
  }

  lemma DeltaTranslationTells(e: Event)
    requires IsDelta(e)
    ensures ToldAll(Translated(e)) == [e]
  {
    var kind := if e.TextDelta? then TextKind else if e.ReasoningDelta? then ReasoningKind else ToolCallKind;
    ToldOne(Delta(e.index, ItemId(kind, e.index), e.delta));
    DeltaIsTold(kind, e.index, e.delta);
  }

  lemma TranslationTells(e: Event)
    ensures ToldAll(Translated(e)) == Kept(e)
  {
    if IsDelta(e) {
      DeltaTranslationTells(e);
    } else if e.Completed? {
      CompletionIsTold(e.output);
    } else {
      ToldOne(ResponseCreated);
      ToldOne(ErrorEvent);
    }
  }

  /** A client that reads the wire learns every event of the stream in order, but for announcements and metadata: the
      opening, every delta with its kind and item, every final response with its parts, and every error. */
  lemma {:induction false} EventsAreTold(events: seq<Event>)
    ensures ToldAll(Wires(events)) == KeptAll(events)
  {
    if events != [] {
      var front, last := events[..|events| - 1], events[|events| - 1];
      assert events == front + [last];
      EventsAreTold(front);
      WiresNext(front, last);
      AnnouncedTellsNothing(StartedBy(front), last);
      TranslationTells(last);
      ToldConcat(Wires(front), Announced(StartedBy(front), last));
      ToldConcat(Wires(front) + Announced(StartedBy(front), last), Translated(last));
    }
  }

  // ----- The items of a final response

  /** The places of the parts that are items. */
  function ItemPlaces(parts: seq<Part>): seq<nat> {
    if parts == [] then []
    else
      var n: nat := |parts| - 1;
      ItemPlaces(parts[..n]) + if parts[n].Metadata? then [] else [n]
  }

  lemma {:induction false} PlacesAre(parts: seq<Part>, i: nat)
    ensures i in ItemPlaces(parts) <==> i < |parts| && !parts[i].Metadata?
  {
    if parts != [] {
      PlacesAre(parts[..|parts| - 1], i);
    }
  }

  lemma {:induction false} PlacesAscend(parts: seq<Part>)
    ensures forall i, j :: 0 <= i < j < |ItemPlaces(parts)| ==> ItemPlaces(parts)[i] < ItemPlaces(parts)[j]
  {
    if parts != [] {
      var front := parts[..|parts| - 1];
      PlacesAscend(front);
      forall i | 0 <= i < |ItemPlaces(front)|
        ensures ItemPlaces(front)[i] < |front|
      {
        PlacesAre(front, ItemPlaces(front)[i]);
      }
    }
  }

  /** The items are the parts that are no metadata, in order, each under the id of its kind and its place. */
  ghost predicate AreItemsOf(items: seq<FinalItem>, parts: seq<Part>) {
    |items| == |ItemPlaces(parts)|
    && forall i :: 0 <= i < |items| ==>
                     var place := ItemPlaces(parts)[i];
                     place < |parts| && items[i] == FinalItem(ItemId(KindOf(parts[place]), place), parts[place])
  }

  lemma {:induction false} FinalItemsAreItems(parts: seq<Part>)
    ensures AreItemsOf(FinalItems(parts), parts)
  {
    if parts != [] {
      var front := parts[..|parts| - 1];
      FinalItemsAreItems(front);
      forall i | 0 <= i < |ItemPlaces(front)|
        ensures ItemPlaces(front)[i] < |front|
      {
        PlacesAre(front, ItemPlaces(front)[i]);
      }
    }
  }

  ghost predicate IsCompletionOf(w: Wire, e: Event) {
    w.ResponseCompleted? && e.Completed? && AreItemsOf(w.items, e.output)
  }

  ghost predicate ComesFrom(w: Wire, events: seq<Event>) {
    exists e :: e in events && IsCompletionOf(w, e)
  }

  ghost predicate GoesTo(e: Event, wires: seq<Wire>) {
    exists w :: w in wires && IsCompletionOf(w, e)
  }

  lemma MoreEvents(w: Wire, events: seq<Event>, e: Event)
    ensures ComesFrom(w, events) ==> ComesFrom(w, events + [e])
    ensures IsCompletionOf(w, e) ==> ComesFrom(w, events + [e])
  {
    if x :| x in events && IsCompletionOf(w, x) {
      assert x in events + [e];
    }
    assert e in events + [e];
  }

  lemma MoreWires(e: Event, wires: seq<Wire>, more: seq<Wire>)
    ensures GoesTo(e, wires) || GoesTo(e, more) ==> GoesTo(e, wires + more)
  {
    if w :| w in wires && IsCompletionOf(w, e) {
      assert w in wires + more;
    }
    if w :| w in more && IsCompletionOf(w, e) {
      assert w in wires + more;
    }
  }

  lemma TranslationCompletes(e: Event)
    ensures e.Completed? ==> GoesTo(e, Translated(e))
    ensures forall w :: w in Translated(e) && w.ResponseCompleted? ==> IsCompletionOf(w, e)
  {
    if e.Completed? {
      FinalItemsAreItems(e.output);
      assert ResponseCompleted(FinalItems(e.output)) in Translated(e);
    }
  }

  /** Every completion on the wire has the items of a final response of the stream, and every final response of the
      stream is written as one. */
  lemma {:induction false} CompletionsAreWritten(events: seq<Event>)
    ensures forall w :: w in Wires(events) && w.ResponseCompleted? ==> ComesFrom(w, events)
    ensures forall e :: e in events && e.Completed? ==> GoesTo(e, Wires(events))
  {
    if events != [] {
      var front, last := events[..|events| - 1], events[|events| - 1];
      assert events == front + [last];
      CompletionsAreWritten(front);
      WiresNext(front, last);
      var announced := Wires(front) + Announced(StartedBy(front), last);
      TranslationCompletes(last);
      forall w | w in Wires(events) && w.ResponseCompleted?
        ensures ComesFrom(w, events)
      {
        MoreEvents(w, front, last);
      }
      forall e | e in events && e.Completed?
        ensures GoesTo(e, Wires(events))
      {
        MoreWires(e, Wires(front), Announced(StartedBy(front), last));
        MoreWires(e, announced, Translated(last));
      }
    }
  }

  /** A stream that ends with a final response ends on the wire with its items. */
  lemma LastIsCompletion(events: seq<Event>, output: seq<Part>)
    ensures var wires := Wires(events + [Completed(output)]);
            && wires != [] && wires[..|wires| - 1] == Wires(events)
            && wires[|wires| - 1].ResponseCompleted? && AreItemsOf(wires[|wires| - 1].items, output)
  {
    WiresNext(events, Completed(output));
    FinalItemsAreItems(output);
  }

  // ----- How items are announced

  /** Event i is the first about its item, which is no metadata. */
  ghost predicate Starts(events: seq<Event>, i: int) {
    0 <= i < |events| && IsTyped(events[i]) && !EventKind(events[i]).MetadataKind?
    && forall j :: 0 <= j < i && IsTyped(events[j]) ==> events[j].index != events[i].index
  }

  lemma {:induction false} WiresOfFront(events: seq<Event>, n: nat)
    requires n <= |events|
    ensures Wires(events[..n]) <= Wires(events)
  {
    if n == |events| {
      assert events[..n] == events;
    } else {
      var front := events[..|events| - 1];
      assert front[..n] == events[..n];
      WiresOfFront(front, n);
    }
  }

  lemma {:induction false} NotStarted(events: seq<Event>, index: int)
    requires forall e :: e in events && IsTyped(e) ==> e.index != index
    ensures index !in StartedBy(events)
  {
    if events != [] {
      NotStarted(events[..|events| - 1], index);
    }
  }

  /** How a first event announces its item. */
  predicate AnnouncesBy(w: Wire, e: Event)
    requires IsTyped(e)
  {
    w.ItemAdded? && w.index == e.index && w.id == ItemId(EventKind(e), e.index)
    && (e.Added? && e.part.Tool? ==> w.callId == e.part.call.id && w.name == e.part.call.name)
  }

  lemma StartItemAnnounces(e: Event)
    requires IsTyped(e) && !EventKind(e).MetadataKind?
    ensures StartItem(e) != [] && AnnouncesBy(StartItem(e)[0], e)
    ensures !EventKind(e).ToolCallKind? ==> |StartItem(e)| == 2 && StartItem(e)[1] == PartAdded(e.index, ItemId(EventKind(e), e.index))
  {
  }

  lemma At(wires: seq<Wire>, more: seq<Wire>, rest: seq<Wire>, all: seq<Wire>)
    requires wires + more + rest <= all
    ensures |wires| + |more| <= |all| && forall i :: 0 <= i < |more| ==> all[|wires| + i] == more[i]
  {
    assert forall i :: 0 <= i < |more| ==> (wires + more + rest)[|wires| + i] == more[i];
  }

  /** Right where an item's first event comes, the item is announced under the id of its kind: a tool call with the id and
      the name that event gives, anything else with its first content part next. */
  lemma FirstEventAnnounces(events: seq<Event>, i: int)
    requires Starts(events, i)
    ensures var wires, p, e := Wires(events), |Wires(events[..i])|, events[i];
            && p < |wires| && AnnouncesBy(wires[p], e)
            && (!EventKind(e).ToolCallKind? ==> p + 1 < |wires| && wires[p + 1] == PartAdded(e.index, ItemId(EventKind(e), e.index)))
  {
    var front, e := events[..i], events[i];
    NotStarted(front, e.index);
    assert events[..i + 1] == front + [e];
    WiresNext(front, e);
    WiresOfFront(events, i + 1);
    StartItemAnnounces(e);
    At(Wires(front), StartItem(e), Translated(e), Wires(events));
  }
}
