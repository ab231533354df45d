/** The provider-neutral stream between a model provider and a wire protocol (internal/domain/llm/llm.go). */
module NeutralEvents {
  import opened Collections

  datatype Kind = TextKind | RefusalKind | ReasoningKind | ToolCallKind | MetadataKind

  datatype ToolCall = ToolCall(id: string, name: string, arguments: string)

  datatype Part = Text(text: string) | Refusal(text: string) | Reasoning(text: string) | Tool(call: ToolCall) | Metadata

  datatype Event =
    | Created
    | TextDelta(index: int, delta: string)
    | ReasoningDelta(index: int, delta: string)
    | ArgumentsDelta(index: int, delta: string)
    | Added(index: int, part: Part)
    | Completed(output: seq<Part>)
    | Error

  function KindOf(part: Part): Kind {
    match part
    case Text(_) => TextKind
    case Refusal(_) => RefusalKind
    case Reasoning(_) => ReasoningKind
    case Tool(_) => ToolCallKind
    case Metadata => MetadataKind
  }

  /** Events about one output item, and the kind of item they are about. */
  predicate IsTyped(e: Event) {
    e.TextDelta? || e.ReasoningDelta? || e.ArgumentsDelta? || e.Added?
  }

  predicate IsDelta(e: Event) {
    e.TextDelta? || e.ReasoningDelta? || e.ArgumentsDelta?
  }

  function EventKind(e: Event): Kind
    requires IsTyped(e)
  {
    match e
    case TextDelta(_, _) => TextKind
    case ReasoningDelta(_, _) => ReasoningKind
    case ArgumentsDelta(_, _) => ToolCallKind
    case Added(_, part) => KindOf(part)
  }

  /** Everything streamed under one index. */
  function DeltasAt(events: seq<Event>, index: int): string {
    if events == [] then ""
    else
      var front, last := DeltasAt(events[..|events| - 1], index), events[|events| - 1];
      if IsDelta(last) && last.index == index then front + last.delta else front
  }

  lemma DeltasAtAppend(events: seq<Event>, e: Event, index: int)
    ensures DeltasAt(events + [e], index)
         == if IsDelta(e) && e.index == index then DeltasAt(events, index) + e.delta else DeltasAt(events, index)
  {
    assert (events + [e])[..|events|] == events;
  }

  lemma OneEvent(e: Event, index: int)
    ensures DeltasAt([e], index) == if IsDelta(e) && e.index == index then e.delta else ""
  {
    var none: seq<Event> := [];
    DeltasAtAppend(none, e, index);
    assert none + [e] == [e];
    assert IsDelta(e) ==> "" + e.delta == e.delta;
  }

  lemma {:induction false} DeltasAtConcat(a: seq<Event>, b: seq<Event>, index: int)
    ensures DeltasAt(a + b, index) == DeltasAt(a, index) + DeltasAt(b, index)
  {
    if b == [] {
      assert a + b == a;
    } else {
      var b', last := b[..|b| - 1], b[|b| - 1];
      DeltasAtConcat(a, b', index);
      assert a + b == (a + b') + [last] && b == b' + [last];
      DeltasAtAppend(a + b', last, index);
      DeltasAtAppend(b', last, index);
      if IsDelta(last) && last.index == index {
        Associative(DeltasAt(a, index), DeltasAt(b', index), last.delta);
      }
    }
  }

  /** What a part has to show for what was streamed. */
  function Shown(part: Part): string {
    match part
    case Text(text) => text
    case Refusal(text) => text
    case Reasoning(text) => text
    case Tool(call) => call.arguments
    case Metadata => ""
  }

  lemma {:induction false} NothingStreamed(events: seq<Event>, index: int)
    requires forall e :: e in events && IsTyped(e) ==> e.index != index
    ensures DeltasAt(events, index) == ""
  {
    if events != [] {
      NothingStreamed(events[..|events| - 1], index);
    }
  }

  // ----- Indexes without gaps

  function Range(n: nat): (r: set<int>)
    ensures |r| == n && forall i :: i in r <==> 0 <= i < n
  {
    if n == 0 then {} else Range(n - 1) + {n - 1}
  }
}
