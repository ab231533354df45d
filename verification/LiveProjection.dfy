/** The events of a chat and the ways they are changed (packages/workbench/src/services/chat-session.ts). */
module ChatEvents {
  import opened Wrappers

  datatype ToolState = Streaming | Pending | Approved | Denied | InProgress | Completed | Failed

  datatype ChatEvent =
    | UserMessage(id: string, text: string)
    | AgentMessage(id: string, text: string)
    | ToolEvent(toolCallId: string, approval: bool, state: ToolState, title: string, summary: string, detail: string)
    | ErrorEvent(text: string)

  predicate IsAgent(e: ChatEvent, id: string) {
    e.AgentMessage? && e.id == id
  }

  predicate IsTool(e: ChatEvent, id: string) {
    e.ToolEvent? && e.toolCallId == id
  }

  predicate IsMessage(e: ChatEvent, id: string) {
    (e.AgentMessage? || e.UserMessage?) && e.id == id
  }

  /** The first index where a condition holds, or -1. */
  function First(events: seq<ChatEvent>, holds: ChatEvent -> bool): (r: int)
    ensures -1 <= r < |events|
    ensures r < 0 ==> forall i :: 0 <= i < |events| ==> !holds(events[i])
    ensures r >= 0 ==> holds(events[r]) && forall i :: 0 <= i < r ==> !holds(events[i])
  {
    if events == [] then -1
    else
      var front, last := First(events[..|events| - 1], holds), events[|events| - 1];
      if front >= 0 then front else if holds(last) then |events| - 1 else -1
  }

  function AgentAt(events: seq<ChatEvent>, id: string): (r: int)
    ensures -1 <= r < |events|
    ensures r < 0 ==> forall i :: 0 <= i < |events| ==> !IsAgent(events[i], id)
    ensures r >= 0 ==> IsAgent(events[r], id) && forall i :: 0 <= i < r ==> !IsAgent(events[i], id)
  {
    First(events, c => IsAgent(c, id))
  }

  function ToolAt(events: seq<ChatEvent>, id: string): (r: int)
    ensures -1 <= r < |events|
    ensures r < 0 ==> forall i :: 0 <= i < |events| ==> !IsTool(events[i], id)
    ensures r >= 0 ==> IsTool(events[r], id) && forall i :: 0 <= i < r ==> !IsTool(events[i], id)
  {
    First(events, c => IsTool(c, id))
  }

  lemma AgentAtConcat(a: seq<ChatEvent>, b: seq<ChatEvent>, id: string)
    requires AgentAt(a, id) < 0
    ensures AgentAt(a + b, id) == if AgentAt(b, id) < 0 then -1 else |a| + AgentAt(b, id)
  {
    var at := AgentAt(b, id);
    assert at >= 0 ==> IsAgent((a + b)[|a| + at], id);
  }

  lemma ToolAtConcat(a: seq<ChatEvent>, b: seq<ChatEvent>, id: string)
    requires ToolAt(a, id) < 0
    ensures ToolAt(a + b, id) == if ToolAt(b, id) < 0 then -1 else |a| + ToolAt(b, id)
  {
    var at := ToolAt(b, id);
    assert at >= 0 ==> IsTool((a + b)[|a| + at], id);
  }

  method FindIndex(events: seq<ChatEvent>, holds: ChatEvent -> bool) returns (index: int)
    ensures index == First(events, holds)
  {
    for i := 0 to |events|
      invariant forall j :: 0 <= j < i ==> !holds(events[j])
    {
      if holds(events[i]) {
        return i;
      }
    }
    return -1;
  }

  function WithEvent(events: seq<ChatEvent>, e: ChatEvent): seq<ChatEvent> {
    var index := if (e.UserMessage? || e.AgentMessage?) && e.id != "" then First(events, c => IsMessage(c, e.id)) else -1;
    if index >= 0 then events[index := e] else events + [e]
  }

  function WithDelta(events: seq<ChatEvent>, id: string, content: string): seq<ChatEvent> {
    var index := AgentAt(events, id);
    if index < 0 then events + [AgentMessage(id, content)]
    else events[index := AgentMessage(id, events[index].text + content)]
  }

  function WithTool(events: seq<ChatEvent>, e: ChatEvent): seq<ChatEvent>
    requires e.ToolEvent?
  {
    var index := ToolAt(events, e.toolCallId);
    if index < 0 then events + [e] else events[index := e]
  }

  predicate CarriesId(e: ChatEvent) {
    (e.UserMessage? || e.AgentMessage?) && e.id != ""
  }

  predicate IsFirstWithId(events: seq<ChatEvent>, i: nat, id: string) {
    i < |events| && IsMessage(events[i], id) && forall j :: 0 <= j < i ==> !IsMessage(events[j], id)
  }

  /** A message takes the place of the first message with its id; without one, and for anything else, it is the last event. */
  lemma KnownMessageIsReplaced(events: seq<ChatEvent>, e: ChatEvent, i: nat)
    ensures CarriesId(e) && IsFirstWithId(events, i, e.id) ==> WithEvent(events, e) == events[i := e]
    ensures !CarriesId(e) || (forall c :: c in events ==> !IsMessage(c, e.id)) ==> WithEvent(events, e) == events + [e]
  {
  }

  class ChatSession {
    var events: seq<ChatEvent>
    var activeTurn: Option<string>

    constructor ()
      ensures events == [] && activeTurn == None
    {
      events, activeTurn := [], None;
    }

    method AppendEvent(e: ChatEvent)
      modifies this`events
      ensures events == WithEvent(old(events), e)
    {
      var index := -1;
      if (e.UserMessage? || e.AgentMessage?) && e.id != "" {
        index := FindIndex(events, c => IsMessage(c, e.id));
      }
      if index >= 0 {
        events := events[index := e];
      } else {
        events := events + [e];
      }
    }

    method AppendMessageDelta(id: string, content: string)
      modifies this`events
      ensures events == WithDelta(old(events), id, content)
    {
      var index := FindIndex(events, c => IsAgent(c, id));
      if index < 0 {
        events := events + [AgentMessage(id, content)];
      } else {
        events := events[index := AgentMessage(id, events[index].text + content)];
      }
    }

    method ReplaceEvents(replacement: seq<ChatEvent>)
      modifies this`events
      ensures events == replacement
    {
      events := replacement;
    }

    /** An empty turn id ends the active turn. */
    method SetActiveTurn(turn: string)
      modifies this`activeTurn
      ensures activeTurn == if turn != "" then Some(turn) else None
    {
      activeTurn := if turn != "" then Some(turn) else None;
    }
  }
}

/** Host actions of one chat as chat events
    (packages/workbench/src/contrib/sessions/ahp-projection-service.ts). */
module LiveProjection {
  import opened ChatEvents
  import opened Wrappers
  import opened StreamId

  datatype Action =
    | Delta(partId: string, content: string)
    | TurnStarted(turn: string, text: string)
    | TurnEnded
    | Failure(text: string)
    | ToolStart(toolCallId: string, name: string, intention: string)
    | ToolDelta(toolCallId: string, content: string)
    | ToolReady(toolCallId: string, input: string, message: string, title: string, confirmed: bool)
    | ToolConfirmed(toolCallId: string, approved: bool)
    | ToolComplete(toolCallId: string, result: string, failed: bool)
    | ToolContent(toolCallId: string, json: string)

  /** How a tool's input is worded; what it says is not part of this model. */
  datatype Wording = Wording(detail: (string, string, string) -> string, summary: (string, string) -> string)

  datatype Live = Live(events: seq<ChatEvent>, turn: Option<string>, segment: nat)

  const SEGMENT := ":segment-"

  function ScopedId(turn: string, part: string, segment: nat): string {
    turn + ":" + part + if segment > 0 then SEGMENT + Decimal(segment) else ""
  }

  function PartId(s: Live, part: string): string {
    if s.turn.Some? && s.turn.value != "" then ScopedId(s.turn.value, part, s.segment) else part
  }

  predicate IsToolAction(a: Action) {
    a.ToolStart? || a.ToolDelta? || a.ToolReady? || a.ToolConfirmed? || a.ToolComplete? || a.ToolContent?
  }

  function OrElse(s: string, t: string): string {
    if s != "" then s else t
  }

  /** The tool event an action makes of the one before it. */
  function ToolEventFor(words: Wording, previous: ChatEvent, a: Action): ChatEvent
    requires previous.ToolEvent? && IsToolAction(a)
  {
    var id, p := a.toolCallId, previous;
    match a
    case ToolStart(_, name, intention) => ToolEvent(id, false, Streaming, name, intention, intention)
    case ToolDelta(_, content) => ToolEvent(id, false, Streaming, p.title, p.summary, p.detail + content)
    case ToolReady(_, input, message, title, confirmed) =>
      var detail, summary := words.detail(input, message, p.detail), OrElse(words.summary(p.title, input), p.summary);
      if confirmed then ToolEvent(id, false, InProgress, p.title, summary, detail)
      else ToolEvent(id, true, ToolState.Pending, OrElse(title, p.title), summary, detail)
    case ToolConfirmed(_, approved) => ToolEvent(id, true, if approved then Approved else Denied, p.title, p.summary, p.detail)
    case ToolComplete(_, result, failed) =>
      ToolEvent(id, false, if failed then Failed else Completed, p.title, p.summary, OrElse(result, p.detail))
    case ToolContent(_, json) => ToolEvent(id, false, InProgress, p.title, p.summary, json)
  }

  function Previous(events: seq<ChatEvent>, id: string): (r: ChatEvent)
    ensures r.ToolEvent?
  {
    var index := ToolAt(events, id);
    if index >= 0 then events[index] else ToolEvent(id, false, Streaming, "Tool call", "", "")
  }

  function WithToolAction(words: Wording, events: seq<ChatEvent>, a: Action): seq<ChatEvent>
    requires IsToolAction(a)
  {
    if a.toolCallId == "" then events else WithTool(events, ToolEventFor(words, Previous(events, a.toolCallId), a))
  }

  function Projected(words: Wording, s: Live, a: Action): Live {
    match a
    case Delta(part, content) => if part == "" then s else s.(events := WithDelta(s.events, PartId(s, part), content))
    case TurnStarted(turn, text) =>
      Live(if text != "" then WithEvent(s.events, UserMessage(turn + ":user", text)) else s.events, Some(turn), 0)
    case TurnEnded => s.(turn := None, segment := 0)
    case Failure(text) => s.(events := WithEvent(s.events, ErrorEvent(text)))
    case _ =>
      s.(segment := if a.ToolStart? then s.segment + 1 else s.segment, events := WithToolAction(words, s.events, a))
  }

  /** The turn the chat shows as active; an error ends it although the projection still knows it. */
  function ShownTurn(shown: Option<string>, a: Action): Option<string> {
    match a
    case TurnStarted(turn, _) => if turn != "" then Some(turn) else None
    case TurnEnded => None
    case Failure(_) => None
    case _ => shown
  }

  /** A turn is shown as active from its start to its end or an error. */
  lemma TurnIsActive(shown: Option<string>, a: Action)
    ensures a.TurnStarted? && a.turn != "" ==> ShownTurn(shown, a) == Some(a.turn)
    ensures a.TurnEnded? || a.Failure? ==> ShownTurn(shown, a) == None
    ensures a.Delta? || IsToolAction(a) ==> ShownTurn(shown, a) == shown
  {
  }

  class Projection {
    const chat: ChatSession
    const words: Wording
    var turn: Option<string>
    var segment: nat

    function State(): Live
      reads this, chat
    {
      Live(chat.events, turn, segment)
    }

    constructor (chat: ChatSession, words: Wording)
      ensures this.chat == chat && this.words == words && turn == None && segment == 0
    {
      this.chat, this.words, turn, segment := chat, words, None, 0;
    }

    method ProjectTool(a: Action)
      requires IsToolAction(a)
      modifies chat`events
      ensures chat.events == WithToolAction(words, old(chat.events), a)
    {
      var id := a.toolCallId;
      if id == "" {
        return;
      }
      var index := FindIndex(chat.events, c => IsTool(c, id));
      var previous := if index >= 0 then chat.events[index] else ToolEvent(id, false, Streaming, "Tool call", "", "");
      UpsertToolEvent(ToolEventFor(words, previous, a));
    }

    method UpsertToolEvent(e: ChatEvent)
      requires e.ToolEvent?
      modifies chat`events
      ensures chat.events == WithTool(old(chat.events), e)
    {
      var events := chat.events;
      var index := FindIndex(events, c => IsTool(c, e.toolCallId));
      if index < 0 {
        events := events + [e];
      } else {
        events := events[index := e];
      }
      chat.ReplaceEvents(events);
    }

    method Project(a: Action)
      modifies this, chat
      ensures State() == Projected(words, old(State()), a)
      ensures chat.activeTurn == ShownTurn(old(chat.activeTurn), a)
    {
      match a
      case Delta(part, content) =>
        if part != "" {
          var id := part;
          if turn.Some? && turn.value != "" {
            id := ScopedId(turn.value, part, segment);
          }
          chat.AppendMessageDelta(id, content);
        }
      case TurnStarted(started, text) =>
        turn, segment := Some(started), 0;
        if text != "" {
          chat.AppendEvent(UserMessage(started + ":user", text));
        }
        chat.SetActiveTurn(started);
      case TurnEnded =>
        turn, segment := None, 0;
        chat.SetActiveTurn("");
      case Failure(text) =>
        chat.AppendEvent(ErrorEvent(text));
        chat.SetActiveTurn("");
      case ToolStart(_, _, _) =>
        segment := segment + 1;
        ProjectTool(a);
      case _ => ProjectTool(a);
    }
  }
}
