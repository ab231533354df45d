/** What a tool call's event shows after a live turn. */
module LiveTools {
  import opened ChatEvents
  import opened LiveProjection
  import opened LiveTurn
  import opened Wrappers

  predicate Names(a: Action, id: string) {
    IsToolAction(a) && a.toolCallId == id
  }

  // ----- What the actions say of a tool call, field by field

  /** The state that an action about a tool call leads to. */
  function StateAfter(a: Action): ToolState
    requires IsToolAction(a)
  {
    match a
    case ToolStart(_, _, _) => Streaming
    case ToolDelta(_, _) => Streaming
    case ToolReady(_, _, _, _, confirmed) => if confirmed then InProgress else ToolState.Pending
    case ToolConfirmed(_, approved) => if approved then Approved else Denied
    case ToolComplete(_, _, failed) => if failed then Failed else Completed
    case ToolContent(_, _) => InProgress
  }

  /** The state of the last action about the tool call. */
  function StateOf(actions: seq<Action>, id: string): ToolState {
    if actions == [] then Streaming
    else
      var last := actions[|actions| - 1];
      if Names(last, id) then StateAfter(last) else StateOf(actions[..|actions| - 1], id)
  }

  /** Whether the last action about the tool call asked for an approval or gave one. */
  function IsApproval(actions: seq<Action>, id: string): bool {
    if actions == [] then false
    else
      var last := actions[|actions| - 1];
      if Names(last, id) then (last.ToolReady? && !last.confirmed) || last.ToolConfirmed? else IsApproval(actions[..|actions| - 1], id)
  }

  /** The name of the last start, or a later title of a request for approval. */
  function TitleOf(actions: seq<Action>, id: string): string {
    if actions == [] then "Tool call"
    else
      var before, last := TitleOf(actions[..|actions| - 1], id), actions[|actions| - 1];
      if !Names(last, id) then before
      else if last.ToolStart? then last.name
      else if last.ToolReady? && !last.confirmed && last.title != "" then last.title
      else before
  }

  function SummaryOf(words: Wording, actions: seq<Action>, id: string): string {
    if actions == [] then ""
    else
      var front, last := actions[..|actions| - 1], actions[|actions| - 1];
      var before := SummaryOf(words, front, id);
      if !Names(last, id) then before
      else if last.ToolStart? then last.intention
      else if last.ToolReady? && words.summary(TitleOf(front, id), last.input) != "" then words.summary(TitleOf(front, id), last.input)
      else before
  }

  /** The intention and what was streamed since the start, until it is worded, completed with a result, or replaced. */
  function DetailOf(words: Wording, actions: seq<Action>, id: string): string {
    if actions == [] then ""
    else
      var before, last := DetailOf(words, actions[..|actions| - 1], id), actions[|actions| - 1];
      if !Names(last, id) then before
      else
        match last
        case ToolStart(_, _, intention) => intention
        case ToolDelta(_, content) => before + content
        case ToolReady(_, input, message, _, _) => words.detail(input, message, before)
        case ToolComplete(_, result, _) => if result != "" then result else before
        case ToolContent(_, json) => json
        case _ => before
  }

  /** The event that the actions make of a tool call. */
  function ToolSays(words: Wording, actions: seq<Action>, id: string): Tool {
    ToolEvent(id, IsApproval(actions, id), StateOf(actions, id), TitleOf(actions, id), SummaryOf(words, actions, id), DetailOf(words, actions, id))
  }

  // ----- The event shows it

  lemma SaysNext(words: Wording, actions: seq<Action>, a: Action, id: string)
    ensures ToolSays(words, actions + [a], id)
         == if Names(a, id) then ToolEventFor(words, ToolSays(words, actions, id), a) else ToolSays(words, actions, id)
  {
    assert (actions + [a])[..|actions|] == actions;
  }

  /** The event of another tool call, a message or an error leaves a tool call's event alone. */
  lemma OthersLeave(words: Wording, entries: seq<Entry>, segment: nat, a: Action, id: string)
    requires id != ""
    ensures PreviousCall(EntriesAfter(words, entries, segment, a), id)
         == if Names(a, id) then NextCall(words, entries, a) else PreviousCall(entries, id)
  {
    var after := EntriesAfter(words, entries, segment, a);
    if ToolOf(a) != "" && !a.Delta? && !a.Failure? {
      CallingShows(entries, NextCall(words, entries, a), id);
    } else {
      SameCallsShow(entries, after, id);
    }
  }

  lemma CallingShows(entries: seq<Entry>, event: Tool, id: string)
    ensures PreviousCall(Calling(entries, event), id) == if event.toolCallId == id then event else PreviousCall(entries, id)
  {
    var at, after := CallPlace(entries, event.toolCallId), Calling(entries, event);
    var place := CallPlace(entries, id);
    if event.toolCallId == id {
      assert IsCall(after[if at < 0 then |entries| else at], id);
    } else if place >= 0 {
      assert IsCall(after[place], id);
    }
  }

  lemma SameCallsShow(entries: seq<Entry>, after: seq<Entry>, id: string)
    requires |entries| <= |after| && forall i :: 0 <= i < |entries| ==> (entries[i].Call? || after[i].Call? ==> after[i] == entries[i])
    requires forall i :: |entries| <= i < |after| ==> !after[i].Call?
    ensures PreviousCall(after, id) == PreviousCall(entries, id)
  {
    var place := CallPlace(entries, id);
    if place >= 0 {
      assert IsCall(after[place], id);
    }
  }

  lemma {:induction false} EntriesShowTools(words: Wording, actions: seq<Action>, id: string)
    requires id != ""
    ensures PreviousCall(Entries(words, actions), id) == ToolSays(words, actions, id)
  {
    if actions != [] {
      var front, last := actions[..|actions| - 1], actions[|actions| - 1];
      assert front + [last] == actions;
      EntriesShowTools(words, front, id);
      EntriesAppend(words, front, last);
      OthersLeave(words, Entries(words, front), |Started(front)|, last, id);
      SaysNext(words, front, last, id);
    }
  }

  lemma ShownTool(words: Wording, turn: string, before: seq<ChatEvent>, parts: set<string>, ids: set<string>, actions: seq<Action>, id: string)
    requires Untouched(turn, before, parts, ids) && id != "" && id in Seen(actions) && id in ids
    ensures var events := before + ShownAll(turn, Entries(words, actions));
            ToolAt(events, id) >= 0 && events[ToolAt(events, id)] == ToolSays(words, actions, id)
  {
    var entries := Entries(words, actions);
    TurnIsFaithful(words, actions, "part", 0);
    CallIsPlaced(entries, id);
    ToolIsShown(turn, before, parts, ids, entries, id);
    EntriesShowTools(words, actions, id);
  }

  /** After a live turn, the chat's event of a tool call shows what the turn's actions say of it: approved or denied as it
      was last confirmed, failed or completed as it ended, with the title, the summary and the detail that its actions
      add up to. */
  lemma ToolShowsItsActions(words: Wording, turn: string, before: seq<ChatEvent>, parts: set<string>, ids: set<string>,
                            actions: seq<Action>, id: string)
    requires turn != "" && OneTurn(actions, parts, ids) && Apart(parts) && Untouched(turn, before, parts, ids)
    requires id != "" && id in Seen(actions) && id in ids
    ensures var events := ProjectedAll(words, Live(before, Some(turn), 0), actions).events;
            ToolAt(events, id) >= 0 && events[ToolAt(events, id)] == ToolSays(words, actions, id)
  {
    TurnIsShown(words, turn, before, parts, ids, actions);
    ShownTool(words, turn, before, parts, ids, actions, id);
  }
}
