/** Whole turns of a live chat, from the user's message to the end of the turn, as its events show them. */
module LiveChat {
  import opened Collections
  import opened ChatEvents
  import opened LiveProjection
  import opened LiveTurn
  import opened Wrappers

  // ----- Texts

  /** A text received for a part in a segment. */
  predicate Receives(actions: seq<Action>, k: int, part: string, segment: nat) {
    0 <= k < |actions| && actions[k].Delta? && actions[k].partId == part && |Started(actions[..k])| == segment
  }

  lemma {:induction false} PlacedIffReceived(words: Wording, actions: seq<Action>, part: string, segment: nat)
    requires part != ""
    ensures Place(Entries(words, actions), part, segment) >= 0 <==> exists k :: Receives(actions, k, part, segment)
  {
    if actions != [] {
      var front, last := actions[..|actions| - 1], actions[|actions| - 1];
      assert actions == front + [last];
      PlacedIffReceived(words, front, part, segment);
      EntriesAppend(words, front, last);
      PlaceNext(words, Entries(words, front), |Started(front)|, last, part, segment);
      ReceivesNext(front, last, part, segment);
    }
  }

  lemma ReceivesNext(actions: seq<Action>, a: Action, part: string, segment: nat)
    ensures (exists k :: Receives(actions + [a], k, part, segment))
       <==> (exists k :: Receives(actions, k, part, segment)) || (a.Delta? && a.partId == part && |Started(actions)| == segment)
  {
    var all := actions + [a];
    assert all[..|actions|] == actions;
    assert forall k :: 0 <= k < |actions| ==> all[..k] == actions[..k];
    if k :| Receives(actions, k, part, segment) {
      assert Receives(all, k, part, segment);
    }
    if k :| Receives(all, k, part, segment) {
      assert k < |actions| ==> Receives(actions, k, part, segment);
    }
    assert a.Delta? && a.partId == part && |Started(actions)| == segment ==> Receives(all, |actions|, part, segment);
  }

  lemma PlaceNext(words: Wording, entries: seq<Entry>, now: nat, a: Action, part: string, segment: nat)
    requires part != ""
    ensures Place(EntriesAfter(words, entries, now, a), part, segment) >= 0
       <==> Place(entries, part, segment) >= 0 || (a.Delta? && a.partId == part && now == segment)
  {
    var after := EntriesAfter(words, entries, now, a);
    var at := Place(entries, part, segment);
    assert at >= 0 ==> IsSaid(after[at], part, segment);
    if a.Delta? && a.partId != "" && Place(entries, a.partId, now) < 0 {
      assert IsSaid(after[|entries|], a.partId, now);
    }
  }

  lemma EntriesShowText(words: Wording, turn: string, before: seq<ChatEvent>, parts: set<string>, ids: set<string>, actions: seq<Action>,
                        part: string, segment: nat)
    requires Apart(parts) && Untouched(turn, before, parts, ids) && SaysOnly(Entries(words, actions), parts)
    requires part != "" && part in parts
    ensures var events, id := before + ShownAll(turn, Entries(words, actions)), ScopedId(turn, part, segment);
            && (AgentAt(events, id) >= 0 <==> exists k :: Receives(actions, k, part, segment))
            && (AgentAt(events, id) >= 0 ==> events[AgentAt(events, id)] == AgentMessage(id, Heard(actions, part, segment)))
  {
    TurnIsFaithful(words, actions, part, segment);
    AgentIsShown(turn, before, parts, ids, Entries(words, actions), part, segment);
    PlacedIffReceived(words, actions, part, segment);
  }

  /** After a live turn the chat has a message under a part's id and segment exactly when text was received for them, and
      the message shows exactly that text. */
  lemma ChatShowsTexts(words: Wording, turn: string, before: seq<ChatEvent>, parts: set<string>, ids: set<string>, actions: seq<Action>,
                       part: string, segment: nat)
    requires turn != "" && OneTurn(actions, parts, ids) && Apart(parts) && Untouched(turn, before, parts, ids)
    requires part != "" && part in parts
    ensures var events, id := ProjectedAll(words, Live(before, Some(turn), 0), actions).events, ScopedId(turn, part, segment);
            && (AgentAt(events, id) >= 0 <==> exists k :: Receives(actions, k, part, segment))
            && (AgentAt(events, id) >= 0 ==> events[AgentAt(events, id)] == AgentMessage(id, Heard(actions, part, segment)))
  {
    TurnIsShown(words, turn, before, parts, ids, actions);
    EntriesShowText(words, turn, before, parts, ids, actions, part, segment);
  }

  /** Outside a turn, text goes to the message with the part's own id. */
  lemma TextOutsideTurns(words: Wording, events: seq<ChatEvent>, segment: nat, part: string, content: string)
    requires part != ""
    ensures var after := Projected(words, Live(events, None, segment), Delta(part, content)).events;
            var at := AgentAt(events, part);
            && AgentAt(after, part) == (if at < 0 then |events| else at)
            && after[AgentAt(after, part)].text == (if at < 0 then content else events[at].text + content)
            && forall i :: 0 <= i < |events| && i != at ==> after[i] == events[i]
  {
    var after := Projected(words, Live(events, None, segment), Delta(part, content)).events;
    var at := AgentAt(events, part);
    assert IsAgent(after[if at < 0 then |events| else at], part);
  }

  // ----- Errors

  function Failures(actions: seq<Action>): seq<string> {
    if actions == [] then []
    else
      var last := actions[|actions| - 1];
      Failures(actions[..|actions| - 1]) + if last.Failure? then [last.text] else []
  }

  function ErrorsIn(events: seq<ChatEvent>): seq<string> {
    if events == [] then []
    else
      var last := events[|events| - 1];
      ErrorsIn(events[..|events| - 1]) + if last.ErrorEvent? then [last.text] else []
  }

  lemma ErrorsAppend(events: seq<ChatEvent>, e: ChatEvent)
    ensures ErrorsIn(events + [e]) == ErrorsIn(events) + if e.ErrorEvent? then [e.text] else []
  {
    assert (events + [e])[..|events|] == events;
  }

  lemma {:induction false} ErrorsUpdate(events: seq<ChatEvent>, i: nat, e: ChatEvent)
    requires i < |events| && !events[i].ErrorEvent? && !e.ErrorEvent?
    ensures ErrorsIn(events[i := e]) == ErrorsIn(events)
  {
    var n := |events| - 1;
    if i < n {
      ErrorsUpdate(events[..n], i, e);
      assert events[i := e][..n] == events[..n][i := e];
    } else {
      assert events[i := e][..n] == events[..n];
    }
  }

  lemma NextErrors(words: Wording, s: Live, a: Action)
    ensures ErrorsIn(Projected(words, s, a).events) == ErrorsIn(s.events) + if a.Failure? then [a.text] else []
  {
    assert ErrorsIn(s.events) + [] == ErrorsIn(s.events);
    match a
    case Delta(part, content) =>
      if part != "" {
        var at := AgentAt(s.events, PartId(s, part));
        if at < 0 {
          ErrorsAppend(s.events, AgentMessage(PartId(s, part), content));
        } else {
          ErrorsUpdate(s.events, at, AgentMessage(PartId(s, part), s.events[at].text + content));
        }
      }
    case TurnStarted(turn, text) => UserErrors(s.events, UserMessage(turn + ":user", text));
    case TurnEnded =>
    case Failure(text) => ErrorsAppend(s.events, ErrorEvent(text));
    case _ => ToolErrors(words, s.events, a);
  }

  lemma UserErrors(events: seq<ChatEvent>, e: ChatEvent)
    requires e.UserMessage?
    ensures ErrorsIn(WithEvent(events, e)) == ErrorsIn(events)
  {
    var index := if e.id != "" then First(events, c => IsMessage(c, e.id)) else -1;
    if index >= 0 {
      ErrorsUpdate(events, index, e);
    } else {
      ErrorsAppend(events, e);
    }
  }

  lemma ToolErrors(words: Wording, events: seq<ChatEvent>, a: Action)
    requires IsToolAction(a)
    ensures ErrorsIn(WithToolAction(words, events, a)) == ErrorsIn(events)
  {
    if a.toolCallId != "" {
      var e := ToolEventFor(words, Previous(events, a.toolCallId), a);
      var at := ToolAt(events, e.toolCallId);
      if at < 0 {
        ErrorsAppend(events, e);
      } else {
        ErrorsUpdate(events, at, e);
      }
    }
  }

  /** Whatever actions come, each failure adds one error with its text, in order, and no error is lost or changed. */
  lemma {:induction false} ErrorsAreShown(words: Wording, s: Live, actions: seq<Action>)
    ensures ErrorsIn(ProjectedAll(words, s, actions).events) == ErrorsIn(s.events) + Failures(actions)
  {
    if actions == [] {
      assert ErrorsIn(s.events) + [] == ErrorsIn(s.events);
    } else {
      var front, last := actions[..|actions| - 1], actions[|actions| - 1];
      ErrorsAreShown(words, s, front);
      NextErrors(words, ProjectedAll(words, s, front), last);
      Associative(ErrorsIn(s.events), Failures(front), if last.Failure? then [last.text] else []);
    }
  }

  // ----- A turn from its start to its end

  lemma {:induction false} ProjectedConcat(words: Wording, s: Live, a: seq<Action>, b: seq<Action>)
    ensures ProjectedAll(words, s, a + b) == ProjectedAll(words, ProjectedAll(words, s, a), b)
    decreases |b|
  {
    if b == [] {
      assert a + b == a;
    } else {
      assert (a + b)[..|a + b| - 1] == a + b[..|b| - 1];
      ProjectedConcat(words, s, a, b[..|b| - 1]);
    }
  }

  lemma ProjectedOne(words: Wording, s: Live, a: Action)
    ensures ProjectedAll(words, s, [a]) == Projected(words, s, a)
  {
    assert [a][..0] == [];
  }

  /** The user's message of a new turn stands behind all earlier events. */
  lemma TurnStarts(words: Wording, s: Live, turn: string, text: string)
    requires forall e :: e in s.events ==> !IsMessage(e, turn + ":user")
    ensures Projected(words, s, TurnStarted(turn, text))
         == Live(s.events + if text != "" then [UserMessage(turn + ":user", text)] else [], Some(turn), 0)
  {
    assert s.events + [] == s.events;
  }

  /** A whole turn adds to the chat the user's message, unless it is empty, and then the turn's entries; afterwards no turn
      is active, so the next turn starts from its first segment. */
  lemma WholeTurnIsShown(words: Wording, s: Live, turn: string, text: string, parts: set<string>, ids: set<string>, actions: seq<Action>)
    requires forall e :: e in s.events ==> !IsMessage(e, turn + ":user")
    requires var before := s.events + if text != "" then [UserMessage(turn + ":user", text)] else [];
             turn != "" && OneTurn(actions, parts, ids) && Apart(parts) && Untouched(turn, before, parts, ids)
    ensures var before := s.events + if text != "" then [UserMessage(turn + ":user", text)] else [];
            ProjectedAll(words, s, [TurnStarted(turn, text)] + actions + [TurnEnded])
            == Live(before + ShownAll(turn, Entries(words, actions)), None, 0)
  {
    var before := s.events + if text != "" then [UserMessage(turn + ":user", text)] else [];
    TurnStarts(words, s, turn, text);
    ProjectedOne(words, s, TurnStarted(turn, text));
    ProjectedConcat(words, s, [TurnStarted(turn, text)], actions);
    TurnIsShown(words, turn, before, parts, ids, actions);
    var shown := Live(before + ShownAll(turn, Entries(words, actions)), Some(turn), |Started(actions)|);
    ProjectedConcat(words, s, [TurnStarted(turn, text)] + actions, [TurnEnded]);
    ProjectedOne(words, shown, TurnEnded);
  }
}
