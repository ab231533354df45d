/** How a live turn's messages and tool calls stand to each other. */
module LiveOrder {
  import opened ChatEvents
  import opened LiveProjection
  import opened LiveTurn
  import opened Wrappers

  // ----- Where an entry stands

  lemma EntriesNext(words: Wording, actions: seq<Action>, n: nat)
    requires n < |actions|
    ensures Entries(words, actions[..n + 1])
         == EntriesAfter(words, Entries(words, actions[..n]), |Started(actions[..n])|, actions[n])
  {
    assert actions[..n + 1][..n] == actions[..n];
  }

  /** No entry has moved, and a new one stands at the end. */
  ghost predicate Extends(before: seq<Entry>, after: seq<Entry>) {
    && |before| <= |after| <= |before| + 1
    && (forall i, part, segment :: 0 <= i < |before| ==> (IsSaid(after[i], part, segment) <==> IsSaid(before[i], part, segment)))
    && (forall i, id :: 0 <= i < |before| ==> (IsCall(after[i], id) <==> IsCall(before[i], id)))
  }

  lemma NextExtends(words: Wording, entries: seq<Entry>, segment: nat, a: Action)
    ensures Extends(entries, EntriesAfter(words, entries, segment, a))
  {
  }

  lemma PlaceStays(before: seq<Entry>, after: seq<Entry>, part: string, segment: nat)
    requires Extends(before, after) && Place(before, part, segment) >= 0
    ensures Place(after, part, segment) == Place(before, part, segment)
  {
    assert IsSaid(after[Place(before, part, segment)], part, segment);
  }

  lemma CallPlaceStays(before: seq<Entry>, after: seq<Entry>, id: string)
    requires Extends(before, after) && CallPlace(before, id) >= 0
    ensures CallPlace(after, id) == CallPlace(before, id)
  {
    assert IsCall(after[CallPlace(before, id)], id);
  }

  lemma PrefixExtends(words: Wording, actions: seq<Action>, n: nat)
    requires n < |actions|
    ensures Extends(Entries(words, actions[..n]), Entries(words, actions[..n + 1]))
  {
    EntriesNext(words, actions, n);
    NextExtends(words, Entries(words, actions[..n]), |Started(actions[..n])|, actions[n]);
  }

  lemma {:induction false} EntriesGrow(words: Wording, actions: seq<Action>, m: nat, n: nat)
    requires m <= n <= |actions|
    ensures |Entries(words, actions[..m])| <= |Entries(words, actions[..n])|
  {
    if m < n {
      var k: nat := n - 1;
      EntriesGrow(words, actions, m, k);
      PrefixExtends(words, actions, k);
    }
  }

  /** Action k says text for a part in a segment. */
  predicate SaysAt(actions: seq<Action>, k: int, part: string, segment: nat) {
    0 <= k < |actions| && actions[k].Delta? && actions[k].partId == part != "" && |Started(actions[..k])| == segment
  }

  ghost predicate FirstSaid(actions: seq<Action>, k: int, part: string, segment: nat) {
    SaysAt(actions, k, part, segment) && forall j :: 0 <= j < k ==> !SaysAt(actions, j, part, segment)
  }

  /** Action k names a tool call. */
  predicate NamesAt(actions: seq<Action>, k: int, id: string) {
    0 <= k < |actions| && ToolOf(actions[k]) == id != ""
  }

  ghost predicate FirstNamed(actions: seq<Action>, k: int, id: string) {
    NamesAt(actions, k, id) && forall j :: 0 <= j < k ==> !NamesAt(actions, j, id)
  }

  lemma {:induction false} FirstSaying(actions: seq<Action>, k: nat, part: string, segment: nat) returns (first: nat)
    requires SaysAt(actions, k, part, segment)
    ensures first <= k && FirstSaid(actions, first, part, segment)
  {
    if j: nat :| j < k && SaysAt(actions, j, part, segment) {
      first := FirstSaying(actions, j, part, segment);
    } else {
      first := k;
    }
  }

  lemma PlaceNext(before: seq<Entry>, after: seq<Entry>, part: string, segment: nat)
    requires Extends(before, after) && Place(before, part, segment) < 0
    ensures Place(after, part, segment) == if |after| > |before| && IsSaid(after[|before|], part, segment) then |before| else -1
  {
  }

  lemma CallPlaceNext(before: seq<Entry>, after: seq<Entry>, id: string)
    requires Extends(before, after) && CallPlace(before, id) < 0
    ensures CallPlace(after, id) == if |after| > |before| && IsCall(after[|before|], id) then |before| else -1
  {
  }

  lemma SaysNext(words: Wording, entries: seq<Entry>, now: nat, a: Action, part: string, segment: nat)
    requires Place(entries, part, segment) < 0 && part != ""
    ensures var says := a.Delta? && a.partId == part && now == segment;
            Place(EntriesAfter(words, entries, now, a), part, segment) == if says then |entries| else -1
  {
    NextExtends(words, entries, now, a);
    PlaceNext(entries, EntriesAfter(words, entries, now, a), part, segment);
  }

  lemma CallingNext(entries: seq<Entry>, event: Tool, id: string)
    requires CallPlace(entries, id) < 0
    ensures CallPlace(Calling(entries, event), id) == if event.toolCallId == id then |entries| else -1
  {
    CallPlaceNext(entries, Calling(entries, event), id);
  }

  lemma NamesNext(words: Wording, entries: seq<Entry>, now: nat, a: Action, id: string)
    requires CallPlace(entries, id) < 0 && id != ""
    ensures CallPlace(EntriesAfter(words, entries, now, a), id) == if ToolOf(a) == id then |entries| else -1
  {
    if ToolOf(a) != "" {
      CallingNext(entries, NextCall(words, entries, a), id);
    } else {
      NextExtends(words, entries, now, a);
      CallPlaceNext(entries, EntriesAfter(words, entries, now, a), id);
    }
  }

  /** Text not received yet has no message. */
  lemma {:induction false} NotYetSaid(words: Wording, actions: seq<Action>, n: nat, part: string, segment: nat)
    requires n <= |actions| && part != "" && forall j :: 0 <= j < n ==> !SaysAt(actions, j, part, segment)
    ensures Place(Entries(words, actions[..n]), part, segment) < 0
  {
    if n > 0 {
      var k: nat := n - 1;
      NotYetSaid(words, actions, k, part, segment);
      assert !SaysAt(actions, k, part, segment);
      EntriesNext(words, actions, k);
      SaysNext(words, Entries(words, actions[..k]), |Started(actions[..k])|, actions[k], part, segment);
    }
  }

  lemma {:induction false} NotYetNamed(words: Wording, actions: seq<Action>, n: nat, id: string)
    requires n <= |actions| && id != "" && forall j :: 0 <= j < n ==> !NamesAt(actions, j, id)
    ensures CallPlace(Entries(words, actions[..n]), id) < 0
  {
    if n > 0 {
      var k: nat := n - 1;
      NotYetNamed(words, actions, k, id);
      assert !NamesAt(actions, k, id);
      EntriesNext(words, actions, k);
      NamesNext(words, Entries(words, actions[..k]), |Started(actions[..k])|, actions[k], id);
    }
  }

  lemma MessageAppears(words: Wording, actions: seq<Action>, k: nat, part: string, segment: nat)
    requires FirstSaid(actions, k, part, segment)
    ensures Place(Entries(words, actions[..k + 1]), part, segment) == |Entries(words, actions[..k])|
  {
    NotYetSaid(words, actions, k, part, segment);
    EntriesNext(words, actions, k);
    SaysNext(words, Entries(words, actions[..k]), |Started(actions[..k])|, actions[k], part, segment);
  }

  lemma CallAppears(words: Wording, actions: seq<Action>, k: nat, id: string)
    requires FirstNamed(actions, k, id)
    ensures CallPlace(Entries(words, actions[..k + 1]), id) == |Entries(words, actions[..k])|
  {
    NotYetNamed(words, actions, k, id);
    EntriesNext(words, actions, k);
    NamesNext(words, Entries(words, actions[..k]), |Started(actions[..k])|, actions[k], id);
  }

  /** A message stands behind the entries made before its first text. */
  lemma {:induction false} MessageStands(words: Wording, actions: seq<Action>, k: nat, n: nat, part: string, segment: nat)
    requires FirstSaid(actions, k, part, segment) && k < n <= |actions|
    ensures Place(Entries(words, actions[..n]), part, segment) == |Entries(words, actions[..k])|
    decreases n
  {
    var m: nat := n - 1;
    assert actions[..m + 1] == actions[..n];
    if m == k {
      MessageAppears(words, actions, k, part, segment);
    } else {
      MessageStands(words, actions, k, m, part, segment);
      PrefixExtends(words, actions, m);
      PlaceStays(Entries(words, actions[..m]), Entries(words, actions[..n]), part, segment);
    }
  }

  /** A tool call's event stands behind the entries made before its first action. */
  lemma {:induction false} CallStands(words: Wording, actions: seq<Action>, k: nat, n: nat, id: string)
    requires FirstNamed(actions, k, id) && k < n <= |actions|
    ensures CallPlace(Entries(words, actions[..n]), id) == |Entries(words, actions[..k])|
    decreases n
  {
    var m: nat := n - 1;
    assert actions[..m + 1] == actions[..n];
    if m == k {
      CallAppears(words, actions, k, id);
    } else {
      CallStands(words, actions, k, m, id);
      PrefixExtends(words, actions, m);
      CallPlaceStays(Entries(words, actions[..m]), Entries(words, actions[..n]), id);
    }
  }

  /** A message and a tool call stand in the order of their first actions. */
  lemma FirstComesFirst(words: Wording, actions: seq<Action>, k: nat, part: string, segment: nat, m: nat, id: string)
    requires FirstSaid(actions, k, part, segment) && FirstNamed(actions, m, id)
    ensures var entries := Entries(words, actions);
            && Place(entries, part, segment) >= 0 && CallPlace(entries, id) >= 0
            && (Place(entries, part, segment) > CallPlace(entries, id) <==> m < k)
  {
    assert actions[..|actions|] == actions;
    MessageStands(words, actions, k, |actions|, part, segment);
    CallStands(words, actions, m, |actions|, id);
    if m < k {
      CallStands(words, actions, m, m + 1, id);
      EntriesGrow(words, actions, m + 1, k);
    } else {
      EntriesGrow(words, actions, k, m);
    }
  }

  // ----- The order of a whole turn

  /** The text of action k is shown behind a tool call. */
  predicate TextBehind(turn: string, events: seq<ChatEvent>, actions: seq<Action>, k: nat, id: string)
    requires k < |actions| && actions[k].Delta?
  {
    AgentAt(events, ScopedId(turn, actions[k].partId, |Started(actions[..k])|)) > ToolAt(events, id)
  }

  predicate IsText(actions: seq<Action>, k: int) {
    0 <= k < |actions| && actions[k].Delta? && actions[k].partId != ""
  }

  /** Every text is shown behind exactly the tool calls that were named before it was received. */
  ghost predicate ShownInOrder(turn: string, events: seq<ChatEvent>, actions: seq<Action>) {
    forall k, m, id :: IsText(actions, k) && FirstNamed(actions, m, id) ==> (TextBehind(turn, events, actions, k, id) <==> m < k)
  }

  /** Between two texts of a part a tool call is named for the first time, and none is started. */
  ghost predicate Interrupted(actions: seq<Action>, j: int, m: int, k: int, id: string) {
    && IsText(actions, j) && IsText(actions, k) && FirstNamed(actions, m, id) && j < m < k
    && actions[j].partId == actions[k].partId && |Started(actions[..j])| == |Started(actions[..k])|
  }

  ghost predicate NeverInterrupted(actions: seq<Action>) {
    forall j, m, k, id :: !Interrupted(actions, j, m, k, id)
  }

  lemma TextBehindIff(words: Wording, turn: string, before: seq<ChatEvent>, parts: set<string>, ids: set<string>,
                      actions: seq<Action>, k: nat, m: nat, id: string) returns (first: nat)
    requires turn != "" && OneTurn(actions, parts, ids) && Apart(parts) && Untouched(turn, before, parts, ids)
    requires IsText(actions, k) && FirstNamed(actions, m, id)
    ensures var events := ProjectedAll(words, Live(before, Some(turn), 0), actions).events;
            TextBehind(turn, events, actions, k, id) <==> m < first
    ensures first <= k && FirstSaid(actions, first, actions[k].partId, |Started(actions[..k])|)
  {
    var part, segment := actions[k].partId, |Started(actions[..k])|;
    first := FirstSaying(actions, k, part, segment);
    TurnIsShown(words, turn, before, parts, ids, actions);
    assert actions[k] in actions && actions[m] in actions;
    AgentIsShown(turn, before, parts, ids, Entries(words, actions), part, segment);
    ToolIsShown(turn, before, parts, ids, Entries(words, actions), id);
    FirstComesFirst(words, actions, first, part, segment, m, id);
  }

  /** The later of the two texts is shown in front of the tool call although it came after it. */
  lemma InterruptedIsMisplaced(words: Wording, turn: string, before: seq<ChatEvent>, parts: set<string>, ids: set<string>,
                               actions: seq<Action>, j: nat, m: nat, k: nat, id: string)
    requires turn != "" && OneTurn(actions, parts, ids) && Apart(parts) && Untouched(turn, before, parts, ids)
    requires Interrupted(actions, j, m, k, id)
    ensures m < k && !TextBehind(turn, ProjectedAll(words, Live(before, Some(turn), 0), actions).events, actions, k, id)
  {
    var first := TextBehindIff(words, turn, before, parts, ids, actions, k, m, id);
    assert SaysAt(actions, j, actions[k].partId, |Started(actions[..k])|);
  }

  /** A turn's texts and tool calls are shown in the order they arrive exactly when no tool call is named for the
      first time, without being started, between two texts of a part. */
  lemma ShownInOrderIff(words: Wording, turn: string, before: seq<ChatEvent>, parts: set<string>, ids: set<string>, actions: seq<Action>)
    requires turn != "" && OneTurn(actions, parts, ids) && Apart(parts) && Untouched(turn, before, parts, ids)
    ensures ShownInOrder(turn, ProjectedAll(words, Live(before, Some(turn), 0), actions).events, actions) <==> NeverInterrupted(actions)
  {
    var events := ProjectedAll(words, Live(before, Some(turn), 0), actions).events;
    forall j, m, k, id | Interrupted(actions, j, m, k, id)
      ensures !ShownInOrder(turn, events, actions)
    {
      InterruptedIsMisplaced(words, turn, before, parts, ids, actions, j, m, k, id);
    }
    if NeverInterrupted(actions) {
      forall k, m, id | IsText(actions, k) && FirstNamed(actions, m, id)
        ensures TextBehind(turn, events, actions, k, id) <==> m < k
      {
        var first := TextBehindIff(words, turn, before, parts, ids, actions, k, m, id);
        assert !Interrupted(actions, first, m, k, id);
      }
    }
  }

  lemma SayingBehind(entries: seq<Entry>, part: string, segment: nat, content: string, id: string)
    requires CallPlace(entries, id) >= 0
    ensures var after := Saying(entries, part, segment, content);
            && CallPlace(after, id) == CallPlace(entries, id)
            && Place(after, part, segment) == if Place(entries, part, segment) < 0 then |entries| else Place(entries, part, segment)
  {
    var after := Saying(entries, part, segment, content);
    CallPlaceStays(entries, after, id);
    if Place(entries, part, segment) < 0 {
      PlaceNext(entries, after, part, segment);
    } else {
      PlaceStays(entries, after, part, segment);
    }
  }

  /** Text received after a new tool call is shown behind it exactly when its message is new as well. */
  lemma LaterTextIffNew(entries: seq<Entry>, event: Tool, part: string, segment: nat, content: string)
    requires CallPlace(entries, event.toolCallId) < 0
    ensures var after := Saying(Calling(entries, event), part, segment, content);
            Place(after, part, segment) > CallPlace(after, event.toolCallId) <==> Place(entries, part, segment) < 0
  {
    var called := Calling(entries, event);
    if Place(entries, part, segment) < 0 {
      PlaceNext(entries, called, part, segment);
    } else {
      PlaceStays(entries, called, part, segment);
    }
    CallPlaceNext(entries, called, event.toolCallId);
    SayingBehind(called, part, segment, content, event.toolCallId);
  }

  // ----- Tool calls that are started before anything else is said about them

  predicate AtLevel(entries: seq<Entry>, i: nat)
    requires i < |entries|
  {
    entries[i].Said? ==> entries[i].segment == |CallIds(entries[..i])|
  }

  /** A message stands after exactly as many tool calls as its segment says. */
  predicate Levelled(entries: seq<Entry>) {
    forall i :: 0 <= i < |entries| ==> AtLevel(entries, i)
  }

  lemma SameCallsBefore(entries: seq<Entry>, at: nat, e: Entry, i: nat)
    requires at < |entries| && i <= |entries| && CallKey(e) == CallKey(entries[at])
    ensures CallIds(entries[at := e][..i]) == CallIds(entries[..i])
  {
    SameCalls(entries[at := e][..i], entries[..i]);
  }

  lemma AppendKeepsLevels(entries: seq<Entry>, e: Entry)
    requires Levelled(entries) && (e.Said? ==> e.segment == |CallIds(entries)|)
    ensures Levelled(entries + [e])
  {
    var all := entries + [e];
    assert all[..|entries|] == entries;
    forall i | 0 <= i < |all|
      ensures AtLevel(all, i)
    {
      if i < |entries| {
        assert AtLevel(entries, i) && all[..i] == entries[..i];
      }
    }
  }

  lemma UpdateKeepsLevels(entries: seq<Entry>, at: nat, e: Entry)
    requires Levelled(entries) && at < |entries| && CallKey(e) == CallKey(entries[at])
    requires e.Said? ==> entries[at].Said? && e.segment == entries[at].segment
    ensures Levelled(entries[at := e])
  {
    var all := entries[at := e];
    forall i | 0 <= i < |all|
      ensures AtLevel(all, i)
    {
      assert AtLevel(entries, i);
      SameCallsBefore(entries, at, e, i);
    }
  }

  lemma NextKeepsLevels(words: Wording, entries: seq<Entry>, a: Action)
    requires Levelled(entries)
    ensures Levelled(EntriesAfter(words, entries, |CallIds(entries)|, a))
  {
    var segment := |CallIds(entries)|;
    if a.Delta? {
      var at := Place(entries, a.partId, segment);
      if at < 0 {
        AppendKeepsLevels(entries, Said(a.partId, segment, a.content));
      } else {
        UpdateKeepsLevels(entries, at, Said(a.partId, segment, entries[at].text + a.content));
      }
    } else if a.Failure? {
      AppendKeepsLevels(entries, Trouble(a.text));
    } else if ToolOf(a) != "" {
      var at, event := CallPlace(entries, a.toolCallId), NextCall(words, entries, a);
      if at < 0 {
        AppendKeepsLevels(entries, Call(event));
      } else {
        UpdateKeepsLevels(entries, at, Call(event));
      }
    }
  }

  lemma {:induction false} OrderlyIsSeen(actions: seq<Action>)
    requires Orderly(actions)
    ensures Seen(actions) == Started(actions)
  {
    if actions != [] {
      OrderlyIsSeen(actions[..|actions| - 1]);
    }
  }

  lemma {:induction false} TurnIsLevelled(words: Wording, actions: seq<Action>)
    requires Orderly(actions)
    ensures CallIds(Entries(words, actions)) == Started(actions) && Levelled(Entries(words, actions))
  {
    OrderlyIsSeen(actions);
    TurnIsFaithful(words, actions, "part", 0);
    if actions != [] {
      var front, last := actions[..|actions| - 1], actions[|actions| - 1];
      TurnIsLevelled(words, front);
      NextKeepsLevels(words, Entries(words, front), last);
    }
  }

  predicate AllDistinct(ids: seq<string>) {
    forall i, j :: 0 <= i < j < |ids| ==> ids[i] != ids[j]
  }

  lemma {:induction false} SeenAreDistinct(actions: seq<Action>)
    ensures AllDistinct(Seen(actions))
  {
    if actions != [] {
      SeenAreDistinct(actions[..|actions| - 1]);
    }
  }

  lemma {:induction false} CallsGrow(entries: seq<Entry>, i: nat, j: nat)
    requires i <= j <= |entries|
    ensures CallIds(entries[..i]) <= CallIds(entries[..j])
  {
    if i < j {
      CallsGrow(entries, i, j - 1);
      assert entries[..j][..j - 1] == entries[..j - 1];
    }
  }

  lemma CallIdAt(entries: seq<Entry>, t: nat)
    requires t < |entries| && entries[t].Call?
    ensures var j := |CallIds(entries[..t])|;
            j < |CallIds(entries)| && CallKey(entries[t]) == [CallIds(entries)[j]]
  {
    assert entries[..t + 1][..t] == entries[..t];
    CallsGrow(entries, t + 1, |entries|);
    assert entries[..|entries|] == entries;
  }

  lemma StrictlyFewer(entries: seq<Entry>, i: nat, t: nat)
    requires i < t < |entries| && entries[i].Call?
    ensures |CallIds(entries[..i])| < |CallIds(entries[..t])|
  {
    assert entries[..i + 1][..i] == entries[..i];
    CallsGrow(entries, i + 1, t);
  }

  lemma CallsDiffer(entries: seq<Entry>, i: nat, t: nat)
    requires AllDistinct(CallIds(entries)) && i < t < |entries| && entries[i].Call? && entries[t].Call?
    ensures CallKey(entries[i]) != CallKey(entries[t])
  {
    CallIdAt(entries, i);
    CallIdAt(entries, t);
    StrictlyFewer(entries, i, t);
  }

  lemma MessageAtLevel(entries: seq<Entry>, i: nat, t: nat)
    requires Levelled(entries) && i < |entries| && t < |entries| && entries[i].Said? && entries[t].Call?
    ensures i < t <==> entries[i].segment <= |CallIds(entries[..t])|
  {
    assert AtLevel(entries, i);
    if i < t {
      CallsGrow(entries, i, t);
    } else {
      StrictlyFewer(entries, t, i);
    }
  }

  /** A tool call's event stands behind all text received before it started and before all text received
      after, and no tool call has a second one. */
  lemma ToolsStandInOrder(words: Wording, actions: seq<Action>, i: nat, t: nat)
    requires Orderly(actions)
    requires var entries := Entries(words, actions); i < |entries| && t < |entries| && entries[t].Call?
    ensures var entries := Entries(words, actions);
            var j := |CallIds(entries[..t])|;
            && j < |Started(actions)| && CallKey(entries[t]) == [Started(actions)[j]]
            && (entries[i].Said? ==> (i < t <==> entries[i].segment <= j))
            && (entries[i].Call? && i != t ==> CallKey(entries[i]) != CallKey(entries[t]))
  {
    var entries := Entries(words, actions);
    TurnIsLevelled(words, actions);
    OrderlyIsSeen(actions);
    SeenAreDistinct(actions);
    CallIdAt(entries, t);
    if entries[i].Said? {
      MessageAtLevel(entries, i, t);
    } else if entries[i].Call? && i != t {
      CallsDiffer(entries, if i < t then i else t, if i < t then t else i);
    }
  }

  lemma {:induction false} StartsGrow(actions: seq<Action>, m: nat, n: nat)
    requires m <= n <= |actions|
    ensures |Started(actions[..m])| <= |Started(actions[..n])|
  {
    if m < n {
      var k: nat := n - 1;
      StartsGrow(actions, m, k);
      assert actions[..n][..k] == actions[..k];
    }
  }

  lemma {:induction false} OrderlyPrefix(actions: seq<Action>, n: nat)
    requires Orderly(actions) && n <= |actions|
    ensures Orderly(actions[..n])
  {
    if n == |actions| {
      assert actions[..n] == actions;
    } else {
      var front := actions[..|actions| - 1];
      assert front[..n] == actions[..n];
      OrderlyPrefix(front, n);
    }
  }

  lemma {:induction false} SeenIsNamed(actions: seq<Action>, n: nat, id: string)
    requires n <= |actions| && id in Seen(actions[..n])
    ensures exists j :: 0 <= j < n && NamesAt(actions, j, id)
  {
    if n > 0 {
      var m: nat := n - 1;
      assert actions[..n][..m] == actions[..m];
      if id in Seen(actions[..m]) {
        SeenIsNamed(actions, m, id);
      } else {
        assert NamesAt(actions, m, id);
      }
    }
  }

  lemma OrderlyStarts(actions: seq<Action>, m: nat, id: string)
    requires Orderly(actions) && FirstNamed(actions, m, id)
    ensures actions[m].ToolStart? && |Started(actions[..m + 1])| == |Started(actions[..m])| + 1
  {
    assert actions[..m + 1][..m] == actions[..m];
    OrderlyPrefix(actions, m + 1);
    OrderlyPrefix(actions, m);
    OrderlyIsSeen(actions[..m]);
    if id in Seen(actions[..m]) {
      SeenIsNamed(actions, m, id);
    }
  }

  /** Tool calls started once before anything else is said about them never interrupt a part. */
  lemma OrderlyIsNeverInterrupted(actions: seq<Action>)
    requires Orderly(actions)
    ensures NeverInterrupted(actions)
  {
    forall j, m, k, id | 0 <= j < m < k < |actions| && FirstNamed(actions, m, id)
      ensures |Started(actions[..j])| < |Started(actions[..k])|
    {
      OrderlyStarts(actions, m, id);
      StartsGrow(actions, j, m);
      StartsGrow(actions, m + 1, k);
    }
  }

  // ----- The order depends on the start of a tool call

  lemma DeltaJoins(words: Wording, s: Live, part: string, content: string, id: string, text: string)
    requires s.turn == Some("turn") && part != "" && id == ScopedId("turn", part, s.segment)
    requires s.events != [] && s.events[0] == AgentMessage(id, text)
    ensures Projected(words, s, Delta(part, content)) == s.(events := s.events[0 := AgentMessage(id, text + content)])
  {
    assert IsAgent(s.events[0], id);
  }

  /** An action for a tool call that was never started shows an event but starts no segment, so text received
      later joins the message in front of it. */
  lemma UnknownToolBreaksOrder(words: Wording, part: string, id: string, a: string, b: string, json: string)
    requires part != "" && id != ""
    ensures !CanFollow([], ToolContent(id, json))
    ensures var s1 := Projected(words, Live([], Some("turn"), 0), Delta(part, a));
            var s3 := Projected(words, Projected(words, s1, ToolContent(id, json)), Delta(part, b));
            |s3.events| == 2 && s3.events[0] == AgentMessage(ScopedId("turn", part, 0), a + b) && IsTool(s3.events[1], id)
  {
    var message := ScopedId("turn", part, 0);
    var s1 := Projected(words, Live([], Some("turn"), 0), Delta(part, a));
    assert s1 == Live([AgentMessage(message, a)], Some("turn"), 0);
    var s2 := Projected(words, s1, ToolContent(id, json));
    assert s2.events[0] == AgentMessage(message, a) && |s2.events| == 2;
    DeltaJoins(words, s2, part, b, message, a);
  }
}
