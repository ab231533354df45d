/** What a live turn shows: no text is lost, each tool has one event, and both keep their order. */
module LiveTurn {
  import opened ChatEvents
  import opened Collections
  import opened Wrappers
  import opened LiveProjection
  import opened StreamId

  // ----- Message ids

  function Suffix(segment: nat): string {
    if segment > 0 then SEGMENT + Decimal(segment) else ""
  }

  /** The last colon of a part with a suffix is where the suffix starts. */
  lemma SuffixLetters(part: string, segment: nat)
    ensures segment == 0 ==> part + Suffix(segment) == part
    ensures var s := part + Suffix(segment);
            segment > 0 ==> |s| > |part| && s[|part|] == ':' && forall i :: |part| < i < |s| ==> s[i] != ':'
  {
    if segment > 0 {
      var s := part + Suffix(segment);
      assert forall i :: |part| <= i < |part| + 9 ==> s[i] == SEGMENT[i - |part|];
      assert forall i :: |part| + 9 <= i < |s| ==> s[i] == Decimal(segment)[i - |part| - 9];
    }
  }

  lemma SuffixIsInjective(m: nat, n: nat)
    requires Suffix(m) == Suffix(n)
    ensures m == n
  {
    if m > 0 && n > 0 {
      assert Suffix(m)[9..] == Decimal(m) && Suffix(n)[9..] == Decimal(n);
      DecimalIsInjective(m, n);
    }
  }

  lemma Cancels(head: string, x: string, y: string)
    ensures head + x == head + y <==> x == y
  {
    assert (head + x)[|head|..] == x && (head + y)[|head|..] == y;
  }

  lemma SuffixedIsInjective(a: string, m: nat, b: string, n: nat)
    requires m > 0 && n > 0 && a + Suffix(m) == b + Suffix(n)
    ensures a == b && m == n
  {
    SuffixLetters(a, m);
    SuffixLetters(b, n);
    assert |a| == |b|;
    assert a == (a + Suffix(m))[..|a|] == (b + Suffix(n))[..|b|] == b;
    Cancels(a, Suffix(m), Suffix(n));
    SuffixIsInjective(m, n);
  }

  /** A part id that reads like a segment of another part. */
  predicate ReadsAs(a: string, b: string, n: nat) {
    n > 0 && a == b + Suffix(n)
  }

  lemma ScopedIdSplits(turn: string, part: string, segment: nat)
    ensures ScopedId(turn, part, segment) == (turn + ":") + (part + Suffix(segment))
  {
  }

  /** Two message ids of a turn are equal for the same part and segment, and otherwise only when one of them
      has no segment and its part reads like that segment of the other part. */
  lemma ScopedIdsEqualIff(turn: string, a: string, m: nat, b: string, n: nat)
    ensures ScopedId(turn, a, m) == ScopedId(turn, b, n)
       <==> (a == b && m == n) || (m == 0 && ReadsAs(a, b, n)) || (n == 0 && ReadsAs(b, a, m))
  {
    ScopedIdSplits(turn, a, m);
    ScopedIdSplits(turn, b, n);
    Cancels(turn + ":", a + Suffix(m), b + Suffix(n));
    SuffixLetters(a, m);
    SuffixLetters(b, n);
    if m > 0 && n > 0 && a + Suffix(m) == b + Suffix(n) {
      SuffixedIsInjective(a, m, b, n);
    }
  }

  /** Part ids none of which reads like a segment of another. */
  ghost predicate Apart(parts: set<string>) {
    forall a, b, n :: a in parts && b in parts ==> !ReadsAs(a, b, n)
  }

  /** Message ids that tell a turn's parts and segments apart. */
  ghost predicate Distinguished(turn: string, parts: set<string>) {
    forall a, m, b, n :: a in parts && b in parts && ScopedId(turn, a, m) == ScopedId(turn, b, n) ==> a == b && m == n
  }

  /** Within a turn, a message id determines the part and the segment. */
  lemma ScopedIdIsInjective(turn: string, parts: set<string>, a: string, m: nat, b: string, n: nat)
    requires Apart(parts) && a in parts && b in parts
    ensures ScopedId(turn, a, m) == ScopedId(turn, b, n) <==> a == b && m == n
  {
    ScopedIdsEqualIff(turn, a, m, b, n);
  }

  /** Exactly the part ids that are apart get message ids of their own. */
  lemma DistinguishedIffApart(turn: string, parts: set<string>)
    ensures Distinguished(turn, parts) <==> Apart(parts)
  {
    if Apart(parts) {
      forall a, m, b, n | a in parts && b in parts && ScopedId(turn, a, m) == ScopedId(turn, b, n)
        ensures a == b && m == n
      {
        ScopedIdIsInjective(turn, parts, a, m, b, n);
      }
    }
    if Distinguished(turn, parts) {
      forall a, b, n | a in parts && b in parts
        ensures !ReadsAs(a, b, n)
      {
        ScopedIdsEqualIff(turn, a, 0, b, n);
      }
    }
  }

  // ----- A turn's events as text and tool calls in their order

  type Tool = e: ChatEvent | e.ToolEvent? witness ToolEvent("", false, Streaming, "", "", "")

  /** Text said for a part in a segment, a tool call, or an error. */
  datatype Entry = Said(part: string, segment: nat, text: string) | Call(event: Tool) | Trouble(text: string)

  function Shown(turn: string, e: Entry): ChatEvent {
    match e
    case Said(part, segment, text) => AgentMessage(ScopedId(turn, part, segment), text)
    case Call(event) => event
    case Trouble(text) => ErrorEvent(text)
  }

  function ShownAll(turn: string, entries: seq<Entry>): seq<ChatEvent> {
    seq(|entries|, i requires 0 <= i < |entries| => Shown(turn, entries[i]))
  }

  function Place(entries: seq<Entry>, part: string, segment: nat): (r: int)
    ensures -1 <= r < |entries|
    ensures r < 0 ==> forall i :: 0 <= i < |entries| ==> !IsSaid(entries[i], part, segment)
    ensures r >= 0 ==> IsSaid(entries[r], part, segment) && forall i :: 0 <= i < r ==> !IsSaid(entries[i], part, segment)
  {
    if entries == [] then -1
    else
      var front, last := Place(entries[..|entries| - 1], part, segment), entries[|entries| - 1];
      if front >= 0 then front else if IsSaid(last, part, segment) then |entries| - 1 else -1
  }

  predicate IsSaid(e: Entry, part: string, segment: nat) {
    e.Said? && e.part == part && e.segment == segment
  }

  predicate IsCall(e: Entry, id: string) {
    e.Call? && IsTool(e.event, id)
  }

  function CallPlace(entries: seq<Entry>, id: string): (r: int)
    ensures -1 <= r < |entries|
    ensures r < 0 ==> forall i :: 0 <= i < |entries| ==> !IsCall(entries[i], id)
    ensures r >= 0 ==> IsCall(entries[r], id) && forall i :: 0 <= i < r ==> !IsCall(entries[i], id)
  {
    if entries == [] then -1
    else
      var front, last := CallPlace(entries[..|entries| - 1], id), entries[|entries| - 1];
      if front >= 0 then front else if IsCall(last, id) then |entries| - 1 else -1
  }

  function Saying(entries: seq<Entry>, part: string, segment: nat, content: string): seq<Entry> {
    var i := Place(entries, part, segment);
    if i < 0 then entries + [Said(part, segment, content)] else entries[i := Said(part, segment, entries[i].text + content)]
  }

  function Calling(entries: seq<Entry>, event: Tool): seq<Entry> {
    var i := CallPlace(entries, event.toolCallId);
    if i < 0 then entries + [Call(event)] else entries[i := Call(event)]
  }

  function PreviousCall(entries: seq<Entry>, id: string): Tool {
    var i := CallPlace(entries, id);
    if i >= 0 then entries[i].event else ToolEvent(id, false, Streaming, "Tool call", "", "")
  }

  function NextCall(words: Wording, entries: seq<Entry>, a: Action): (r: Tool)
    requires IsToolAction(a)
    ensures r.toolCallId == a.toolCallId
  {
    ToolEventFor(words, PreviousCall(entries, a.toolCallId), a)
  }

  ghost predicate SaysOnly(entries: seq<Entry>, parts: set<string>) {
    forall e :: e in entries && e.Said? ==> e.part in parts
  }

  /** Earlier events of the chat that the turn does not touch. */
  ghost predicate Untouched(turn: string, before: seq<ChatEvent>, parts: set<string>, ids: set<string>) {
    && (forall i, part, segment :: 0 <= i < |before| && part in parts ==> !IsAgent(before[i], ScopedId(turn, part, segment)))
    && (forall i :: 0 <= i < |before| && before[i].ToolEvent? ==> before[i].toolCallId !in ids)
  }

  lemma PlaceIsShown(turn: string, parts: set<string>, entries: seq<Entry>, part: string, segment: nat)
    requires Apart(parts) && part in parts && SaysOnly(entries, parts)
    ensures AgentAt(ShownAll(turn, entries), ScopedId(turn, part, segment)) == Place(entries, part, segment)
  {
    var events, id := ShownAll(turn, entries), ScopedId(turn, part, segment);
    forall i | 0 <= i < |entries|
      ensures IsAgent(events[i], id) <==> IsSaid(entries[i], part, segment)
    {
      var e := entries[i];
      assert e in entries;
      if e.Said? {
        ScopedIdIsInjective(turn, parts, e.part, e.segment, part, segment);
      }
    }
  }

  lemma AgentIsShown(turn: string, before: seq<ChatEvent>, parts: set<string>, ids: set<string>, entries: seq<Entry>,
                     part: string, segment: nat)
    requires Untouched(turn, before, parts, ids) && Apart(parts) && part in parts && SaysOnly(entries, parts)
    ensures var place := Place(entries, part, segment);
            AgentAt(before + ShownAll(turn, entries), ScopedId(turn, part, segment)) == if place < 0 then -1 else |before| + place
  {
    PlaceIsShown(turn, parts, entries, part, segment);
    AgentAtConcat(before, ShownAll(turn, entries), ScopedId(turn, part, segment));
  }

  lemma ToolIsShown(turn: string, before: seq<ChatEvent>, parts: set<string>, ids: set<string>, entries: seq<Entry>, id: string)
    requires Untouched(turn, before, parts, ids) && id in ids
    ensures var place := CallPlace(entries, id);
            ToolAt(before + ShownAll(turn, entries), id) == if place < 0 then -1 else |before| + place
  {
    var events := ShownAll(turn, entries);
    assert forall i :: 0 <= i < |entries| ==> (IsTool(events[i], id) <==> IsCall(entries[i], id));
    assert ToolAt(events, id) == CallPlace(entries, id);
    ToolAtConcat(before, events, id);
  }

  lemma ShownAppend(turn: string, before: seq<ChatEvent>, entries: seq<Entry>, e: Entry)
    ensures before + ShownAll(turn, entries + [e]) == before + ShownAll(turn, entries) + [Shown(turn, e)]
  {
  }

  lemma ShownUpdate(turn: string, before: seq<ChatEvent>, entries: seq<Entry>, i: nat, e: Entry)
    requires i < |entries|
    ensures before + ShownAll(turn, entries[i := e]) == (before + ShownAll(turn, entries))[|before| + i := Shown(turn, e)]
  {
  }

  lemma SayingIsShown(turn: string, before: seq<ChatEvent>, parts: set<string>, ids: set<string>, entries: seq<Entry>,
                      part: string, segment: nat, content: string)
    requires Untouched(turn, before, parts, ids) && Apart(parts) && part in parts && SaysOnly(entries, parts)
    ensures WithDelta(before + ShownAll(turn, entries), ScopedId(turn, part, segment), content)
         == before + ShownAll(turn, Saying(entries, part, segment, content))
  {
    AgentIsShown(turn, before, parts, ids, entries, part, segment);
    var place := Place(entries, part, segment);
    if place < 0 {
      ShownAppend(turn, before, entries, Said(part, segment, content));
    } else {
      ShownUpdate(turn, before, entries, place, Said(part, segment, entries[place].text + content));
    }
  }

  lemma CallingIsShown(turn: string, before: seq<ChatEvent>, parts: set<string>, ids: set<string>, entries: seq<Entry>, event: Tool)
    requires Untouched(turn, before, parts, ids) && event.toolCallId in ids
    ensures WithTool(before + ShownAll(turn, entries), event) == before + ShownAll(turn, Calling(entries, event))
  {
    ToolIsShown(turn, before, parts, ids, entries, event.toolCallId);
    var place := CallPlace(entries, event.toolCallId);
    if place < 0 {
      ShownAppend(turn, before, entries, Call(event));
    } else {
      ShownUpdate(turn, before, entries, place, Call(event));
    }
  }

  lemma PreviousIsShown(turn: string, before: seq<ChatEvent>, parts: set<string>, ids: set<string>, entries: seq<Entry>, id: string)
    requires Untouched(turn, before, parts, ids) && id in ids
    ensures Previous(before + ShownAll(turn, entries), id) == PreviousCall(entries, id)
  {
    ToolIsShown(turn, before, parts, ids, entries, id);
  }

  // ----- A whole turn

  /** The tool calls started, in order. */
  function Started(actions: seq<Action>): seq<string> {
    if actions == [] then []
    else
      var front, last := Started(actions[..|actions| - 1]), actions[|actions| - 1];
      if last.ToolStart? then front + [last.toolCallId] else front
  }

  function ToolOf(a: Action): string {
    if IsToolAction(a) then a.toolCallId else ""
  }

  /** The tool calls named by any action, in the order of their first action. */
  function Seen(actions: seq<Action>): seq<string> {
    if actions == [] then []
    else
      var front, id := Seen(actions[..|actions| - 1]), ToolOf(actions[|actions| - 1]);
      if id == "" || id in front then front else front + [id]
  }

  /** The actions of one turn, with the parts and the tool calls they may name. */
  ghost predicate OneTurn(actions: seq<Action>, parts: set<string>, ids: set<string>) {
    forall a :: a in actions ==> InTurn(a, parts, ids)
  }

  predicate InTurn(a: Action, parts: set<string>, ids: set<string>) {
    match a
    case Delta(part, _) => part == "" || part in parts
    case TurnStarted(_, _) => false
    case TurnEnded => false
    case Failure(_) => true
    case _ => a.toolCallId == "" || a.toolCallId in ids
  }

  /** Actions that start a tool call once, before anything else is said about it. */
  predicate Orderly(actions: seq<Action>) {
    actions == [] || (
      var front, last := actions[..|actions| - 1], actions[|actions| - 1];
      Orderly(front) && CanFollow(Started(front), last))
  }

  predicate CanFollow(started: seq<string>, a: Action) {
    if a.ToolStart? then a.toolCallId != "" && a.toolCallId !in started
    else ToolOf(a) == "" || ToolOf(a) in started
  }

  function ProjectedAll(words: Wording, s: Live, actions: seq<Action>): Live
    decreases |actions|
  {
    if actions == [] then s else Projected(words, ProjectedAll(words, s, actions[..|actions| - 1]), actions[|actions| - 1])
  }

  function EntriesAfter(words: Wording, entries: seq<Entry>, segment: nat, a: Action): seq<Entry> {
    if a.Delta? && a.partId != "" then Saying(entries, a.partId, segment, a.content)
    else if a.Failure? then entries + [Trouble(a.text)]
    else if ToolOf(a) != "" then Calling(entries, NextCall(words, entries, a))
    else entries
  }

  function Entries(words: Wording, actions: seq<Action>): seq<Entry> {
    if actions == [] then []
    else
      var front := actions[..|actions| - 1];
      EntriesAfter(words, Entries(words, front), |Started(front)|, actions[|actions| - 1])
  }

  lemma ToolActionIsShown(words: Wording, turn: string, before: seq<ChatEvent>, parts: set<string>, ids: set<string>,
                          entries: seq<Entry>, segment: nat, a: Action)
    requires Untouched(turn, before, parts, ids) && IsToolAction(a) && InTurn(a, parts, ids)
    ensures WithToolAction(words, before + ShownAll(turn, entries), a) == before + ShownAll(turn, EntriesAfter(words, entries, segment, a))
  {
    if a.toolCallId != "" {
      PreviousIsShown(turn, before, parts, ids, entries, a.toolCallId);
      CallingIsShown(turn, before, parts, ids, entries, NextCall(words, entries, a));
    }
  }

  lemma NextSaysOnly(words: Wording, parts: set<string>, ids: set<string>, entries: seq<Entry>, segment: nat, a: Action)
    requires SaysOnly(entries, parts) && InTurn(a, parts, ids)
    ensures SaysOnly(EntriesAfter(words, entries, segment, a), parts)
  {
  }

  lemma NextIsShown(words: Wording, turn: string, before: seq<ChatEvent>, parts: set<string>, ids: set<string>,
                    entries: seq<Entry>, segment: nat, a: Action)
    requires turn != "" && Untouched(turn, before, parts, ids) && Apart(parts) && SaysOnly(entries, parts)
    requires InTurn(a, parts, ids)
    ensures Projected(words, Live(before + ShownAll(turn, entries), Some(turn), segment), a)
         == Live(before + ShownAll(turn, EntriesAfter(words, entries, segment, a)), Some(turn), segment + if a.ToolStart? then 1 else 0)
  {
    match a
    case Delta(part, content) =>
      if part != "" {
        SayingIsShown(turn, before, parts, ids, entries, part, segment, content);
      }
    case TurnStarted(_, _) =>
    case TurnEnded =>
    case Failure(text) => ShownAppend(turn, before, entries, Trouble(text));
    case _ => ToolActionIsShown(words, turn, before, parts, ids, entries, segment, a);
  }

  /** The chat shows the turn's entries behind its earlier events, which stay as they are. */
  lemma {:induction false} TurnIsShown(words: Wording, turn: string, before: seq<ChatEvent>, parts: set<string>, ids: set<string>,
                                       actions: seq<Action>)
    requires turn != "" && Untouched(turn, before, parts, ids) && Apart(parts) && OneTurn(actions, parts, ids)
    ensures SaysOnly(Entries(words, actions), parts)
    ensures ProjectedAll(words, Live(before, Some(turn), 0), actions)
         == Live(before + ShownAll(turn, Entries(words, actions)), Some(turn), |Started(actions)|)
  {
    if actions == [] {
      assert before + ShownAll(turn, []) == before;
    } else {
      var front, last := actions[..|actions| - 1], actions[|actions| - 1];
      assert last in actions;
      TurnIsShown(words, turn, before, parts, ids, front);
      NextIsShown(words, turn, before, parts, ids, Entries(words, front), |Started(front)|, last);
      NextSaysOnly(words, parts, ids, Entries(words, front), |Started(front)|, last);
    }
  }

  // ----- What the entries say

  function CallKey(e: Entry): seq<string> {
    if e.Call? then [e.event.toolCallId] else []
  }

  function CallIds(entries: seq<Entry>): seq<string> {
    if entries == [] then [] else CallIds(entries[..|entries| - 1]) + CallKey(entries[|entries| - 1])
  }

  /** Text received for a part while a number of tool calls were started. */
  function Heard(actions: seq<Action>, part: string, segment: nat): string {
    if actions == [] then ""
    else
      var front, last := actions[..|actions| - 1], actions[|actions| - 1];
      Heard(front, part, segment)
      + if last.Delta? && last.partId == part && |Started(front)| == segment then last.content else ""
  }

  function HeardAll(actions: seq<Action>, part: string): string {
    if actions == [] then ""
    else
      var last := actions[|actions| - 1];
      HeardAll(actions[..|actions| - 1], part) + if last.Delta? && last.partId == part then last.content else ""
  }

  function TextOf(entries: seq<Entry>, part: string, segment: nat): string {
    var i := Place(entries, part, segment);
    if i < 0 then "" else entries[i].text
  }

  /** The text of a part's messages in the order they are shown. */
  function Spoken(entries: seq<Entry>, part: string): string {
    if entries == [] then ""
    else
      var last := entries[|entries| - 1];
      Spoken(entries[..|entries| - 1], part) + if last.Said? && last.part == part then last.text else ""
  }

  /** No message of an earlier segment stands behind one of a later segment, and none is of a later segment than
      the current one. */
  predicate Rising(entries: seq<Entry>, now: nat) {
    && (forall i :: 0 <= i < |entries| && entries[i].Said? ==> entries[i].segment <= now)
    && (forall i, j :: 0 <= i < j < |entries| && entries[i].Said? && entries[j].Said? ==> entries[i].segment <= entries[j].segment)
  }

  predicate SaidOnce(entries: seq<Entry>) {
    forall i, j :: 0 <= i < j < |entries| && entries[i].Said? ==> !IsSaid(entries[j], entries[i].part, entries[i].segment)
  }

  predicate InOrder(entries: seq<Entry>, seen: seq<string>, now: nat) {
    CallIds(entries) == seen && Rising(entries, now) && SaidOnce(entries)
  }

  lemma {:induction false} SameCalls(a: seq<Entry>, b: seq<Entry>)
    requires |a| == |b| && forall i :: 0 <= i < |a| ==> CallKey(a[i]) == CallKey(b[i])
    ensures CallIds(a) == CallIds(b)
  {
    if a != [] {
      SameCalls(a[..|a| - 1], b[..|b| - 1]);
    }
  }

  lemma {:induction false} CallIsPlaced(entries: seq<Entry>, id: string)
    ensures id in CallIds(entries) <==> CallPlace(entries, id) >= 0
  {
    if entries != [] {
      var front, last := entries[..|entries| - 1], entries[|entries| - 1];
      assert entries == front + [last];
      CallIsPlaced(front, id);
    }
  }

  lemma AppendKeepsOrder(entries: seq<Entry>, seen: seq<string>, now: nat, e: Entry)
    requires InOrder(entries, seen, now)
    requires e.Said? ==> e.segment == now && Place(entries, e.part, now) < 0
    ensures InOrder(entries + [e], seen + CallKey(e), now)
  {
    var all := entries + [e];
    assert all[..|entries|] == entries;
  }

  lemma UpdateKeepsOrder(entries: seq<Entry>, seen: seq<string>, now: nat, at: nat, e: Entry)
    requires InOrder(entries, seen, now) && at < |entries| && CallKey(e) == CallKey(entries[at])
    requires e.Said? <==> entries[at].Said?
    requires e.Said? ==> e.part == entries[at].part && e.segment == entries[at].segment
    ensures InOrder(entries[at := e], seen, now)
  {
    SameCalls(entries[at := e], entries);
  }

  /** No message of a part stands after its message of the current segment. */
  lemma LastOfPart(entries: seq<Entry>, seen: seq<string>, now: nat, part: string, i: nat)
    requires InOrder(entries, seen, now) && 0 <= Place(entries, part, now) < i < |entries|
    ensures !(entries[i].Said? && entries[i].part == part)
  {
    var at := Place(entries, part, now);
    assert IsSaid(entries[at], part, now);
    assert !IsSaid(entries[i], part, now);
  }

  lemma {:induction false} SpokenUpdate(entries: seq<Entry>, at: nat, part: string, more: string, other: string)
    requires at < |entries| && entries[at].Said? && entries[at].part == part
    requires forall i :: at < i < |entries| ==> !(entries[i].Said? && entries[i].part == part)
    ensures var e := entries[at];
            Spoken(entries[at := Said(part, e.segment, e.text + more)], other) == if other == part then Spoken(entries, part) + more else Spoken(entries, other)
  {
    var n := |entries| - 1;
    var e := entries[at];
    var all := entries[at := Said(part, e.segment, e.text + more)];
    if at == n {
      assert all[..n] == entries[..n];
      Associative(Spoken(entries[..n], part), e.text, more);
    } else {
      assert all[..n] == entries[..n][at := Said(part, e.segment, e.text + more)];
      SpokenUpdate(entries[..n], at, part, more, other);
      assert Spoken(entries[..n], other) + "" == Spoken(entries[..n], other);
    }
  }

  lemma SpokenAppend(entries: seq<Entry>, e: Entry, part: string)
    ensures Spoken(entries + [e], part) == Spoken(entries, part) + if e.Said? && e.part == part then e.text else ""
  {
    assert (entries + [e])[..|entries|] == entries;
  }

  lemma {:induction false} SpokenCall(entries: seq<Entry>, at: nat, e: Entry, part: string)
    requires at < |entries| && entries[at].Call? && e.Call?
    ensures Spoken(entries[at := e], part) == Spoken(entries, part)
  {
    var n := |entries| - 1;
    if at == n {
      assert entries[at := e][..n] == entries[..n];
    } else {
      assert entries[at := e][..n] == entries[..n][at := e];
      SpokenCall(entries[..n], at, e, part);
    }
  }

  lemma PlaceAfterAppend(entries: seq<Entry>, e: Entry, part: string, segment: nat)
    ensures Place(entries + [e], part, segment)
         == if Place(entries, part, segment) >= 0 then Place(entries, part, segment) else if IsSaid(e, part, segment) then |entries| else -1
  {
    assert (entries + [e])[..|entries|] == entries;
  }

  lemma SayingKeepsOrder(entries: seq<Entry>, seen: seq<string>, now: nat, part: string, content: string)
    requires InOrder(entries, seen, now)
    ensures InOrder(Saying(entries, part, now, content), seen, now)
  {
    var at := Place(entries, part, now);
    if at < 0 {
      AppendKeepsOrder(entries, seen, now, Said(part, now, content));
      assert seen + [] == seen;
    } else {
      UpdateKeepsOrder(entries, seen, now, at, Said(part, now, entries[at].text + content));
    }
  }

  /** A delta adds to the end of what its part says, and to nothing else. */
  lemma SayingSpoken(entries: seq<Entry>, seen: seq<string>, now: nat, part: string, content: string, other: string)
    requires InOrder(entries, seen, now)
    ensures Spoken(Saying(entries, part, now, content), other) == Spoken(entries, other) + if other == part then content else ""
  {
    var at := Place(entries, part, now);
    if at < 0 {
      SpokenAppend(entries, Said(part, now, content), other);
    } else {
      forall i | at < i < |entries|
        ensures !(entries[i].Said? && entries[i].part == part)
      {
        LastOfPart(entries, seen, now, part, i);
      }
      SpokenUpdate(entries, at, part, content, other);
      assert Spoken(entries, other) + "" == Spoken(entries, other);
    }
  }

  /** It goes to its part's message of the current segment. */
  lemma SayingText(entries: seq<Entry>, now: nat, part: string, content: string, other: string, segment: nat)
    ensures TextOf(Saying(entries, part, now, content), other, segment)
         == TextOf(entries, other, segment) + if other == part && segment == now then content else ""
  {
    var at := Place(entries, part, now);
    assert TextOf(entries, other, segment) + "" == TextOf(entries, other, segment);
    if at < 0 {
      PlaceAfterAppend(entries, Said(part, now, content), other, segment);
      assert "" + content == content;
    } else {
      PlaceAfterUpdate(entries, at, Said(part, now, entries[at].text + content), other, segment);
    }
  }

  lemma PlaceAfterUpdate(entries: seq<Entry>, at: nat, e: Entry, part: string, segment: nat)
    requires at < |entries|
    requires IsSaid(e, part, segment) <==> IsSaid(entries[at], part, segment)
    ensures Place(entries[at := e], part, segment) == Place(entries, part, segment)
  {
    var all := entries[at := e];
    assert forall i :: 0 <= i < |entries| ==> (IsSaid(all[i], part, segment) <==> IsSaid(entries[i], part, segment));
  }

  lemma OtherSays(entries: seq<Entry>, seen: seq<string>, now: nat, e: Entry, other: string, segment: nat)
    requires InOrder(entries, seen, now) && !e.Said?
    ensures InOrder(entries + [e], seen + CallKey(e), now)
    ensures Spoken(entries + [e], other) == Spoken(entries, other) && TextOf(entries + [e], other, segment) == TextOf(entries, other, segment)
  {
    AppendKeepsOrder(entries, seen, now, e);
    SpokenAppend(entries, e, other);
    PlaceAfterAppend(entries, e, other, segment);
    assert Spoken(entries, other) + "" == Spoken(entries, other);
  }

  lemma CallingSays(entries: seq<Entry>, seen: seq<string>, now: nat, event: Tool, other: string, segment: nat)
    requires InOrder(entries, seen, now)
    ensures var entries' := Calling(entries, event);
            && InOrder(entries', if event.toolCallId in seen then seen else seen + [event.toolCallId], now)
            && Spoken(entries', other) == Spoken(entries, other) && TextOf(entries', other, segment) == TextOf(entries, other, segment)
  {
    var at := CallPlace(entries, event.toolCallId);
    CallIsPlaced(entries, event.toolCallId);
    if at < 0 {
      OtherSays(entries, seen, now, Call(event), other, segment);
    } else {
      UpdateKeepsOrder(entries, seen, now, at, Call(event));
      SpokenCall(entries, at, Call(event), other);
      PlaceAfterUpdate(entries, at, Call(event), other, segment);
    }
  }

  /** What a part's messages show is what was received for the part. */
  ghost predicate Faithful(actions: seq<Action>, entries: seq<Entry>, part: string, segment: nat) {
    && InOrder(entries, Seen(actions), |Started(actions)|)
    && Spoken(entries, part) == HeardAll(actions, part)
    && TextOf(entries, part, segment) == Heard(actions, part, segment)
  }

  lemma HeardNext(actions: seq<Action>, a: Action, part: string, segment: nat)
    ensures Started(actions + [a]) == if a.ToolStart? then Started(actions) + [a.toolCallId] else Started(actions)
    ensures Seen(actions + [a]) == if ToolOf(a) == "" || ToolOf(a) in Seen(actions) then Seen(actions) else Seen(actions) + [ToolOf(a)]
    ensures var content := if a.Delta? && a.partId == part then a.content else "";
            && HeardAll(actions + [a], part) == HeardAll(actions, part) + content
            && Heard(actions + [a], part, segment) == Heard(actions, part, segment) + if |Started(actions)| == segment then content else ""
  {
    assert (actions + [a])[..|actions|] == actions;
  }

  lemma SameIsFaithful(actions: seq<Action>, a: Action, entries: seq<Entry>, entries': seq<Entry>, part: string, segment: nat)
    requires Faithful(actions, entries, part, segment) && (a.Delta? ==> a.partId != part)
    requires InOrder(entries', Seen(actions + [a]), |Started(actions)|)
    requires Spoken(entries', part) == Spoken(entries, part) && TextOf(entries', part, segment) == TextOf(entries, part, segment)
    ensures Faithful(actions + [a], entries', part, segment)
  {
    HeardNext(actions, a, part, segment);
    assert HeardAll(actions, part) + "" == HeardAll(actions, part) && Heard(actions, part, segment) + "" == Heard(actions, part, segment);
  }

  lemma DeltaIsFaithful(actions: seq<Action>, a: Action, entries: seq<Entry>, part: string, segment: nat)
    requires Faithful(actions, entries, part, segment) && a.Delta?
    ensures Faithful(actions + [a], Saying(entries, a.partId, |Started(actions)|, a.content), part, segment)
  {
    HeardNext(actions, a, part, segment);
    var seen, now := Seen(actions), |Started(actions)|;
    SayingKeepsOrder(entries, seen, now, a.partId, a.content);
    SayingSpoken(entries, seen, now, a.partId, a.content, part);
    SayingText(entries, now, a.partId, a.content, part, segment);
  }

  lemma CallIsFaithful(actions: seq<Action>, a: Action, entries: seq<Entry>, event: Tool, part: string, segment: nat)
    requires Faithful(actions, entries, part, segment) && IsToolAction(a)
    requires event.toolCallId == a.toolCallId != ""
    ensures Faithful(actions + [a], Calling(entries, event), part, segment)
  {
    HeardNext(actions, a, part, segment);
    CallingSays(entries, Seen(actions), |Started(actions)|, event, part, segment);
    SameIsFaithful(actions, a, entries, Calling(entries, event), part, segment);
  }

  lemma TroubleIsFaithful(actions: seq<Action>, text: string, entries: seq<Entry>, part: string, segment: nat)
    requires Faithful(actions, entries, part, segment)
    ensures Faithful(actions + [Failure(text)], entries + [Trouble(text)], part, segment)
  {
    HeardNext(actions, Failure(text), part, segment);
    OtherSays(entries, Seen(actions), |Started(actions)|, Trouble(text), part, segment);
    assert Seen(actions) + [] == Seen(actions);
    SameIsFaithful(actions, Failure(text), entries, entries + [Trouble(text)], part, segment);
  }

  lemma IdleIsFaithful(actions: seq<Action>, a: Action, entries: seq<Entry>, part: string, segment: nat)
    requires Faithful(actions, entries, part, segment) && ToolOf(a) == "" && (a.Delta? ==> a.partId != part)
    ensures Faithful(actions + [a], entries, part, segment)
  {
    HeardNext(actions, a, part, segment);
    SameIsFaithful(actions, a, entries, entries, part, segment);
  }

  lemma NextIsFaithful(words: Wording, actions: seq<Action>, a: Action, entries: seq<Entry>, part: string, segment: nat)
    requires Faithful(actions, entries, part, segment) && part != ""
    ensures Faithful(actions + [a], EntriesAfter(words, entries, |Started(actions)|, a), part, segment)
  {
    if a.Delta? && a.partId != "" {
      DeltaIsFaithful(actions, a, entries, part, segment);
    } else if ToolOf(a) != "" {
      CallIsFaithful(actions, a, entries, NextCall(words, entries, a), part, segment);
    } else if a.Failure? {
      TroubleIsFaithful(actions, a.text, entries, part, segment);
    } else {
      IdleIsFaithful(actions, a, entries, part, segment);
    }
  }

  lemma EntriesAppend(words: Wording, actions: seq<Action>, a: Action)
    ensures Entries(words, actions + [a]) == EntriesAfter(words, Entries(words, actions), |Started(actions)|, a)
  {
    assert (actions + [a])[..|actions|] == actions;
  }

  lemma LongerIsFaithful(words: Wording, actions: seq<Action>, a: Action, part: string, segment: nat)
    requires Faithful(actions, Entries(words, actions), part, segment) && part != ""
    ensures Faithful(actions + [a], Entries(words, actions + [a]), part, segment)
  {
    EntriesAppend(words, actions, a);
    NextIsFaithful(words, actions, a, Entries(words, actions), part, segment);
  }

  lemma {:induction false} TurnIsFaithful(words: Wording, actions: seq<Action>, part: string, segment: nat)
    requires part != ""
    ensures Faithful(actions, Entries(words, actions), part, segment)
  {
    if actions != [] {
      var front, last := actions[..|actions| - 1], actions[|actions| - 1];
      assert front + [last] == actions;
      TurnIsFaithful(words, front, part, segment);
      LongerIsFaithful(words, front, last, part, segment);
    }
  }

  /** Within a live turn the chat shows the turn's entries behind the earlier events, unchanged. Every part's
      messages add up to its deltas, each holding the deltas of one segment; messages stand in the order of their
      segments, and every tool call named by any action has one event, in the order of first actions. */
  lemma LiveTurnConservesText(words: Wording, turn: string, before: seq<ChatEvent>, parts: set<string>, ids: set<string>,
                              actions: seq<Action>, part: string, segment: nat)
    requires turn != "" && OneTurn(actions, parts, ids) && Apart(parts) && Untouched(turn, before, parts, ids) && part != ""
    ensures var entries := Entries(words, actions);
            && ProjectedAll(words, Live(before, Some(turn), 0), actions).events == before + ShownAll(turn, entries)
            && Spoken(entries, part) == HeardAll(actions, part)
            && TextOf(entries, part, segment) == Heard(actions, part, segment)
            && CallIds(entries) == Seen(actions)
            && Rising(entries, |Started(actions)|) && SaidOnce(entries)
  {
    TurnIsShown(words, turn, before, parts, ids, actions);
    TurnIsFaithful(words, actions, part, segment);
  }
}
