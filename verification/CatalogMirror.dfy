/** The loop that mirrors one Agent Host's session list into the catalog table
    (internal/interfaces/http/session_catalog.go). */
module CatalogMirror {
  import opened CatalogTypes
  import opened SessionRepository
  import opened Wrappers

  /** A session as the Agent Host describes it; a time is None when it cannot be parsed. */
  datatype HostSummary = HostSummary(
    resource: string, provider: string, title: string, status: int,
    activity: Option<string>, workingDirectory: Option<string>, changes: Option<Changes>,
    createdAt: Option<int>, modifiedAt: Option<int>)

  datatype SummaryChanges = SummaryChanges(
    provider: Option<string>, title: Option<string>, status: Option<int>,
    activity: Option<string>, workingDirectory: Option<string>,
    modifiedAt: Option<Option<int>>, changes: Option<Changes>)

  datatype Event =
    | SessionAdded(summary: HostSummary)
    | SessionRemoved(session: string)
    | SummaryChanged(session: string, changes: SummaryChanges)
    | OtherEvent

  type Known = map<string, Summary>

  /** Conversion to an unsigned 32-bit integer. */
  function Uint32(status: int): int {
    status % 0x1_0000_0000
  }

  function GetOr<T>(value: Option<T>, default: T): T {
    if value.Some? then value.value else default
  }

  function CatalogSummary(workspaceId: string, s: HostSummary, observedAt: int): Option<Summary> {
    if s.createdAt.None? || s.modifiedAt.None? then None
    else
      Some(Summary(workspaceId, s.resource, s.provider, s.title, Uint32(s.status), GetOr(s.activity, ""),
                   GetOr(s.workingDirectory, ""), s.changes, s.createdAt.value, s.modifiedAt.value, observedAt))
  }

  /** None as soon as one listed session cannot be converted. */
  function CatalogSummaries(workspaceId: string, listed: seq<HostSummary>, observedAt: int): (items: Option<seq<Summary>>)
    ensures items.Some? ==> forall item :: item in items.value ==> item.workspaceId == workspaceId
  {
    if listed == [] then Some([])
    else
      var front := CatalogSummaries(workspaceId, listed[..|listed| - 1], observedAt);
      var last := CatalogSummary(workspaceId, listed[|listed| - 1], observedAt);
      if front.None? || last.None? then None else Some(front.value + [last.value])
  }

  /** Absent fields and unparsable times leave the item as it was. */
  function Changed(item: Summary, changes: SummaryChanges): Summary {
    item.(provider := GetOr(changes.provider, item.provider),
    title := GetOr(changes.title, item.title),
    status := if changes.status.Some? then Uint32(changes.status.value) else item.status,
    activity := GetOr(changes.activity, item.activity),
    workingDirectory := GetOr(changes.workingDirectory, item.workingDirectory),
    modifiedAt := GetOr(GetOr(changes.modifiedAt, None), item.modifiedAt),
    changes := if changes.changes.Some? then changes.changes else item.changes)
  }

  function KnownOf(items: seq<Summary>): Known {
    if items == [] then map[]
    else
      var last := items[|items| - 1];
      KnownOf(items[..|items| - 1])[last.resource := last]
  }

  /** The rows of the workspace are the known sessions, as the table stores them. */
  ghost predicate Mirrors(table: Table, workspaceId: string, known: Known) {
    && (forall r :: r in known ==> KeyIn(known[r]) == RowKey(workspaceId, r))
    && (forall r :: r in known <==> RowKey(workspaceId, r) in table)
    && forall r :: r in known ==> FromRow(table[RowKey(workspaceId, r)]) == Stored(known[r])
  }

  ghost predicate SameOthers(before: Table, after: Table, workspaceId: string) {
    forall k: RowKey :: k.workspaceId != workspaceId ==>
                          (k in before <==> k in after) && (k in before ==> before[k] == after[k])
  }

  ghost predicate SameRows(before: Table, after: Table, workspaceId: string) {
    forall r :: var k := RowKey(workspaceId, r);
                (k in before <==> k in after) && (k in before ==> before[k] == after[k])
  }

  // ----- What handling an event does to the known sessions and to the table

  function KnownAfter(known: Known, workspaceId: string, event: Event, now: int): Option<Known> {
    match event
    case SessionAdded(summary) =>
      var item := CatalogSummary(workspaceId, summary, now);
      if item.None? then None else Some(known[item.value.resource := item.value])
    case SessionRemoved(session) => Some(known - {session})
    case SummaryChanged(session, changes) =>
      if session !in known then Some(known)
      else Some(known[session := Changed(known[session], changes).(observedAt := now)])
    case OtherEvent => Some(known)
  }

  function TableAfter(table: Table, known: Known, workspaceId: string, event: Event, now: int): Table {
    match event
    case SessionAdded(summary) =>
      var item := CatalogSummary(workspaceId, summary, now);
      if item.None? then table else table[KeyIn(item.value) := ToRow(item.value)]
    case SessionRemoved(session) => table - {RowKey(workspaceId, session)}
    case SummaryChanged(session, changes) =>
      if session !in known then table
      else
        var item := Changed(known[session], changes).(observedAt := now);
        table[KeyIn(item) := ToRow(item)]
    case OtherEvent => table
  }

  class CatalogSync {
    const workspaceId: string
    const repository: Repository
    var known: Known

    constructor (workspaceId: string, repository: Repository)
      ensures this.workspaceId == workspaceId && this.repository == repository && known == map[]
    {
      this.workspaceId, this.repository, known := workspaceId, repository, map[];
    }

    /** The initial listing. `current` tells whether this connection still serves the workspace. */
    method Start(listed: seq<HostSummary>, current: bool, observedAt: int) returns (ok: bool)
      requires repository.Valid()
      modifies this`known, repository
      ensures repository.Valid()
      ensures ok ==> current && CatalogSummaries(workspaceId, listed, observedAt).Some?
      ensures ok ==> var items := CatalogSummaries(workspaceId, listed, observedAt).value;
                     known == KnownOf(items) && repository.table == Replaced(old(repository.table), workspaceId, items)
      ensures ok ==> Mirrors(repository.table, workspaceId, known)
      ensures !ok ==> repository.table == old(repository.table)
      ensures SameOthers(old(repository.table), repository.table, workspaceId)
    {
      known := map[];
      var items: seq<Summary> := [];
      for i := 0 to |listed|
        invariant repository.table == old(repository.table) && repository.Valid()
        invariant known == KnownOf(items) && CatalogSummaries(workspaceId, listed[..i], observedAt) == Some(items)
      {
        assert listed[..i + 1][..i] == listed[..i];
        var item := CatalogSummary(workspaceId, listed[i], observedAt);
        if item.None? {
          return false;
        }
        known := known[item.value.resource := item.value];
        assert (items + [item.value])[..|items|] == items;
        items := items + [item.value];
      }
      assert listed[..|listed|] == listed;
      if !current {
        return false;
      }
      ReplaceMirrors(repository.table, workspaceId, items);
      ok := repository.ReplaceWorkspace(workspaceId, items);
    }

    method ApplyEvent(event: Event, current: bool, now: int) returns (ok: bool)
      requires repository.Valid() && Mirrors(repository.table, workspaceId, known)
      modifies this`known, repository
      ensures repository.Valid()
      ensures ok ==> Some(known) == KnownAfter(old(known), workspaceId, event, now)
                     && repository.table == TableAfter(old(repository.table), old(known), workspaceId, event, now)
                     && Mirrors(repository.table, workspaceId, known)
      ensures !ok ==> repository.table == old(repository.table)
      ensures SameOthers(old(repository.table), repository.table, workspaceId)
      ensures !current || KnownAfter(old(known), workspaceId, event, now).None? ==> !ok
    {
      if !current {
        return false;
      }
      match event {
        case SessionAdded(summary) =>
          var item := CatalogSummary(workspaceId, summary, now);
          if item.None? {
            return false;
          }
          known := known[item.value.resource := item.value];
          ok := repository.Upsert(item.value);
        case SessionRemoved(session) =>
          known := known - {session};
          ok := repository.Remove(workspaceId, session);
        case SummaryChanged(session, changes) =>
          if session !in known {
            return true;
          }
          var item := Changed(known[session], changes).(observedAt := now);
          known := known[session := item];
          ok := repository.Upsert(item);
        case OtherEvent =>
          ok := true;
      }
      EventKeepsMirror(old(repository.table), old(known), workspaceId, event, now);
    }
  }

  /** `after` is `before` with the known sessions written over it. */
  ghost predicate Overlaid(before: Table, after: Table, workspaceId: string, known: Known) {
    && (forall r :: r in known ==> KeyIn(known[r]) == RowKey(workspaceId, r))
    && (forall r :: r in known ==> RowKey(workspaceId, r) in after && after[RowKey(workspaceId, r)] == ToRow(known[r]))
    && (forall k: RowKey :: !(k.workspaceId == workspaceId && k.resource in known) ==>
                              (k in before <==> k in after) && (k in before ==> before[k] == after[k]))
  }

  lemma OverlayOne(before: Table, after: Table, workspaceId: string, known: Known, item: Summary)
    requires Overlaid(before, after, workspaceId, known) && item.workspaceId == workspaceId
    ensures Overlaid(before, after[KeyIn(item) := ToRow(item)], workspaceId, known[item.resource := item])
  {
  }

  lemma {:induction false} UpsertAllOverlays(table: Table, workspaceId: string, items: seq<Summary>)
    requires forall item :: item in items ==> item.workspaceId == workspaceId
    ensures Overlaid(table, UpsertAll(table, items), workspaceId, KnownOf(items))
  {
    if items != [] {
      var front, last := items[..|items| - 1], items[|items| - 1];
      UpsertAllOverlays(table, workspaceId, front);
      OverlayOne(table, UpsertAll(table, front), workspaceId, KnownOf(front), last);
    }
  }

  lemma {:induction false} KnownKeys(items: seq<Summary>)
    ensures KnownOf(items).Keys == set item | item in items :: item.resource
  {
    if items != [] {
      var front, last := items[..|items| - 1], items[|items| - 1];
      KnownKeys(front);
      assert items == front + [last];
    }
  }

  /** Replacing a workspace makes its rows the listed sessions, the last of a repeated resource,
      and touches no other workspace. */
  lemma ReplaceMirrors(table: Table, workspaceId: string, items: seq<Summary>)
    requires forall item :: item in items ==> item.workspaceId == workspaceId
    ensures Mirrors(Replaced(table, workspaceId, items), workspaceId, KnownOf(items))
    ensures SameOthers(table, Replaced(table, workspaceId, items), workspaceId)
  {
    UpsertAllOverlays(table, workspaceId, items);
    KnownKeys(items);
    StoredRoundTrip(KnownOf(items));
  }

  lemma StoredRoundTrip(known: Known)
    ensures forall r :: r in known ==> FromRow(ToRow(known[r])) == Stored(known[r])
  {
    forall r | r in known
      ensures FromRow(ToRow(known[r])) == Stored(known[r])
    {
      RowRoundTrip(known[r]);
    }
  }

  lemma PutKeepsMirror(table: Table, known: Known, workspaceId: string, item: Summary)
    requires Mirrors(table, workspaceId, known) && item.workspaceId == workspaceId
    ensures Mirrors(table[KeyIn(item) := ToRow(item)], workspaceId, known[item.resource := item])
    ensures SameOthers(table, table[KeyIn(item) := ToRow(item)], workspaceId)
  {
    RowRoundTrip(item);
  }

  lemma DropKeepsMirror(table: Table, known: Known, workspaceId: string, session: string)
    requires Mirrors(table, workspaceId, known)
    ensures Mirrors(table - {RowKey(workspaceId, session)}, workspaceId, known - {session})
    ensures SameOthers(table, table - {RowKey(workspaceId, session)}, workspaceId)
  {
  }

  lemma EventKeepsMirror(table: Table, known: Known, workspaceId: string, event: Event, now: int)
    requires Mirrors(table, workspaceId, known)
    requires KnownAfter(known, workspaceId, event, now).Some?
    ensures Mirrors(TableAfter(table, known, workspaceId, event, now), workspaceId,
                    KnownAfter(known, workspaceId, event, now).value)
    ensures SameOthers(table, TableAfter(table, known, workspaceId, event, now), workspaceId)
  {
    match event
    case SessionAdded(summary) =>
      PutKeepsMirror(table, known, workspaceId, CatalogSummary(workspaceId, summary, now).value);
    case SessionRemoved(session) =>
      DropKeepsMirror(table, known, workspaceId, session);
    case SummaryChanged(session, changes) =>
      if session in known {
        PutKeepsMirror(table, known, workspaceId, Changed(known[session], changes).(observedAt := now));
      }
    case OtherEvent =>
  }

  // ----- Whole runs

  /** A run handles events of this workspace between writes that other workspaces' loops make. */
  datatype Step = Handle(event: Event, now: int) | ForeignWrites(table: Table)

  datatype State = State(table: Table, known: Known)

  ghost predicate CanStep(s: State, workspaceId: string, step: Step) {
    match step
    case Handle(event, now) => KnownAfter(s.known, workspaceId, event, now).Some?
    case ForeignWrites(table) => SameRows(s.table, table, workspaceId)
  }

  ghost function Next(s: State, workspaceId: string, step: Step): State
    requires CanStep(s, workspaceId, step)
  {
    match step
    case Handle(event, now) =>
      State(TableAfter(s.table, s.known, workspaceId, event, now), KnownAfter(s.known, workspaceId, event, now).value)
    case ForeignWrites(table) => s.(table := table)
  }

  ghost predicate IsRun(states: seq<State>, steps: seq<Step>, workspaceId: string) {
    && |states| == |steps| + 1
    && forall i :: 0 <= i < |steps| ==> CanStep(states[i], workspaceId, steps[i])
                                        && states[i + 1] == Next(states[i], workspaceId, steps[i])
  }

  /** From the initial replacement on, in every state of every run, the stored rows of the workspace
      are the known sessions. */
  lemma {:induction false} RunMirrors(table: Table, items: seq<Summary>, states: seq<State>, steps: seq<Step>, workspaceId: string, n: nat)
    requires forall item :: item in items ==> item.workspaceId == workspaceId
    requires IsRun(states, steps, workspaceId) && n <= |steps|
    requires states[0] == State(Replaced(table, workspaceId, items), KnownOf(items))
    ensures Mirrors(states[n].table, workspaceId, states[n].known)
  {
    if n == 0 {
      ReplaceMirrors(table, workspaceId, items);
    } else {
      RunMirrors(table, items, states, steps, workspaceId, n - 1);
      assert CanStep(states[n - 1], workspaceId, steps[n - 1])
             && states[n - 1 + 1] == Next(states[n - 1], workspaceId, steps[n - 1]);
      if steps[n - 1].Handle? {
        EventKeepsMirror(states[n - 1].table, states[n - 1].known, workspaceId, steps[n - 1].event, steps[n - 1].now);
      }
    }
  }
}
