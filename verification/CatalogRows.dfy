/** What the rows of a mirrored workspace say, in terms of the sessions the Agent Host listed and reported. */
module CatalogRows {
  import opened CatalogTypes
  import opened SessionRepository
  import opened CatalogMirror
  import opened Wrappers

  /** An event and the time at which it was handled; a listed session is reported as added. */
  datatype Report = Report(event: Event, now: int)

  function Listing(listed: seq<HostSummary>, now: int): seq<Report> {
    seq(|listed|, i requires 0 <= i < |listed| => Report(SessionAdded(listed[i]), now))
  }

  // ----- What the reports say of one session

  /** An added session gives every field that a change can give. */
  function AsChanges(s: HostSummary): SummaryChanges {
    SummaryChanges(Some(s.provider), Some(s.title), Some(s.status), Some(GetOr(s.activity, "")), Some(GetOr(s.workingDirectory, "")),
                   Some(s.modifiedAt), s.changes)
  }

  predicate AddsSession(e: Event, resource: string) {
    e.SessionAdded? && e.summary.resource == resource
  }

  predicate ChangesSession(e: Event, resource: string) {
    e.SummaryChanged? && e.session == resource
  }

  /** What was reported of a session since it was last added; nothing when it was never added or was removed. */
  function Given(reports: seq<Report>, resource: string): seq<SummaryChanges> {
    if reports == [] then []
    else
      var before, e := Given(reports[..|reports| - 1], resource), reports[|reports| - 1].event;
      if AddsSession(e, resource) then [AsChanges(e.summary)]
      else if e == SessionRemoved(resource) then []
      else if ChangesSession(e, resource) && before != [] then before + [e.changes]
      else before
  }

  function LastProvider(given: seq<SummaryChanges>): string {
    if given == [] then ""
    else if given[|given| - 1].provider.Some? then given[|given| - 1].provider.value
    else LastProvider(given[..|given| - 1])
  }

  function LastTitle(given: seq<SummaryChanges>): string {
    if given == [] then ""
    else if given[|given| - 1].title.Some? then given[|given| - 1].title.value
    else LastTitle(given[..|given| - 1])
  }

  function LastActivity(given: seq<SummaryChanges>): string {
    if given == [] then ""
    else if given[|given| - 1].activity.Some? then given[|given| - 1].activity.value
    else LastActivity(given[..|given| - 1])
  }

  function LastWorkingDirectory(given: seq<SummaryChanges>): string {
    if given == [] then ""
    else if given[|given| - 1].workingDirectory.Some? then given[|given| - 1].workingDirectory.value
    else LastWorkingDirectory(given[..|given| - 1])
  }

  /** A status is kept as an unsigned 32-bit number. */
  function LastStatus(given: seq<SummaryChanges>): int {
    if given == [] then 0
    else if given[|given| - 1].status.Some? then given[|given| - 1].status.value % 0x1_0000_0000
    else LastStatus(given[..|given| - 1])
  }

  /** A time that cannot be parsed leaves the one before. */
  function LastModified(given: seq<SummaryChanges>): int {
    if given == [] then 0
    else
      var last := given[|given| - 1].modifiedAt;
      if last.Some? && last.value.Some? then last.value.value else LastModified(given[..|given| - 1])
  }

  function LastChanges(given: seq<SummaryChanges>): Option<Changes> {
    if given == [] then None
    else if given[|given| - 1].changes.Some? then given[|given| - 1].changes
    else LastChanges(given[..|given| - 1])
  }

  function CreatedAt(reports: seq<Report>, resource: string): int {
    if reports == [] then 0
    else
      var e := reports[|reports| - 1].event;
      if AddsSession(e, resource) then GetOr(e.summary.createdAt, 0) else CreatedAt(reports[..|reports| - 1], resource)
  }

  /** When the session was last added or, while it was known, changed. */
  function ObservedAt(reports: seq<Report>, resource: string): int {
    if reports == [] then 0
    else
      var front, last := reports[..|reports| - 1], reports[|reports| - 1];
      if AddsSession(last.event, resource) || (ChangesSession(last.event, resource) && Given(front, resource) != []) then last.now
      else ObservedAt(front, resource)
  }

  /** The session that the reports say. */
  function Reported(workspaceId: string, reports: seq<Report>, resource: string): Summary {
    var given := Given(reports, resource);
    Summary(workspaceId, resource, LastProvider(given), LastTitle(given), LastStatus(given), LastActivity(given),
            LastWorkingDirectory(given), LastChanges(given), CreatedAt(reports, resource), LastModified(given), ObservedAt(reports, resource))
  }

  /** The known sessions are those added and not removed since, as they were reported. */
  ghost predicate KnowsReported(known: Known, workspaceId: string, reports: seq<Report>) {
    forall r :: (r in known <==> Given(reports, r) != []) && (r in known ==> known[r] == Reported(workspaceId, reports, r))
  }

  // ----- Reports are kept

  lemma Next(reports: seq<Report>, more: Report, r: string)
    ensures var all, e := reports + [more], more.event;
            && Given(all, r)
               == (if AddsSession(e, r) then [AsChanges(e.summary)] else if e == SessionRemoved(r) then []
                   else if ChangesSession(e, r) && Given(reports, r) != [] then Given(reports, r) + [e.changes] else Given(reports, r))
            && CreatedAt(all, r) == (if AddsSession(e, r) then GetOr(e.summary.createdAt, 0) else CreatedAt(reports, r))
            && ObservedAt(all, r)
               == (if AddsSession(e, r) || (ChangesSession(e, r) && Given(reports, r) != []) then more.now else ObservedAt(reports, r))
  {
    assert (reports + [more])[..|reports|] == reports;
  }

  lemma LastsNext(given: seq<SummaryChanges>, c: SummaryChanges)
    ensures var all := given + [c];
            && LastProvider(all) == GetOr(c.provider, LastProvider(given)) && LastTitle(all) == GetOr(c.title, LastTitle(given))
            && LastActivity(all) == GetOr(c.activity, LastActivity(given))
            && LastWorkingDirectory(all) == GetOr(c.workingDirectory, LastWorkingDirectory(given))
            && LastStatus(all) == (if c.status.Some? then Uint32(c.status.value) else LastStatus(given))
            && LastModified(all) == GetOr(GetOr(c.modifiedAt, None), LastModified(given))
            && LastChanges(all) == (if c.changes.Some? then c.changes else LastChanges(given))
  {
    assert (given + [c])[..|given|] == given;
  }

  lemma AddedIsReported(workspaceId: string, reports: seq<Report>, s: HostSummary, now: int)
    requires s.createdAt.Some? && s.modifiedAt.Some?
    ensures CatalogSummary(workspaceId, s, now) == Some(Reported(workspaceId, reports + [Report(SessionAdded(s), now)], s.resource))
  {
    var none: seq<SummaryChanges> := [];
    Next(reports, Report(SessionAdded(s), now), s.resource);
    LastsNext(none, AsChanges(s));
    assert none + [AsChanges(s)] == [AsChanges(s)];
  }

  lemma ChangedIsReported(workspaceId: string, reports: seq<Report>, r: string, c: SummaryChanges, now: int)
    requires Given(reports, r) != []
    ensures Changed(Reported(workspaceId, reports, r), c).(observedAt := now)
         == Reported(workspaceId, reports + [Report(SummaryChanged(r, c), now)], r)
  {
    Next(reports, Report(SummaryChanged(r, c), now), r);
    LastsNext(Given(reports, r), c);
  }

  lemma OthersStay(workspaceId: string, reports: seq<Report>, more: Report, r: string)
    requires !AddsSession(more.event, r) && !ChangesSession(more.event, r)
    ensures more.event != SessionRemoved(r) ==>
              Given(reports + [more], r) == Given(reports, r) && Reported(workspaceId, reports + [more], r) == Reported(workspaceId, reports, r)
    ensures more.event == SessionRemoved(r) ==> Given(reports + [more], r) == []
  {
    Next(reports, more, r);
  }

  lemma HandledIsReported(known: Known, workspaceId: string, reports: seq<Report>, event: Event, now: int)
    requires KnowsReported(known, workspaceId, reports) && KnownAfter(known, workspaceId, event, now).Some?
    ensures KnowsReported(KnownAfter(known, workspaceId, event, now).value, workspaceId, reports + [Report(event, now)])
  {
    var more := Report(event, now);
    var known' := KnownAfter(known, workspaceId, event, now).value;
    forall r
      ensures r in known' <==> Given(reports + [more], r) != []
      ensures r in known' ==> known'[r] == Reported(workspaceId, reports + [more], r)
    {
      Next(reports, more, r);
      if AddsSession(event, r) {
        AddedIsReported(workspaceId, reports, event.summary, now);
      } else if ChangesSession(event, r) {
        if r in known {
          ChangedIsReported(workspaceId, reports, r, event.changes, now);
        } else {
          assert Given(reports, r) == [];
        }
      } else {
        OthersStay(workspaceId, reports, more, r);
      }
    }
  }

  /** Listing sessions is being told of each of them in turn. */
  lemma {:induction false} ListedIsReported(workspaceId: string, listed: seq<HostSummary>, observedAt: int)
    requires CatalogSummaries(workspaceId, listed, observedAt).Some?
    ensures KnowsReported(KnownOf(CatalogSummaries(workspaceId, listed, observedAt).value), workspaceId, Listing(listed, observedAt))
  {
    if listed != [] {
      var front, last := listed[..|listed| - 1], listed[|listed| - 1];
      ListedIsReported(workspaceId, front, observedAt);
      var items := CatalogSummaries(workspaceId, front, observedAt).value;
      var item := CatalogSummary(workspaceId, last, observedAt).value;
      HandledIsReported(KnownOf(items), workspaceId, Listing(front, observedAt), SessionAdded(last), observedAt);
      assert Listing(listed, observedAt) == Listing(front, observedAt) + [Report(SessionAdded(last), observedAt)];
      assert (items + [item])[..|items|] == items;
    }
  }

  /** Only an added session whose times cannot be parsed is refused. */
  lemma RefusedIffUnparsable(known: Known, workspaceId: string, event: Event, now: int)
    ensures KnownAfter(known, workspaceId, event, now).None?
       <==> event.SessionAdded? && (event.summary.createdAt.None? || event.summary.modifiedAt.None?)
  {
  }

  // ----- Whole runs

  /** The events handled in the steps of a run. */
  function Handled(steps: seq<Step>): seq<Report> {
    if steps == [] then []
    else
      var last := steps[|steps| - 1];
      Handled(steps[..|steps| - 1]) + if last.Handle? then [Report(last.event, last.now)] else []
  }

  lemma {:induction false} RunIsReported(table: Table, listed: seq<HostSummary>, observedAt: int, states: seq<State>, steps: seq<Step>,
                                         workspaceId: string, n: nat)
    requires CatalogSummaries(workspaceId, listed, observedAt).Some? && IsRun(states, steps, workspaceId) && n <= |steps|
    requires var items := CatalogSummaries(workspaceId, listed, observedAt).value;
             states[0] == State(Replaced(table, workspaceId, items), KnownOf(items))
    ensures KnowsReported(states[n].known, workspaceId, Listing(listed, observedAt) + Handled(steps[..n]))
  {
    var listing := Listing(listed, observedAt);
    if n == 0 {
      ListedIsReported(workspaceId, listed, observedAt);
      assert listing + Handled(steps[..0]) == listing;
    } else {
      var m: nat := n - 1;
      RunIsReported(table, listed, observedAt, states, steps, workspaceId, m);
      assert steps[..n][..m] == steps[..m];
      assert CanStep(states[m], workspaceId, steps[m]) && states[m + 1] == CatalogMirror.Next(states[m], workspaceId, steps[m]);
      var done := listing + Handled(steps[..m]);
      if steps[m].Handle? {
        HandledIsReported(states[m].known, workspaceId, done, steps[m].event, steps[m].now);
        assert done + [Report(steps[m].event, steps[m].now)] == listing + Handled(steps[..n]);
      } else {
        assert listing + Handled(steps[..n]) == done;
      }
    }
  }

  /** In every state of every run the workspace has a row for exactly the sessions that were listed or added and not removed
      since, and the row says what was last reported of each of its fields. */
  lemma RowsAreReported(table: Table, listed: seq<HostSummary>, observedAt: int, states: seq<State>, steps: seq<Step>,
                        workspaceId: string, n: nat, r: string)
    requires CatalogSummaries(workspaceId, listed, observedAt).Some? && IsRun(states, steps, workspaceId) && n <= |steps|
    requires var items := CatalogSummaries(workspaceId, listed, observedAt).value;
             states[0] == State(Replaced(table, workspaceId, items), KnownOf(items))
    ensures var reports, key := Listing(listed, observedAt) + Handled(steps[..n]), RowKey(workspaceId, r);
            && (key in states[n].table <==> Given(reports, r) != [])
            && (key in states[n].table ==> FromRow(states[n].table[key]) == Stored(Reported(workspaceId, reports, r)))
  {
    RunIsReported(table, listed, observedAt, states, steps, workspaceId, n);
    RunMirrors(table, CatalogSummaries(workspaceId, listed, observedAt).value, states, steps, workspaceId, n);
  }
}
