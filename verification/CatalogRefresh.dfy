/** Overlapping refreshes of the session catalog
    (packages/workbench/src/contrib/sessions/session-catalog-service.ts). */
module CatalogService {
  datatype Item = Item(workspace: string, resource: string, provider: string, title: string, online: bool)

  datatype Connection = Connected | Offline

  /** The items of one provider, or of all the others. */
  function Filter(items: seq<Item>, provider: string, own: bool): seq<Item> {
    if items == [] then []
    else
      var front, last := Filter(items[..|items| - 1], provider, own), items[|items| - 1];
      if (last.provider == provider) == own then front + [last] else front
  }

  function Resources(items: seq<Item>, workspace: string): seq<string> {
    if items == [] then []
    else
      var front, last := Resources(items[..|items| - 1], workspace), items[|items| - 1];
      if last.workspace == workspace then front + [last.resource] else front
  }

  ghost predicate HasItem(items: seq<Item>, workspace: string) {
    exists i :: 0 <= i < |items| && items[i].workspace == workspace
  }

  ghost predicate HasOfflineItem(items: seq<Item>, workspace: string) {
    exists i :: 0 <= i < |items| && items[i].workspace == workspace && !items[i].online
  }

  /** The sessions of every workspace in the order of the items. */
  ghost predicate SessionsAre(sessions: map<string, seq<string>>, items: seq<Item>) {
    forall w :: (w in sessions <==> HasItem(items, w)) && (w in sessions ==> sessions[w] == Resources(items, w))
  }

  /** A workspace is offline as soon as one of its sessions says so. */
  ghost predicate ConnectionsAre(connections: map<string, Connection>, items: seq<Item>) {
    forall w :: (w in connections <==> HasItem(items, w)) && (w in connections ==> (connections[w].Offline? <==> HasOfflineItem(items, w)))
  }

  /** A session across workspaces; two different ones never share an identity key. */
  datatype Identity = Identity(workspace: string, resource: string)

  function IdentityOf(item: Item): Identity {
    Identity(item.workspace, item.resource)
  }

  ghost predicate LastNamed(items: seq<Item>, i: int, id: Identity) {
    0 <= i < |items| && IdentityOf(items[i]) == id && forall j :: i < j < |items| ==> IdentityOf(items[j]) != id
  }

  /** A session's title is that of its last item. */
  ghost predicate TitlesAre(titles: map<Identity, string>, items: seq<Item>) {
    && (forall i, id :: LastNamed(items, i, id) ==> id in titles && titles[id] == items[i].title)
    && (forall id :: id in titles ==> exists i :: LastNamed(items, i, id))
  }

  class SessionCatalogService {
    var items: seq<Item>
    var sessions: map<string, seq<string>>
    var titles: map<Identity, string>
    var connections: map<string, Connection>
    var refreshSerial: nat
    var latestAll: nat
    var latestProvider: map<string, nat>

    constructor ()
      ensures items == [] && refreshSerial == 0 && latestAll == 0 && latestProvider == map[]
    {
      items, sessions, titles, connections := [], map[], map[], map[];
      refreshSerial, latestAll, latestProvider := 0, 0, map[];
    }

    /** Replaces the items and everything derived from them. */
    method Apply(newItems: seq<Item>)
      modifies this`items, this`sessions, this`titles, this`connections
      ensures items == newItems && SessionsAre(sessions, newItems)
      ensures TitlesAre(titles, newItems) && ConnectionsAre(connections, newItems)
    {
      var newSessions: map<string, seq<string>> := map[];
      var newTitles: map<Identity, string> := map[];
      var newConnections: map<string, Connection> := map[];
      for i := 0 to |newItems|
        invariant SessionsAre(newSessions, newItems[..i])
        invariant TitlesAre(newTitles, newItems[..i])
        invariant ConnectionsAre(newConnections, newItems[..i])
      {
        var item := newItems[i];
        ghost var seen := newItems[..i];
        assert newItems[..i + 1] == seen + [item];
        SessionsNext(newSessions, seen, item);
        TitlesNext(newTitles, seen, item);
        ConnectionsNext(newConnections, seen, item);
        newSessions := newSessions[item.workspace := (if item.workspace in newSessions then newSessions[item.workspace] else []) + [item.resource]];
        newTitles := newTitles[IdentityOf(item) := item.title];
        if item.online && item.workspace !in newConnections {
          newConnections := newConnections[item.workspace := Connected];
        }
        if !item.online {
          newConnections := newConnections[item.workspace := Offline];
        }
      }
      assert newItems[..|newItems|] == newItems;
      items, sessions, titles, connections := newItems, newSessions, newTitles, newConnections;
    }

    method ItemsOf(all: seq<Item>, provider: string, own: bool) returns (result: seq<Item>)
      ensures result == Filter(all, provider, own)
    {
      result := [];
      for i := 0 to |all|
        invariant result == Filter(all[..i], provider, own)
      {
        if (all[i].provider == provider) == own {
          result := result + [all[i]];
        }
        assert all[..i + 1][..i] == all[..i];
      }
      assert all[..|all|] == all;
    }

    method ApplyProvider(provider: string, response: seq<Item>)
      modifies this`items, this`sessions, this`titles, this`connections
      ensures items == Filter(old(items), provider, false) + Filter(response, provider, true)
    {
      var others := ItemsOf(items, provider, false);
      var own := ItemsOf(response, provider, true);
      Apply(others + own);
    }

    method BeginAll() returns (serial: nat)
      modifies this`refreshSerial, this`latestAll
      ensures serial == old(refreshSerial) + 1 == refreshSerial == latestAll
    {
      refreshSerial := refreshSerial + 1;
      serial := refreshSerial;
      latestAll := serial;
    }

    method FinishAll(serial: nat, response: seq<Item>) returns (applied: bool)
      modifies this`items, this`sessions, this`titles, this`connections
      ensures applied == (latestAll == serial && forall p :: p in latestProvider ==> latestProvider[p] <= serial)
      ensures items == if applied then response else old(items)
    {
      if latestAll != serial || exists p :: p in latestProvider && latestProvider[p] > serial {
        return false;
      }
      Apply(response);
      return true;
    }

    method BeginProvider(provider: string) returns (serial: nat)
      modifies this`refreshSerial, this`latestProvider
      ensures serial == old(refreshSerial) + 1 == refreshSerial && latestProvider == old(latestProvider)[provider := serial]
    {
      refreshSerial := refreshSerial + 1;
      serial := refreshSerial;
      latestProvider := latestProvider[provider := serial];
    }

    method FinishProvider(provider: string, serial: nat, response: seq<Item>) returns (applied: bool)
      requires provider in latestProvider
      modifies this`items, this`sessions, this`titles, this`connections
      ensures applied == (latestProvider[provider] == serial && latestAll <= serial)
      ensures items == if applied then Filter(old(items), provider, false) + Filter(response, provider, true) else old(items)
    {
      if latestProvider[provider] != serial || latestAll > serial {
        return false;
      }
      var own := ItemsOf(response, provider, true);
      ApplyProvider(provider, own);
      FilterTwice(response, provider);
      return true;
    }
  }

  lemma ItemsNext(items: seq<Item>, item: Item)
    ensures forall w :: HasItem(items + [item], w) <==> HasItem(items, w) || w == item.workspace
    ensures forall w :: HasOfflineItem(items + [item], w) <==> HasOfflineItem(items, w) || (w == item.workspace && !item.online)
    ensures forall w :: Resources(items + [item], w) == Resources(items, w) + if w == item.workspace then [item.resource] else []
    ensures forall w :: !HasItem(items, w) ==> Resources(items, w) == []
  {
    var all := items + [item];
    assert all[..|items|] == items && all[|items|] == item;
    forall w
      ensures HasItem(all, w) <==> HasItem(items, w) || w == item.workspace
      ensures HasOfflineItem(all, w) <==> HasOfflineItem(items, w) || (w == item.workspace && !item.online)
    {
      assert forall i :: 0 <= i < |items| ==> all[i] == items[i];
    }
    forall w | !HasItem(items, w)
      ensures Resources(items, w) == []
    {
      NoResources(items, w);
    }
  }

  lemma SessionsNext(sessions: map<string, seq<string>>, items: seq<Item>, item: Item)
    requires SessionsAre(sessions, items)
    ensures var w := item.workspace;
            SessionsAre(sessions[w := (if w in sessions then sessions[w] else []) + [item.resource]], items + [item])
  {
    ItemsNext(items, item);
    assert forall w :: Resources(items, w) + [] == Resources(items, w);
  }

  lemma LastNamedNext(items: seq<Item>, item: Item, i: int, id: Identity)
    ensures LastNamed(items + [item], i, id)
       <==> if id == IdentityOf(item) then i == |items| else LastNamed(items, i, id)
  {
    var all := items + [item];
    assert all[|items|] == item && forall j :: 0 <= j < |items| ==> all[j] == items[j];
  }

  lemma TitlesNext(titles: map<Identity, string>, items: seq<Item>, item: Item)
    requires TitlesAre(titles, items)
    ensures TitlesAre(titles[IdentityOf(item) := item.title], items + [item])
  {
    var titles', all := titles[IdentityOf(item) := item.title], items + [item];
    forall i, id | LastNamed(all, i, id)
      ensures id in titles' && titles'[id] == all[i].title
    {
      LastNamedNext(items, item, i, id);
    }
    forall id | id in titles'
      ensures exists i :: LastNamed(all, i, id)
    {
      if id == IdentityOf(item) {
        LastNamedNext(items, item, |items|, id);
      } else {
        var i :| LastNamed(items, i, id);
        LastNamedNext(items, item, i, id);
      }
    }
  }

  lemma ConnectionsNext(connections: map<string, Connection>, items: seq<Item>, item: Item)
    requires ConnectionsAre(connections, items)
    ensures var w := item.workspace;
            var c := if item.online && w !in connections then connections[w := Connected] else connections;
            ConnectionsAre(if !item.online then c[w := Offline] else c, items + [item])
  {
    ItemsNext(items, item);
    assert HasOfflineItem(items, item.workspace) ==> HasItem(items, item.workspace);
  }

  lemma {:induction false} NoResources(items: seq<Item>, workspace: string)
    requires !HasItem(items, workspace)
    ensures Resources(items, workspace) == []
  {
    if items != [] {
      var front := items[..|items| - 1];
      assert forall i :: 0 <= i < |front| ==> front[i] == items[i];
      NoResources(front, workspace);
    }
  }

  lemma {:induction false} FilterConcat(a: seq<Item>, b: seq<Item>, provider: string, own: bool)
    ensures Filter(a + b, provider, own) == Filter(a, provider, own) + Filter(b, provider, own)
  {
    if b == [] {
      assert a + b == a;
    } else {
      assert (a + b)[..|a + b| - 1] == a + b[..|b| - 1];
      FilterConcat(a, b[..|b| - 1], provider, own);
    }
  }

  lemma {:induction false} FilterTwice(items: seq<Item>, provider: string)
    ensures Filter(Filter(items, provider, true), provider, true) == Filter(items, provider, true)
    ensures Filter(Filter(items, provider, false), provider, true) == []
  {
    if items != [] {
      var front, last := items[..|items| - 1], items[|items| - 1];
      FilterTwice(front, provider);
      FilterConcat(Filter(front, provider, true), [last], provider, true);
      FilterConcat(Filter(front, provider, false), [last], provider, true);
      assert Filter([last], provider, true) == if last.provider == provider then [last] else [] by {
        assert [last][..0] == [];
      }
    }
  }

  lemma {:induction false} FilterOther(items: seq<Item>, provider: string, other: string)
    requires other != provider
    ensures Filter(Filter(items, provider, false), other, true) == Filter(items, other, true)
    ensures Filter(Filter(items, provider, true), other, true) == []
  {
    if items != [] {
      var front, last := items[..|items| - 1], items[|items| - 1];
      FilterOther(front, provider, other);
      FilterConcat(Filter(front, provider, false), [last], other, true);
      FilterConcat(Filter(front, provider, true), [last], other, true);
      assert Filter([last], other, true) == if last.provider == other then [last] else [] by {
        assert [last][..0] == [];
      }
    }
  }
}

/** Every order in which overlapping refreshes can complete. */
module RefreshRuns {
  import opened CatalogService

  datatype Request = All(serial: nat) | One(provider: string, serial: nat)

  /** A response that was put in place. */
  datatype Applied = Applied(request: Request, response: seq<Item>)

  datatype System = System(
    items: seq<Item>, refreshSerial: nat, latestAll: nat, latestProvider: map<string, nat>,
    pending: set<Request>, applied: seq<Applied>)

  datatype Step =
    | StartsAll
    | StartsOne(provider: string)
    | Completes(request: Request, response: seq<Item>)
    | Fails(request: Request)

  predicate IsLatest(s: System, request: Request) {
    match request
    case All(serial) => s.latestAll == serial && forall p :: p in s.latestProvider ==> s.latestProvider[p] <= serial
    case One(provider, serial) => provider in s.latestProvider && s.latestProvider[provider] == serial && s.latestAll <= serial
  }

  function After(items: seq<Item>, request: Request, response: seq<Item>): seq<Item> {
    match request
    case All(_) => response
    case One(provider, _) => Filter(items, provider, false) + Filter(response, provider, true)
  }

  ghost predicate Next(s: System, step: Step, s': System) {
    match step
    case StartsAll =>
      var serial := s.refreshSerial + 1;
      s' == s.(refreshSerial := serial, latestAll := serial, pending := s.pending + {All(serial)})
    case StartsOne(provider) =>
      var serial := s.refreshSerial + 1;
      s' == s.(refreshSerial := serial, latestProvider := s.latestProvider[provider := serial], pending := s.pending + {One(provider, serial)})
    case Completes(request, response) =>
      request in s.pending
      && s' == if IsLatest(s, request)
               then s.(pending := s.pending - {request}, items := After(s.items, request, response), applied := s.applied + [Applied(request, response)])
               else s.(pending := s.pending - {request})
    case Fails(request) => request in s.pending && s' == s.(pending := s.pending - {request})
  }

  const START := System([], 0, 0, map[], {}, [])

  ghost predicate IsRun(states: seq<System>, steps: seq<Step>) {
    |states| == |steps| + 1 && states[0] == START
    && forall i :: 0 <= i < |steps| ==> Next(states[i], steps[i], states[i + 1])
  }

  // ----- What one provider sees

  predicate Touches(request: Request, provider: string) {
    request.All? || request.provider == provider
  }

  /** The applied responses that decide what a provider shows. */
  function For(applied: seq<Applied>, provider: string): seq<Applied> {
    if applied == [] then []
    else
      var front, last := For(applied[..|applied| - 1], provider), applied[|applied| - 1];
      if Touches(last.request, provider) then front + [last] else front
  }

  predicate Increasing(applied: seq<Applied>) {
    forall i, j :: 0 <= i < j < |applied| ==> applied[i].request.serial < applied[j].request.serial
  }

  /** What the last response applied for a provider says about it. */
  function Latest(applied: seq<Applied>, provider: string): seq<Item> {
    var own := For(applied, provider);
    if own == [] then [] else Filter(own[|own| - 1].response, provider, true)
  }

  predicate Known(s: System, request: Request) {
    match request
    case All(serial) => serial <= s.latestAll
    case One(provider, serial) => provider in s.latestProvider && serial <= s.latestProvider[provider]
  }

  ghost predicate Inv(s: System) {
    && s.latestAll <= s.refreshSerial && (forall p :: p in s.latestProvider ==> s.latestProvider[p] <= s.refreshSerial)
    && (forall r :: r in s.pending ==> Known(s, r))
    && (forall a :: a in s.applied ==> Known(s, a.request))
    && (forall q, r :: q in s.pending && r in s.pending && q.serial == r.serial ==> q == r)
    && (forall r, a :: r in s.pending && a in s.applied ==> a.request.serial != r.serial)
    && (forall p :: Increasing(For(s.applied, p)) && Filter(s.items, p, true) == Latest(s.applied, p))
  }

  lemma {:induction false} ForMembers(applied: seq<Applied>, provider: string, a: Applied)
    ensures a in For(applied, provider) <==> a in applied && Touches(a.request, provider)
  {
    if applied != [] {
      ForMembers(applied[..|applied| - 1], provider, a);
      assert applied == applied[..|applied| - 1] + [applied[|applied| - 1]];
    }
  }

  /** Whatever was asked for so far is older than the next serial. */
  lemma SerialsAreUsed(s: System)
    requires Inv(s)
    ensures forall r :: r in s.pending ==> r.serial <= s.refreshSerial
    ensures forall a :: a in s.applied ==> a.request.serial <= s.refreshSerial
  {
    forall r | r in s.pending
      ensures r.serial <= s.refreshSerial
    {
      assert Known(s, r);
    }
    forall a | a in s.applied
      ensures a.request.serial <= s.refreshSerial
    {
      assert Known(s, a.request);
    }
  }

  lemma KnownStays(s: System, s': System, request: Request)
    requires Known(s, request) && s'.latestAll >= s.latestAll
    requires forall p :: p in s.latestProvider ==> p in s'.latestProvider && s'.latestProvider[p] >= s.latestProvider[p]
    ensures Known(s', request)
  {
  }

  lemma StartsKeeps(s: System, step: Step, s': System)
    requires Inv(s) && Next(s, step, s') && (step.StartsAll? || step.StartsOne?)
    ensures Inv(s')
  {
    SerialsAreUsed(s);
    forall r | r in s'.pending
      ensures Known(s', r)
    {
      if r in s.pending {
        KnownStays(s, s', r);
      }
    }
    forall a | a in s'.applied
      ensures Known(s', a.request)
    {
      KnownStays(s, s', a.request);
    }
  }

  lemma FailsKeeps(s: System, request: Request, s': System)
    requires Inv(s) && s' == s.(pending := s.pending - {request})
    ensures Inv(s')
  {
  }

  /** The newest request for a provider is newer than everything applied for it. */
  lemma NewerThanApplied(s: System, request: Request, provider: string, a: Applied)
    requires Inv(s) && request in s.pending && IsLatest(s, request) && Touches(request, provider) && a in For(s.applied, provider)
    ensures a.request.serial < request.serial
  {
    ForMembers(s.applied, provider, a);
    assert Known(s, a.request);
  }

  lemma AppliedKeepsProvider(s: System, request: Request, response: seq<Item>, s': System, provider: string)
    requires Inv(s) && Next(s, Completes(request, response), s') && IsLatest(s, request)
    ensures Increasing(For(s'.applied, provider)) && Filter(s'.items, provider, true) == Latest(s'.applied, provider)
  {
    var last := Applied(request, response);
    assert s'.applied[..|s.applied|] == s.applied;
    if Touches(request, provider) {
      forall a | a in For(s.applied, provider)
        ensures a.request.serial < request.serial
      {
        NewerThanApplied(s, request, provider, a);
      }
      assert For(s'.applied, provider) == For(s.applied, provider) + [last];
    }
    if request.One? {
      FilterConcat(Filter(s.items, request.provider, false), Filter(response, request.provider, true), provider, true);
      if provider == request.provider {
        FilterTwice(s.items, provider);
        FilterTwice(response, provider);
      } else {
        FilterOther(s.items, request.provider, provider);
        FilterOther(response, request.provider, provider);
      }
    }
  }

  lemma CompletesKeeps(s: System, request: Request, response: seq<Item>, s': System)
    requires Inv(s) && Next(s, Completes(request, response), s')
    ensures Inv(s')
  {
    if IsLatest(s, request) {
      forall p
        ensures Increasing(For(s'.applied, p)) && Filter(s'.items, p, true) == Latest(s'.applied, p)
      {
        AppliedKeepsProvider(s, request, response, s', p);
      }
    }
  }

  lemma {:induction false} RunKeeps(states: seq<System>, steps: seq<Step>, n: nat)
    requires IsRun(states, steps) && n <= |steps|
    ensures Inv(states[n])
  {
    if n > 0 {
      var k := n - 1;
      assert Next(states[k], steps[k], states[k + 1]);
      RunKeeps(states, steps, k);
      match steps[k]
      case StartsAll => StartsKeeps(states[k], steps[k], states[n]);
      case StartsOne(_) => StartsKeeps(states[k], steps[k], states[n]);
      case Completes(request, response) => CompletesKeeps(states[k], request, response, states[n]);
      case Fails(request) => FailsKeeps(states[k], request, states[n]);
    }
  }

  /** Whatever the order of completion, the responses applied to a provider are applied in the order they were
      asked for, and the provider shows exactly what the last of them says about it. */
  lemma RefreshesNeverGoBack(states: seq<System>, steps: seq<Step>, n: nat, provider: string)
    requires IsRun(states, steps) && n <= |steps|
    ensures Increasing(For(states[n].applied, provider))
    ensures Filter(states[n].items, provider, true) == Latest(states[n].applied, provider)
  {
    RunKeeps(states, steps, n);
  }
}
