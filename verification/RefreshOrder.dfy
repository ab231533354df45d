/** Which refreshes of the session catalog are applied, and what a filtered catalog holds. */
module RefreshOrder {
  import opened CatalogService
  import opened RefreshRuns

  // ----- Filtering keeps places

  /** The places of one provider's items, or of all the others', in order. */
  function Places(items: seq<Item>, provider: string, own: bool): seq<nat> {
    if items == [] then []
    else
      var n: nat := |items| - 1;
      Places(items[..n], provider, own)
      + if own then (if items[n].provider == provider then [n] else []) else (if items[n].provider == provider then [] else [n])
  }

  lemma {:induction false} PlaceIs(items: seq<Item>, provider: string, own: bool, i: nat)
    ensures i in Places(items, provider, own) <==> i < |items| && (items[i].provider == provider <==> own)
  {
    if items != [] {
      PlaceIs(items[..|items| - 1], provider, own, i);
    }
  }

  lemma {:induction false} PlacesAscend(items: seq<Item>, provider: string, own: bool)
    ensures forall i, j :: 0 <= i < j < |Places(items, provider, own)| ==> Places(items, provider, own)[i] < Places(items, provider, own)[j]
  {
    if items != [] {
      var front := items[..|items| - 1];
      PlacesAscend(front, provider, own);
      forall i | 0 <= i < |Places(front, provider, own)|
        ensures Places(front, provider, own)[i] < |front|
      {
        PlaceIs(front, provider, own, Places(front, provider, own)[i]);
      }
    }
  }

  ghost predicate TakenFrom(taken: seq<Item>, items: seq<Item>, places: seq<nat>) {
    |taken| == |places| && forall i :: 0 <= i < |places| ==> places[i] < |items| && taken[i] == items[places[i]]
  }

  /** A filter takes exactly the items of the provider, or exactly the others, in their order. */
  lemma {:induction false} FilterTakes(items: seq<Item>, provider: string, own: bool)
    ensures TakenFrom(Filter(items, provider, own), items, Places(items, provider, own))
  {
    if items != [] {
      var front := items[..|items| - 1];
      FilterTakes(front, provider, own);
    }
  }

  /** The sessions of a workspace are the resources of its items, each at least once and no others. */
  lemma {:induction false} ResourcesAre(items: seq<Item>, workspace: string)
    ensures forall r :: r in Resources(items, workspace) <==> exists i :: 0 <= i < |items| && items[i].workspace == workspace && items[i].resource == r
  {
    if items != [] {
      var front, last := items[..|items| - 1], items[|items| - 1];
      ResourcesAre(front, workspace);
      assert items == front + [last];
      forall r
        ensures r in Resources(items, workspace) <==> exists i :: 0 <= i < |items| && items[i].workspace == workspace && items[i].resource == r
      {
        if i :| 0 <= i < |front| && front[i].workspace == workspace && front[i].resource == r {
          assert items[i] == front[i];
        }
        if i :| 0 <= i < |items| && items[i].workspace == workspace && items[i].resource == r {
          assert i < |front| ==> front[i] == items[i];
        }
      }
    }
  }

  ghost predicate Shows(items: seq<Item>, workspace: string, resource: string) {
    exists i :: 0 <= i < |items| && items[i].workspace == workspace && items[i].resource == resource
  }

  ghost predicate ShowsOffline(items: seq<Item>, workspace: string) {
    exists i :: 0 <= i < |items| && items[i].workspace == workspace && !items[i].online
  }

  /** What is derived from the items says: which sessions a workspace has, what a session's last item calls it, and that a
      workspace is offline when one of its sessions is. */
  lemma DerivedSay(items: seq<Item>, sessions: map<string, seq<string>>, titles: map<Identity, string>, connections: map<string, Connection>)
    requires SessionsAre(sessions, items) && TitlesAre(titles, items) && ConnectionsAre(connections, items)
    ensures forall w, r :: w in sessions && r in sessions[w] <==> Shows(items, w, r)
    ensures forall i :: 0 <= i < |items| && (forall j :: i < j < |items| ==> IdentityOf(items[j]) != IdentityOf(items[i])) ==>
                          IdentityOf(items[i]) in titles && titles[IdentityOf(items[i])] == items[i].title
    ensures forall w :: w in connections && connections[w].Offline? <==> ShowsOffline(items, w)
    ensures forall w :: w in connections <==> exists i :: 0 <= i < |items| && items[i].workspace == w
  {
    forall w, r
      ensures w in sessions && r in sessions[w] <==> Shows(items, w, r)
    {
      ResourcesAre(items, w);
      if i :| 0 <= i < |items| && items[i].workspace == w && items[i].resource == r {
        assert HasItem(items, w);
      }
    }
    forall i | 0 <= i < |items| && (forall j :: i < j < |items| ==> IdentityOf(items[j]) != IdentityOf(items[i]))
      ensures LastNamed(items, i, IdentityOf(items[i]))
    {
    }
    forall w
      ensures w in connections && connections[w].Offline? <==> ShowsOffline(items, w)
    {
      if i :| 0 <= i < |items| && items[i].workspace == w && !items[i].online {
        assert HasItem(items, w) && HasOfflineItem(items, w);
      }
    }
    forall w
      ensures w in connections <==> exists i :: 0 <= i < |items| && items[i].workspace == w
    {
      assert HasItem(items, w) <==> exists i :: 0 <= i < |items| && items[i].workspace == w;
    }
  }

  // ----- Newer requests

  predicate StartsFor(step: Step, provider: string) {
    step.StartsOne? && step.provider == provider
  }

  ghost predicate FullAfter(states: seq<System>, steps: seq<Step>, n: nat, serial: nat) {
    exists j :: 0 <= j < n <= |steps| < |states| && steps[j].StartsAll? && states[j].refreshSerial >= serial
  }

  ghost predicate ProviderAfter(states: seq<System>, steps: seq<Step>, n: nat, provider: string, serial: nat) {
    exists j :: 0 <= j < n <= |steps| < |states| && StartsFor(steps[j], provider) && states[j].refreshSerial >= serial
  }

  lemma FullNext(states: seq<System>, steps: seq<Step>, n: nat, serial: nat)
    requires 0 < n <= |steps| < |states|
    ensures FullAfter(states, steps, n, serial)
       <==> FullAfter(states, steps, n - 1, serial) || (steps[n - 1].StartsAll? && states[n - 1].refreshSerial >= serial)
  {
    var m: nat := n - 1;
    assert steps[m] == steps[n - 1];
  }

  lemma ProviderNext(states: seq<System>, steps: seq<Step>, n: nat, provider: string, serial: nat)
    requires 0 < n <= |steps| < |states|
    ensures ProviderAfter(states, steps, n, provider, serial)
       <==> ProviderAfter(states, steps, n - 1, provider, serial) || (StartsFor(steps[n - 1], provider) && states[n - 1].refreshSerial >= serial)
  {
    var m: nat := n - 1;
    assert steps[m] == steps[n - 1];
  }

  function LatestFor(s: System, provider: string): nat {
    if provider in s.latestProvider then s.latestProvider[provider] else 0
  }

  lemma {:induction false} LatestAllIs(states: seq<System>, steps: seq<Step>, n: nat, serial: nat)
    requires IsRun(states, steps) && n <= |steps|
    ensures states[n].latestAll > serial <==> FullAfter(states, steps, n, serial)
  {
    if n > 0 {
      var m: nat := n - 1;
      LatestAllIs(states, steps, m, serial);
      FullNext(states, steps, n, serial);
      RunKeeps(states, steps, m);
      assert Next(states[m], steps[m], states[m + 1]);
    }
  }

  lemma {:induction false} LatestProviderIs(states: seq<System>, steps: seq<Step>, n: nat, provider: string, serial: nat)
    requires IsRun(states, steps) && n <= |steps|
    ensures LatestFor(states[n], provider) > serial <==> ProviderAfter(states, steps, n, provider, serial)
  {
    if n > 0 {
      var m: nat := n - 1;
      LatestProviderIs(states, steps, m, provider, serial);
      ProviderNext(states, steps, n, provider, serial);
      RunKeeps(states, steps, m);
      assert Next(states[m], steps[m], states[m + 1]);
    }
  }

  ghost predicate SomeProviderAfter(states: seq<System>, steps: seq<Step>, n: nat, serial: nat) {
    exists provider :: ProviderAfter(states, steps, n, provider, serial)
  }

  /** Something that covers the request was asked for after it: for a full refresh any other refresh, for a provider's
      refresh a full one or another one of that provider. */
  ghost predicate Overtaken(states: seq<System>, steps: seq<Step>, k: nat, request: Request) {
    FullAfter(states, steps, k, request.serial)
    || if request.All? then SomeProviderAfter(states, steps, k, request.serial)
    else ProviderAfter(states, steps, k, request.provider, request.serial)
  }

  ghost predicate NoneNewer(s: System, serial: nat) {
    forall p :: p in s.latestProvider ==> s.latestProvider[p] <= serial
  }

  lemma NoneNewerIff(states: seq<System>, steps: seq<Step>, k: nat, serial: nat)
    requires IsRun(states, steps) && k <= |steps|
    ensures NoneNewer(states[k], serial) <==> !SomeProviderAfter(states, steps, k, serial)
  {
    if provider :| ProviderAfter(states, steps, k, provider, serial) {
      LatestProviderIs(states, steps, k, provider, serial);
      assert states[k].latestProvider[provider] > serial;
    }
    if provider :| provider in states[k].latestProvider && states[k].latestProvider[provider] > serial {
      LatestProviderIs(states, steps, k, provider, serial);
    }
  }

  lemma LatestIffNotOvertaken(states: seq<System>, steps: seq<Step>, k: nat, request: Request)
    requires IsRun(states, steps) && k <= |steps| && request in states[k].pending
    ensures IsLatest(states[k], request) <==> !Overtaken(states, steps, k, request)
  {
    RunKeeps(states, steps, k);
    assert Known(states[k], request);
    LatestAllIs(states, steps, k, request.serial);
    if request.All? {
      NoneNewerIff(states, steps, k, request.serial);
    } else {
      LatestProviderIs(states, steps, k, request.provider, request.serial);
    }
  }

  /** In every run a response that arrives is applied exactly when nothing that covers its request was asked for after it;
      a full response then is the catalog, and a provider's response replaces that provider's items behind the others. */
  lemma AppliedIffNotOvertaken(states: seq<System>, steps: seq<Step>, k: nat, request: Request, response: seq<Item>)
    requires IsRun(states, steps) && k < |steps| && steps[k] == Completes(request, response)
    ensures states[k + 1].applied == states[k].applied + [Applied(request, response)] <==> !Overtaken(states, steps, k, request)
    ensures Overtaken(states, steps, k, request) ==> states[k + 1].items == states[k].items
    ensures !Overtaken(states, steps, k, request) ==>
              states[k + 1].items == if request.All? then response
              else Filter(states[k].items, request.provider, false) + Filter(response, request.provider, true)
  {
    assert Next(states[k], steps[k], states[k + 1]);
    LatestIffNotOvertaken(states, steps, k, request);
    assert states[k].applied != states[k].applied + [Applied(request, response)];
  }
}
