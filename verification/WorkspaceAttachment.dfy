/** Attaching to one workspace's Agent Host at a time
    (packages/workbench/src/services/workspace-attachment.ts). */
module WorkspaceAttachment {
  import opened Wrappers

  /** A host is named by the order in which it was connected. */
  datatype Attached = Attached(workspace: string, host: nat)

  /** `closed` are the hosts the service has closed. */
  datatype Service = Service(current: Option<Attached>, generation: nat, closed: set<nat>)

  function CurrentClosed(s: Service): Service {
    s.(current := None, closed := if s.current.Some? then s.closed + {s.current.value.host} else s.closed)
  }

  /** The part of an attach before it waits for a connection. */
  function Begun(s: Service): Service {
    CurrentClosed(s.(generation := s.generation + 1))
  }

  /** The part after, for a connected host. */
  function Connected(s: Service, workspace: string, generation: nat, host: nat): Service {
    if generation != s.generation then s.(closed := s.closed + {host}) else s.(current := Some(Attached(workspace, host)))
  }

  predicate IsCurrent(s: Service, generation: nat, host: nat) {
    generation == s.generation && s.current.Some? && s.current.value.host == host
  }

  class WorkspaceAttachmentService {
    var current: Option<Attached>
    var generation: nat
    var closed: set<nat>

    function State(): Service
      reads this
    {
      Service(current, generation, closed)
    }

    constructor ()
      ensures State() == Service(None, 0, {})
    {
      current, generation, closed := None, 0, {};
    }

    method CloseCurrent()
      modifies this
      ensures State() == CurrentClosed(old(State()))
    {
      var previous := current;
      current := None;
      if previous.Some? {
        closed := closed + {previous.value.host};
      }
    }

    /** An open host of the same workspace is used again; otherwise a new generation begins. */
    method BeginAttach(workspace: string, currentIsClosed: bool) returns (existing: Option<nat>)
      modifies this
      ensures existing.Some? <==> old(current).Some? && old(current).value.workspace == workspace && !currentIsClosed
      ensures existing.Some? ==> existing.value == old(current).value.host && State() == old(State())
      ensures existing.None? ==> State() == Begun(old(State()))
      ensures existing.None? ==> current == None && generation == old(generation) + 1
                                 && (old(current).Some? ==> old(current).value.host in closed)
    {
      if current.Some? && current.value.workspace == workspace && !currentIsClosed {
        return Some(current.value.host);
      }
      generation := generation + 1;
      CloseCurrent();
      return None;
    }

    method FinishAttach(workspace: string, started: nat, host: nat) returns (attached: bool)
      modifies this
      ensures attached == (started == old(generation))
      ensures State() == Connected(old(State()), workspace, started, host)
      ensures attached ==> current == Some(Attached(workspace, host)) && closed == old(closed)
      ensures !attached ==> current == old(current) && host in closed
    {
      if started != generation {
        closed := closed + {host};
        return false;
      }
      current := Some(Attached(workspace, host));
      return true;
    }

    method Detach()
      modifies this
      ensures State() == Begun(old(State()))
      ensures current == None && generation == old(generation) + 1 && (old(current).Some? ==> old(current).value.host in closed)
    {
      generation := generation + 1;
      CloseCurrent();
    }

    method OnHostAction(started: nat, host: nat) returns (deliver: bool)
      ensures deliver == IsCurrent(State(), started, host)
      ensures deliver <==> started == generation && current.Some? && current.value.host == host
    {
      deliver := started == generation && current.Some? && current.value.host == host;
    }

    method OnHostClose(started: nat, host: nat) returns (deliver: bool)
      modifies this
      ensures deliver == IsCurrent(old(State()), started, host)
      ensures State() == if deliver then old(State()).(current := None) else old(State())
    {
      deliver := started == generation && current.Some? && current.value.host == host;
      if deliver {
        current := None;
      }
    }
  }
}

/** Every interleaving of attaching, connecting, detaching and hosts that close on their own. */
module AttachmentRuns {
  import opened WorkspaceAttachment
  import opened Wrappers

  datatype Waiting = Waiting(workspace: string, generation: nat)

  datatype Host = Host(workspace: string, generation: nat, attached: bool)

  /** `gone` are the hosts that closed on their own; `actions` and `closes` record what listeners were told. */
  datatype System = System(
    service: Service, waiting: set<Waiting>, hosts: seq<Host>, gone: set<nat>, actions: seq<nat>, closes: seq<nat>)

  datatype Step =
    | Attach(workspace: string)
    | Connects(attach: Waiting)
    | Fails(attach: Waiting)
    | Detach
    | Goes(host: nat)
    | Acts(host: nat)
    | ReportsClose(host: nat)

  predicate IsOpen(s: System, host: nat) {
    host !in s.service.closed && host !in s.gone
  }

  ghost predicate AttachStep(s: System, workspace: string, s': System) {
    var current := s.service.current;
    if current.Some? && current.value.workspace == workspace && IsOpen(s, current.value.host) then s' == s
    else s' == s.(service := Begun(s.service), waiting := s.waiting + {Waiting(workspace, s.service.generation + 1)})
  }

  ghost predicate ConnectsStep(s: System, a: Waiting, s': System) {
    a in s.waiting
    && s' == s.(waiting := s.waiting - {a},
             hosts := s.hosts + [Host(a.workspace, a.generation, a.generation == s.service.generation)],
             service := Connected(s.service, a.workspace, a.generation, |s.hosts|))
  }

  /** Only a host that was attached has listeners. */
  ghost predicate ActsStep(s: System, host: nat, s': System) {
    host < |s.hosts| && s.hosts[host].attached
    && s' == s.(actions := if IsCurrent(s.service, s.hosts[host].generation, host) then s.actions + [host] else s.actions)
  }

  /** A host reports that it is closed at any time after, and nothing keeps it from doing so twice. */
  ghost predicate ReportsCloseStep(s: System, host: nat, s': System) {
    host < |s.hosts| && s.hosts[host].attached && !IsOpen(s, host)
    && s' == if IsCurrent(s.service, s.hosts[host].generation, host)
             then s.(service := s.service.(current := None), closes := s.closes + [host]) else s
  }

  ghost predicate Next(s: System, step: Step, s': System) {
    match step
    case Attach(workspace) => AttachStep(s, workspace, s')
    case Connects(a) => ConnectsStep(s, a, s')
    case Fails(a) => a in s.waiting && s' == s.(waiting := s.waiting - {a})
    case Detach => s' == s.(service := Begun(s.service))
    case Goes(host) => host < |s.hosts| && s' == s.(gone := s.gone + {host})
    case Acts(host) => ActsStep(s, host, s')
    case ReportsClose(host) => ReportsCloseStep(s, host, s')
  }

  const START := System(Service(None, 0, {}), {}, [], {}, [], [])

  ghost predicate IsRun(states: seq<System>, steps: seq<Step>) {
    |states| == |steps| + 1 && states[0] == START
    && forall i :: 0 <= i < |steps| ==> Next(states[i], steps[i], states[i + 1])
  }

  // ----- What every step keeps

  predicate IsHost(s: System, host: nat) {
    s.service.current.Some? && s.service.current.value.host == host
  }

  /** The current host belongs to the latest generation and was not closed by the service. */
  ghost predicate CurrentIsLatest(s: System) {
    s.service.current.Some? ==>
      var c := s.service.current.value;
      && c.host < |s.hosts| && c.host !in s.service.closed && c.host !in s.closes
      && s.hosts[c.host] == Host(c.workspace, s.service.generation, true)
  }

  ghost predicate OthersAreClosed(s: System) {
    forall h :: 0 <= h < |s.hosts| ==> IsHost(s, h) || !IsOpen(s, h)
  }

  /** Each generation begins once, and at most one host comes of it. */
  ghost predicate GenerationsAreFresh(s: System) {
    && (forall a :: a in s.waiting ==> a.generation <= s.service.generation)
    && (forall a, b :: a in s.waiting && b in s.waiting && a.generation == b.generation ==> a == b)
    && (forall h :: 0 <= h < |s.hosts| ==> s.hosts[h].generation <= s.service.generation)
    && (forall a, h :: a in s.waiting && 0 <= h < |s.hosts| ==> s.hosts[h].generation != a.generation)
  }

  ghost predicate CloseToldOnce(s: System) {
    && (forall i, j :: 0 <= i < j < |s.closes| ==> s.closes[i] != s.closes[j])
    && (forall h :: h in s.closes ==> h < |s.hosts|)
    && (forall h :: h in s.service.closed ==> h < |s.hosts|)
  }

  ghost predicate Inv(s: System) {
    CurrentIsLatest(s) && OthersAreClosed(s) && GenerationsAreFresh(s) && CloseToldOnce(s)
  }

  lemma BegunKeeps(s: System, s': System)
    requires Inv(s)
    requires s' == s.(service := Begun(s.service), waiting := s'.waiting)
    requires forall a :: a in s'.waiting ==> a in s.waiting || a.generation == s.service.generation + 1
    requires forall a, b :: a in s'.waiting && b in s'.waiting && a.generation == b.generation ==> a == b
    ensures Inv(s')
  {
    forall h | 0 <= h < |s'.hosts|
      ensures !IsOpen(s', h)
    {
      assert IsHost(s, h) || !IsOpen(s, h);
    }
  }

  lemma ConnectsKeeps(s: System, a: Waiting, s': System)
    requires Inv(s) && ConnectsStep(s, a, s')
    ensures Inv(s')
  {
    assert s.service.current.Some? ==> a.generation != s.service.generation;
    forall h | 0 <= h < |s'.hosts|
      ensures IsHost(s', h) || !IsOpen(s', h)
    {
      if h < |s.hosts| {
        assert IsHost(s, h) || !IsOpen(s, h);
      }
    }
  }

  lemma StepKeeps(s: System, step: Step, s': System)
    requires Inv(s) && Next(s, step, s')
    ensures Inv(s')
  {
    match step
    case Attach(workspace) =>
      if s' != s {
        BegunKeeps(s, s');
      }
    case Connects(a) => ConnectsKeeps(s, a, s');
    case Fails(_) =>
      forall h | 0 <= h < |s'.hosts|
        ensures IsHost(s', h) || !IsOpen(s', h)
      {
        assert IsHost(s, h) || !IsOpen(s, h);
      }
    case Detach => BegunKeeps(s, s');
    case Goes(_) =>
      forall h | 0 <= h < |s'.hosts|
        ensures IsHost(s', h) || !IsOpen(s', h)
      {
        assert IsHost(s, h) || !IsOpen(s, h);
      }
    case Acts(_) =>
      forall h | 0 <= h < |s'.hosts|
        ensures IsHost(s', h) || !IsOpen(s', h)
      {
        assert IsHost(s, h) || !IsOpen(s, h);
      }
    case ReportsClose(host) =>
      forall h | 0 <= h < |s'.hosts|
        ensures IsHost(s', h) || !IsOpen(s', h)
      {
        assert IsHost(s, h) || !IsOpen(s, h);
      }
  }

  lemma {:induction false} RunKeeps(states: seq<System>, steps: seq<Step>, n: nat)
    requires IsRun(states, steps) && n <= |steps|
    ensures Inv(states[n])
  {
    if n > 0 {
      var k := n - 1;
      assert Next(states[k], steps[k], states[k + 1]);
      RunKeeps(states, steps, k);
      StepKeeps(states[k], steps[k], states[n]);
    }
  }

  // ----- What every run promises

  /** The current host belongs to the latest generation; every other host that was ever connected is closed;
      listeners hear of a close at most once for each host. */
  lemma AttachmentIsSafe(states: seq<System>, steps: seq<Step>, n: nat)
    requires IsRun(states, steps) && n <= |steps|
    ensures var s := states[n];
            && (s.service.current.Some? ==> s.service.current.value.host < |s.hosts|
                                            && s.hosts[s.service.current.value.host].generation == s.service.generation)
            && (forall h :: 0 <= h < |s.hosts| ==> IsHost(s, h) || !IsOpen(s, h))
            && (forall i, j :: 0 <= i < j < |s.closes| ==> s.closes[i] != s.closes[j])
  {
    RunKeeps(states, steps, n);
  }

  /** What a step tells listeners is about the host that was current, and a close they are told of is never
      one the service made itself. */
  lemma OnlyTheCurrentHostIsHeard(states: seq<System>, steps: seq<Step>, n: nat)
    requires IsRun(states, steps) && n < |steps|
    ensures var s, s' := states[n], states[n + 1];
            && (s'.actions == s.actions || exists h :: s'.actions == s.actions + [h] && IsHost(s, h))
            && (s'.closes == s.closes || exists h :: s'.closes == s.closes + [h] && IsHost(s, h) && h in s.gone && h !in s'.service.closed)
  {
    RunKeeps(states, steps, n);
    assert Next(states[n], steps[n], states[n + 1]);
    var s, s' := states[n], states[n + 1];
    match steps[n]
    case Acts(h) => assert s'.actions == s.actions || (s'.actions == s.actions + [h] && IsHost(s, h));
    case ReportsClose(h) =>
      assert s'.closes == s.closes || (s'.closes == s.closes + [h] && IsHost(s, h) && h in s.gone && h !in s'.service.closed);
    case _ =>
  }

  // ----- Which host is current

  /** A step that begins a new generation: a detach, or an attach that finds no open host of its workspace. */
  predicate BeginsGeneration(s: System, step: Step) {
    step.Detach?
    || (step.Attach? && !(s.service.current.Some? && s.service.current.value.workspace == step.workspace && IsOpen(s, s.service.current.value.host)))
  }

  /** Step k connects the host, for the latest generation. */
  predicate ConnectsLatest(s: System, step: Step, workspace: string, host: nat) {
    step.Connects? && step.attach.workspace == workspace && step.attach.generation == s.service.generation && host == |s.hosts|
  }

  ghost predicate CurrentSince(states: seq<System>, steps: seq<Step>, k: int, n: nat, workspace: string, host: nat) {
    0 <= k < n <= |steps| < |states| && ConnectsLatest(states[k], steps[k], workspace, host)
    && forall j :: k < j < n ==> !BeginsGeneration(states[j], steps[j]) && steps[j] != ReportsClose(host)
  }

  ghost predicate WasConnected(states: seq<System>, steps: seq<Step>, n: nat, workspace: string, host: nat) {
    exists k :: CurrentSince(states, steps, k, n, workspace, host)
  }

  lemma WasConnectedNext(states: seq<System>, steps: seq<Step>, n: nat, workspace: string, host: nat)
    requires 0 < n <= |steps| < |states|
    ensures WasConnected(states, steps, n, workspace, host)
       <==> ConnectsLatest(states[n - 1], steps[n - 1], workspace, host)
            || (WasConnected(states, steps, n - 1, workspace, host)
                && !BeginsGeneration(states[n - 1], steps[n - 1]) && steps[n - 1] != ReportsClose(host))
  {
    var m: nat := n - 1;
    if ConnectsLatest(states[m], steps[m], workspace, host) {
      assert CurrentSince(states, steps, m, n, workspace, host);
    }
    if k :| CurrentSince(states, steps, k, m, workspace, host) {
      assert !BeginsGeneration(states[m], steps[m]) && steps[m] != ReportsClose(host) ==> CurrentSince(states, steps, k, n, workspace, host);
    }
    if k :| CurrentSince(states, steps, k, n, workspace, host) {
      assert k < m ==> CurrentSince(states, steps, k, m, workspace, host);
    }
  }

  lemma StepCurrent(s: System, step: Step, s': System, workspace: string, host: nat)
    requires Inv(s) && Next(s, step, s')
    ensures s'.service.current == Some(Attached(workspace, host))
       <==> ConnectsLatest(s, step, workspace, host)
            || (s.service.current == Some(Attached(workspace, host)) && !BeginsGeneration(s, step) && step != ReportsClose(host))
  {
  }

  /** In every run a host is current exactly when it was connected for the latest generation and since then no other
      generation began and the host did not report that it is closed. */
  lemma {:induction false} CurrentIffConnected(states: seq<System>, steps: seq<Step>, n: nat, workspace: string, host: nat)
    requires IsRun(states, steps) && n <= |steps|
    ensures states[n].service.current == Some(Attached(workspace, host)) <==> WasConnected(states, steps, n, workspace, host)
  {
    if n > 0 {
      var m: nat := n - 1;
      CurrentIffConnected(states, steps, m, workspace, host);
      RunKeeps(states, steps, m);
      assert Next(states[m], steps[m], states[m + 1]);
      StepCurrent(states[m], steps[m], states[n], workspace, host);
      WasConnectedNext(states, steps, n, workspace, host);
    }
  }

  /** Listeners hear a host's action, and its close, exactly while it is the current host. */
  lemma HeardIffCurrent(states: seq<System>, steps: seq<Step>, n: nat, host: nat)
    requires IsRun(states, steps) && n < |steps|
    ensures steps[n] == Acts(host) ==>
              states[n + 1].actions == if IsHost(states[n], host) then states[n].actions + [host] else states[n].actions
    ensures steps[n] == ReportsClose(host) ==>
              states[n + 1].closes == if IsHost(states[n], host) then states[n].closes + [host] else states[n].closes
  {
    RunKeeps(states, steps, n);
    assert Next(states[n], steps[n], states[n + 1]);
  }

  /** An attach that an attach or a detach overtook is refused, and its host is closed at once. */
  lemma OvertakenIsRefused(states: seq<System>, steps: seq<Step>, n: nat, a: Waiting)
    requires IsRun(states, steps) && n < |steps| && steps[n] == Connects(a) && a.generation < states[n].service.generation
    ensures var s, s' := states[n], states[n + 1];
            |s'.hosts| == |s.hosts| + 1 && !IsOpen(s', |s.hosts|) && s'.service.current == s.service.current
  {
    assert Next(states[n], steps[n], states[n + 1]);
  }
}
