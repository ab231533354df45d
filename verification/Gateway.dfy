/** Which Agent Host connection serves a workspace (internal/interfaces/http/ahp.go). */
module Gateway {
  import opened Wrappers

  type Workspace = string

  /** A connection is named by the order in which it was accepted. */
  type Connection = nat

  type Hosts = map<Workspace, Connection>

  datatype Event =
    | Register(workspace: Workspace, connection: Connection)
    | Unregister(workspace: Workspace, connection: Connection)
    | Disconnect(workspace: Workspace)
    | CloseAll

  function Lookup(hosts: Hosts, workspace: Workspace): Option<Connection> {
    if workspace in hosts then Some(hosts[workspace]) else None
  }

  function After(hosts: Hosts, event: Event): Hosts {
    match event
    case Register(w, c) => hosts[w := c]
    case Unregister(w, c) => if Lookup(hosts, w) == Some(c) then hosts - {w} else hosts
    case Disconnect(w) => hosts - {w}
    case CloseAll => map[]
  }

  class Registry {
    var hosts: Hosts

    constructor ()
      ensures hosts == map[]
    {
      hosts := map[];
    }

    method Register(workspace: Workspace, connection: Connection) returns (previous: Option<Connection>)
      modifies this
      ensures previous == Lookup(old(hosts), workspace)
      ensures hosts == After(old(hosts), Event.Register(workspace, connection))
    {
      previous := if workspace in hosts then Some(hosts[workspace]) else None;
      hosts := hosts[workspace := connection];
    }

    method Unregister(workspace: Workspace, connection: Connection)
      modifies this
      ensures hosts == After(old(hosts), Event.Unregister(workspace, connection))
    {
      if workspace in hosts && hosts[workspace] == connection {
        hosts := hosts - {workspace};
      }
    }

    method Disconnect(workspace: Workspace) returns (closed: Option<Connection>)
      modifies this
      ensures closed == Lookup(old(hosts), workspace)
      ensures hosts == After(old(hosts), Event.Disconnect(workspace))
    {
      closed := None;
      if workspace in hosts {
        closed := Some(hosts[workspace]);
        hosts := hosts - {workspace};
      }
    }

    method CloseAll() returns (closed: set<Connection>)
      modifies this
      ensures closed == old(hosts).Values && hosts == After(old(hosts), Event.CloseAll)
    {
      closed := hosts.Values;
      hosts := map[];
    }
  }

  function Run(events: seq<Event>): Hosts {
    if events == [] then map[] else After(Run(events[..|events| - 1]), events[|events| - 1])
  }

  /** The connection's own end, a stop of the workspace, or the end of the server. */
  predicate Ends(event: Event, workspace: Workspace, connection: Connection) {
    event.CloseAll? || event == Event.Disconnect(workspace) || event == Event.Unregister(workspace, connection)
  }

  predicate Replaces(event: Event, workspace: Workspace) {
    event.Register? && event.workspace == workspace
  }

  /** Registered, and since then neither replaced nor ended. */
  ghost predicate Serves(events: seq<Event>, workspace: Workspace, connection: Connection) {
    exists i :: 0 <= i < |events| && events[i] == Event.Register(workspace, connection)
                && Undisturbed(events, i, workspace, connection)
  }

  ghost predicate Undisturbed(events: seq<Event>, from: nat, workspace: Workspace, connection: Connection) {
    forall j :: from < j < |events| ==> !Replaces(events[j], workspace) && !Ends(events[j], workspace, connection)
  }

  lemma UndisturbedShorter(events: seq<Event>, from: nat, workspace: Workspace, connection: Connection)
    requires from < |events| - 1
    ensures Undisturbed(events, from, workspace, connection)
       <==> Undisturbed(events[..|events| - 1], from, workspace, connection)
            && !Replaces(events[|events| - 1], workspace) && !Ends(events[|events| - 1], workspace, connection)
  {
    var front := events[..|events| - 1];
    assert forall j :: 0 <= j < |front| ==> front[j] == events[j];
  }

  lemma ServesAfter(events: seq<Event>, workspace: Workspace, connection: Connection)
    requires events != []
    ensures var front, last := events[..|events| - 1], events[|events| - 1];
            Serves(events, workspace, connection)
            <==> last == Event.Register(workspace, connection)
                 || (Serves(front, workspace, connection) && !Replaces(last, workspace) && !Ends(last, workspace, connection))
  {
    var n := |events| - 1;
    var front, last := events[..n], events[n];
    if last == Event.Register(workspace, connection) {
      assert Undisturbed(events, n, workspace, connection);
    } else {
      forall i | 0 <= i < n
        ensures Undisturbed(events, i, workspace, connection)
           <==> Undisturbed(front, i, workspace, connection) && !Replaces(last, workspace) && !Ends(last, workspace, connection)
      {
        UndisturbedShorter(events, i, workspace, connection);
      }
      assert forall i :: 0 <= i < n ==> front[i] == events[i];
    }
  }

  /** In every run a workspace is served by exactly the connection that was registered for it and has not
      been replaced or ended since: the cleanup of a replaced connection evicts nothing. */
  lemma {:induction false} LatestConnectionServes(events: seq<Event>, workspace: Workspace, connection: Connection)
    ensures Lookup(Run(events), workspace) == Some(connection) <==> Serves(events, workspace, connection)
  {
    if events != [] {
      LatestConnectionServes(events[..|events| - 1], workspace, connection);
      ServesAfter(events, workspace, connection);
      LookupAfter(Run(events[..|events| - 1]), events[|events| - 1], workspace, connection);
    }
  }

  lemma LookupAfter(hosts: Hosts, event: Event, workspace: Workspace, connection: Connection)
    ensures Lookup(After(hosts, event), workspace) == Some(connection)
       <==> event == Event.Register(workspace, connection)
            || (Lookup(hosts, workspace) == Some(connection) && !Replaces(event, workspace) && !Ends(event, workspace, connection))
  {
  }
}
