/** Stream ids, as the server counts them out. */
module StreamId {
  const UINT64 := 0x1_0000_0000_0000_0000

  function Digit(d: nat): char
    requires d < 10
  {
    '0' + d as char
  }

  function Decimal(n: nat): (s: string)
    ensures s != [] && forall i :: 0 <= i < |s| ==> '0' <= s[i] <= '9'
  {
    if n < 10 then [Digit(n)] else Decimal(n / 10) + [Digit(n % 10)]
  }

  /** The id of the stream that is opened after `n` others. */
  function Id(n: nat): string {
    Decimal((n + 1) % UINT64)
  }

  lemma {:induction false} DecimalIsInjective(m: nat, n: nat)
    ensures Decimal(m) == Decimal(n) ==> m == n
  {
    if m >= 10 && n >= 10 {
      DecimalIsInjective(m / 10, n / 10);
      var a, b := Decimal(m), Decimal(n);
      assert a[..|a| - 1] == Decimal(m / 10) && b[..|b| - 1] == Decimal(n / 10);
      assert a[|a| - 1] == Digit(m % 10) && b[|b| - 1] == Digit(n % 10);
    }
  }

  lemma IdIsInjective(m: nat, n: nat)
    requires m < UINT64 && n < UINT64
    ensures Id(m) == Id(n) ==> m == n
  {
    DecimalIsInjective((m + 1) % UINT64, (n + 1) % UINT64);
  }

  /** No id is used twice on a connection exactly as long as the counter has not come round. */
  lemma IdsAreFresh(opens: nat)
    ensures (forall m, n :: 0 <= m < n < opens ==> Id(m) != Id(n)) <==> opens <= UINT64
  {
    if opens <= UINT64 {
      forall m: nat, n: nat | m < n < opens
        ensures Id(m) != Id(n)
      {
        IdIsInjective(m, n);
      }
    } else {
      assert Id(0) == Id(UINT64);
    }
  }

  lemma IdIsNeverDirect(n: nat)
    ensures Id(n) != "direct" && Id(n) != ""
  {
    assert "direct"[0] == 'd';
  }
}

/** The two ends of the Mux: frames, the server's half (internal/interfaces/http/ahp.go) and the host's
    half (internal/agenthost/mux.go). */
module MuxEnds {
  import opened Collections
  import opened StreamId

  const MAX_STREAMS := 16
  const STREAM_QUEUE := 64
  const WRITE_QUEUE := 256
  const OUTGOING := 128
  const MAX_LOGICAL_PEERS := 16
  const DIRECT := "direct"

  type Payload = string

  datatype Frame = Open(id: string) | Opened(id: string) | Data(id: string, payload: Payload) | Close(id: string)

  /** Closing a stream happens once: it leaves the map, then its `done` channel closes, then the host is
      told if the server closed it. */
  datatype Phase = Live | Removed(notify: bool) | Done(notify: bool)

  datatype Opening = Unsent | Sent | Failed

  datatype Forwarder = Idle | Running | Stopped

  datatype Stream = Stream(queue: seq<Payload>, phase: Phase, opening: Opening, acknowledged: bool, forwarder: Forwarder)

  /** `objects` are the streams in the order they were made, `streams` the ones registered under their ids. */
  datatype Server = Server(streams: map<string, nat>, objects: seq<Stream>, writeQueue: seq<Frame>, closed: bool)

  const NEW_STREAM := Stream([], Live, Unsent, false, Idle)

  function Registered(s: Server): Server {
    s.(streams := s.streams[Id(|s.objects|) := |s.objects|], objects := s.objects + [NEW_STREAM])
  }

  function WithStream(s: Server, n: nat, stream: Stream): Server
    requires n < |s.objects|
  {
    s.(objects := s.objects[n := stream])
  }

  function CloseStarted(s: Server, n: nat, notify: bool): Server
    requires n < |s.objects|
  {
    if s.objects[n].phase.Live? then
      WithStream(s, n, s.objects[n].(phase := Removed(notify))).(streams := s.streams - {Id(n)})
    else s
  }

  function Queued(s: Server, frame: Frame): Server {
    s.(writeQueue := s.writeQueue + [frame])
  }

  /** The outcomes a send can have: a full queue or a closed connection refuses the frame, and a closed
      connection with room in its queue can still take it. */
  predicate CanSend(s: Server, ok: bool) {
    if ok then |s.writeQueue| < WRITE_QUEUE else s.closed || |s.writeQueue| >= WRITE_QUEUE
  }

  function AfterSend(s: Server, frame: Frame, ok: bool): Server {
    if ok then Queued(s, frame) else s
  }

  datatype Routing = Push | Skip | Overflow

  /** What the reader can do with a payload for a stream it has looked up. */
  predicate CanRoute(stream: Stream, routing: Routing) {
    match routing
    case Push => |stream.queue| < STREAM_QUEUE
    case Skip => stream.phase.Done?
    case Overflow => |stream.queue| >= STREAM_QUEUE && !stream.phase.Done?
  }

  class HostConnection {
    var streams: map<string, nat>
    var objects: seq<Stream>
    var writeQueue: seq<Frame>
    var closed: bool

    function State(): Server
      reads this
    {
      Server(streams, objects, writeQueue, closed)
    }

    constructor ()
      ensures State() == Server(map[], [], [], false)
    {
      streams, objects, writeQueue, closed := map[], [], [], false;
    }

    method Send(frame: Frame) returns (ok: bool)
      modifies this`writeQueue
      ensures CanSend(old(State()), ok) && State() == AfterSend(old(State()), frame, ok)
      ensures ok ==> |old(writeQueue)| < WRITE_QUEUE && writeQueue == old(writeQueue) + [frame]
      ensures !ok ==> writeQueue == old(writeQueue) && (closed || |writeQueue| >= WRITE_QUEUE)
    {
      ok := *;
      if |writeQueue| >= WRITE_QUEUE {
        ok := false;
      } else if !closed {
        ok := true;
      }
      if ok {
        writeQueue := writeQueue + [frame];
      }
    }

    /** The critical section of opening a stream. */
    method Register() returns (result: int)
      modifies this`streams, this`objects
      ensures result == if |old(streams)| >= MAX_STREAMS then -1 else |old(objects)|
      ensures State() == if result < 0 then old(State()) else Registered(old(State()))
      ensures result >= 0 ==> objects == old(objects) + [NEW_STREAM] && streams == old(streams)[Id(result) := result]
    {
      if |streams| >= MAX_STREAMS {
        return -1;
      }
      result := |objects|;
      streams := streams[Id(|objects|) := |objects|];
      objects := objects + [NEW_STREAM];
    }

    method StartClose(n: nat, notify: bool)
      requires n < |objects|
      modifies this`streams, this`objects
      ensures State() == CloseStarted(old(State()), n, notify)
      ensures objects[n].phase == if old(objects)[n].phase.Live? then Removed(notify) else old(objects)[n].phase
      ensures old(objects)[n].phase.Live? ==> Id(n) !in streams
    {
      if objects[n].phase.Live? {
        objects := objects[n := objects[n].(phase := Removed(notify))];
        streams := streams - {Id(n)};
      }
    }

    method Lookup(id: string) returns (result: int)
      ensures result == if id in streams then streams[id] else -1
    {
      result := if id in streams then streams[id] else -1;
    }

    /** Routes a payload to a stream that was looked up; both ready cases of the select are possible. */
    method RouteData(n: nat, payload: Payload) returns (routing: Routing)
      requires n < |objects|
      modifies this`streams, this`objects
      ensures CanRoute(old(objects)[n], routing)
      ensures !old(objects)[n].phase.Done? ==> (routing.Push? <==> |old(objects)[n].queue| < STREAM_QUEUE) && !routing.Skip?
      ensures old(objects)[n].phase.Done? ==> routing.Skip? || (routing.Push? && |old(objects)[n].queue| < STREAM_QUEUE)
      ensures State() == match routing
                         case Push => WithStream(old(State()), n, old(objects)[n].(queue := old(objects)[n].queue + [payload]))
                         case Skip => old(State())
                         case Overflow => CloseStarted(old(State()), n, true)
    {
      var stream := objects[n];
      var room, done := |stream.queue| < STREAM_QUEUE, stream.phase.Done?;
      var push: bool := *;
      if room && (!done || push) {
        objects := objects[n := stream.(queue := stream.queue + [payload])];
        return Push;
      }
      if done {
        return Skip;
      }
      StartClose(n, true);
      return Overflow;
    }

    /** The part of closing the connection that empties the map; the streams in it are closed one by one. */
    method TakeStreams() returns (taken: set<nat>)
      modifies this`streams
      ensures taken == old(streams).Values
      ensures State() == old(State()).(streams := map[])
    {
      taken := streams.Values;
      streams := map[];
    }
  }

  // ----- The host's half

  predicate CanAdd(peers: set<string>, id: string) {
    id !in peers && |peers| - 1 < MAX_LOGICAL_PEERS
  }

  predicate Handles(peers: set<string>, id: string) {
    id != DIRECT && id in peers
  }

  /** The peers after a frame. */
  function PeersAfter(peers: set<string>, frame: Frame): set<string> {
    match frame
    case Open(id) => if CanAdd(peers, id) then peers + {id} else peers
    case Close(id) => peers - {id}
    case _ => peers
  }

  /** The control frames that answer a frame. */
  function Answer(peers: set<string>, frame: Frame): seq<Frame> {
    match frame
    case Open(id) => [if CanAdd(peers, id) then Opened(id) else Close(id)]
    case Data(id, _) => if Handles(peers, id) then [] else [Close(id)]
    case _ => []
  }

  class PeerTable {
    var peers: set<string>

    constructor ()
      ensures peers == {DIRECT}
    {
      peers := {DIRECT};
    }

    method AddMuxPeer(id: string) returns (added: bool)
      modifies this
      ensures added == CanAdd(old(peers), id) && peers == if added then old(peers) + {id} else old(peers)
      ensures added <==> id !in old(peers) && |old(peers)| < 1 + MAX_LOGICAL_PEERS
    {
      if id in peers {
        return false;
      }
      if |peers| - 1 >= MAX_LOGICAL_PEERS {
        return false;
      }
      peers := peers + {id};
      return true;
    }

    method RemoveMuxPeer(id: string)
      modifies this
      ensures peers == old(peers) - {id}
    {
      peers := peers - {id};
    }

    /** Every frame but a payload for an open stream is answered here; that one goes to its peer. */
    method HandleMuxFrame(frame: Frame) returns (replies: seq<Frame>, handled: bool)
      modifies this
      ensures peers == PeersAfter(old(peers), frame) && replies == Answer(old(peers), frame)
      ensures handled <==> frame.Data? && Handles(peers, frame.id)
      ensures frame.Open? ==> replies == [if frame.id !in old(peers) && frame.id in peers then Opened(frame.id) else Close(frame.id)]
      ensures frame.Data? ==> peers == old(peers) && replies == if handled then [] else [Close(frame.id)]
      ensures frame.Close? ==> frame.id !in peers && replies == []
      ensures forall id :: id != frame.id ==> (id in peers <==> id in old(peers))
    {
      replies, handled := [], false;
      match frame
      case Open(id) =>
        var added := AddMuxPeer(id);
        replies := [if added then Opened(id) else Close(id)];
      case Data(id, _) =>
        handled := id != DIRECT && id in peers;
        if !handled {
          replies := [Close(id)];
        }
      case Close(id) => RemoveMuxPeer(id);
      case Opened(_) =>
    }

    method RemoveAllMuxPeers()
      modifies this
      ensures peers == old(peers) * {DIRECT}
    {
      var ids := peers;
      while ids != {}
        invariant ids <= old(peers) && peers <= old(peers)
        invariant peers == ids + old(peers) * {DIRECT}
        decreases ids
      {
        var id :| id in ids;
        if id != DIRECT {
          peers := peers - {id};
        }
        ids := ids - {id};
      }
    }
  }

  /** The direct peer and at most sixteen logical ones, whatever frames arrive for other streams. */
  lemma PeersStayBounded(peers: set<string>, frame: Frame)
    requires DIRECT in peers && |peers| <= 1 + MAX_LOGICAL_PEERS
    ensures |PeersAfter(peers, frame)| <= 1 + MAX_LOGICAL_PEERS
    ensures DIRECT in PeersAfter(peers, frame) <==> frame != Close(DIRECT)
  {
    if frame.Close? {
      assert peers - {frame.id} <= peers;
      SubsetIsSmaller(peers - {frame.id}, peers);
    }
  }
}
