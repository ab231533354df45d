/** Both ends of the Mux, the two wires between them and every interleaving of their goroutines. */
module MuxRuns {
  import opened Collections
  import opened StreamId
  import opened MuxEnds

  /** The server's reading goroutine: it looks a stream up first and acts on the frame afterwards. */
  datatype Reader = Waiting | Holding(n: nat, frame: Frame) | Closing(n: nat)

  /** What a stream has seen: messages read from its client, payloads queued for it, payloads written to it. */
  datatype Log = Log(read: seq<Payload>, pushed: seq<Payload>, delivered: seq<Payload>)

  /** `members` are the logical peers ever added; `handled` and `emitted` record payloads with their peer. */
  datatype Host = Host(
    peers: set<string>, members: set<string>, received: seq<Frame>, handled: seq<Frame>, replies: seq<Frame>,
    serving: bool, closed: bool, emitted: seq<Frame>, outgoing: seq<Frame>, accepted: seq<Frame>)

  /** `sent`, `accepted` and `arrived` record every frame that entered or left a queue. */
  datatype System = System(
    server: Server, reader: Reader, logs: seq<Log>, sent: seq<Frame>, toHost: seq<Frame>,
    host: Host, toServer: seq<Frame>, arrived: seq<Frame>)

  datatype Step =
    | Opens | SendsOpen(n: nat, ok: bool) | StartsForwarding(n: nat) | StopsForwarding(n: nat)
    | Forwards(n: nat, message: Payload, ok: bool)
    | StartsClose(n: nat, notify: bool) | FinishesClose(n: nat) | SendsClose(n: nat, ok: bool)
    | Delivers(n: nat) | ServerWrites | Reads | ActsOnControl | Routes(routing: Routing) | Resumes
    | ServerCloses | TakesStreams
    | HostReads | HostReplies | HostEmits(id: string, payload: Payload) | HostWrites | DropsPeers | HostCloses

  // ----- What a step does

  predicate Allocated(s: System, n: nat) {
    n < |s.server.objects| && n < |s.logs|
  }

  function Stored(s: System, n: nat, stream: Stream): System
    requires Allocated(s, n)
  {
    s.(server := WithStream(s.server, n, stream))
  }

  function Posted(s: System, frame: Frame, ok: bool): System {
    s.(server := AfterSend(s.server, frame, ok), sent := if ok then s.sent + [frame] else s.sent)
  }

  /** The host's queue takes a frame or, when it is full or closed, loses it. */
  function Enqueued(h: Host, frame: Frame): Host {
    if h.closed || |h.outgoing| >= OUTGOING then h
    else h.(outgoing := h.outgoing + [frame], accepted := h.accepted + [frame])
  }

  function HostAfter(h: Host, frame: Frame): Host {
    h.(peers := PeersAfter(h.peers, frame),
    members := if frame.Open? && CanAdd(h.peers, frame.id) then h.members + {frame.id} else h.members,
    received := h.received + [frame],
    handled := if frame.Data? && Handles(h.peers, frame.id) then h.handled + [frame] else h.handled,
    replies := Answer(h.peers, frame))
  }

  ghost predicate OpensStep(s: System, s': System) {
    |s.server.streams| < MAX_STREAMS
    && s' == s.(server := Registered(s.server), logs := s.logs + [Log([], [], [])])
  }

  ghost predicate SendsOpenStep(s: System, n: nat, ok: bool, s': System) {
    Allocated(s, n) && s.server.objects[n].opening.Unsent? && CanSend(s.server, ok)
    && s' == Posted(Stored(s, n, s.server.objects[n].(opening := if ok then Sent else Failed)), Open(Id(n)), ok)
  }

  ghost predicate StartsForwardingStep(s: System, n: nat, s': System) {
    Allocated(s, n) && var o := s.server.objects[n];
                    o.opening.Sent? && o.acknowledged && o.forwarder.Idle? && s' == Stored(s, n, o.(forwarder := Running))
  }

  ghost predicate StopsForwardingStep(s: System, n: nat, s': System) {
    Allocated(s, n) && var o := s.server.objects[n];
                    o.forwarder.Running? && s' == Stored(s, n, o.(forwarder := Stopped))
  }

  ghost predicate ForwardsStep(s: System, n: nat, message: Payload, ok: bool, s': System) {
    Allocated(s, n) && s.server.objects[n].forwarder.Running? && CanSend(s.server, ok)
    && s' == Posted(Stored(s, n, s.server.objects[n].(forwarder := if ok then Running else Stopped)), Data(Id(n), message), ok)
             .(logs := s.logs[n := s.logs[n].(read := s.logs[n].read + [message])])
  }

  /** A client that leaves, a failed send, a time-out or the end of the connection can close a stream at any time. */
  ghost predicate StartsCloseStep(s: System, n: nat, notify: bool, s': System) {
    Allocated(s, n) && s' == s.(server := CloseStarted(s.server, n, notify))
  }

  ghost predicate FinishesCloseStep(s: System, n: nat, s': System) {
    Allocated(s, n) && var o := s.server.objects[n];
                    o.phase.Removed? && s' == Stored(s, n, o.(phase := Done(o.phase.notify)))
  }

  ghost predicate SendsCloseStep(s: System, n: nat, ok: bool, s': System) {
    Allocated(s, n) && s.server.objects[n].phase == Done(true) && CanSend(s.server, ok)
    && s' == Posted(Stored(s, n, s.server.objects[n].(phase := Done(false))), Close(Id(n)), ok)
  }

  ghost predicate DeliversStep(s: System, n: nat, s': System) {
    Allocated(s, n) && var o := s.server.objects[n];
                    o.queue != []
                    && s' == Stored(s, n, o.(queue := o.queue[1..])).(logs := s.logs[n := s.logs[n].(delivered := s.logs[n].delivered + [o.queue[0]])])
  }

  ghost predicate ServerWritesStep(s: System, s': System) {
    s.server.writeQueue != []
    && s' == s.(server := s.server.(writeQueue := s.server.writeQueue[1..]), toHost := s.toHost + [s.server.writeQueue[0]])
  }

  ghost predicate ReadsStep(s: System, s': System) {
    s.reader.Waiting? && s.toServer != []
    && var frame := s.toServer[0];
    s' == s.(toServer := s.toServer[1..], arrived := s.arrived + [frame],
    reader := if frame.id in s.server.streams then Holding(s.server.streams[frame.id], frame) else Waiting)
  }

  ghost predicate ActsOnControlStep(s: System, s': System) {
    s.reader.Holding? && Allocated(s, s.reader.n)
    && match s.reader.frame
       case Opened(_) =>
         s' == Stored(s, s.reader.n, s.server.objects[s.reader.n].(acknowledged := true)).(reader := Waiting)
       case Close(_) =>
         s' == s.(server := CloseStarted(s.server, s.reader.n, false), reader := Closing(s.reader.n))
       case Open(_) => s' == s.(reader := Waiting)
       case Data(_, _) => false
  }

  ghost predicate RoutesStep(s: System, routing: Routing, s': System) {
    s.reader.Holding? && s.reader.frame.Data? && Allocated(s, s.reader.n)
    && var n, payload := s.reader.n, s.reader.frame.payload;
    var o := s.server.objects[n];
    CanRoute(o, routing)
    && match routing
       case Push =>
         s' == Stored(s, n, o.(queue := o.queue + [payload]))
         .(reader := Waiting, logs := s.logs[n := s.logs[n].(pushed := s.logs[n].pushed + [payload])])
       case Skip => s' == s.(reader := Waiting)
       case Overflow => s' == s.(server := CloseStarted(s.server, n, true), reader := Closing(n))
  }

  /** A close that another goroutine began is waited for. */
  ghost predicate ResumesStep(s: System, s': System) {
    s.reader.Closing? && Allocated(s, s.reader.n) && s.server.objects[s.reader.n].phase.Done? && s' == s.(reader := Waiting)
  }

  ghost predicate HostReadsStep(s: System, s': System) {
    s.host.serving && s.host.replies == [] && s.toHost != []
    && s' == s.(toHost := s.toHost[1..], host := HostAfter(s.host, s.toHost[0]))
  }

  ghost predicate HostRepliesStep(s: System, s': System) {
    s.host.replies != []
    && s' == s.(host := Enqueued(s.host.(replies := s.host.replies[1..]), s.host.replies[0]))
  }

  /** Responses and notifications for a peer; a peer that is gone can still have one on its way. */
  ghost predicate HostEmitsStep(s: System, id: string, payload: Payload, s': System) {
    id in s.host.members
    && s' == s.(host := Enqueued(s.host.(emitted := s.host.emitted + [Data(id, payload)]), Data(id, payload)))
  }

  ghost predicate HostWritesStep(s: System, s': System) {
    s.host.outgoing != []
    && s' == s.(host := s.host.(outgoing := s.host.outgoing[1..]), toServer := s.toServer + [s.host.outgoing[0]])
  }

  ghost predicate Next(s: System, step: Step, s': System) {
    match step
    case Opens => OpensStep(s, s')
    case SendsOpen(n, ok) => SendsOpenStep(s, n, ok, s')
    case StartsForwarding(n) => StartsForwardingStep(s, n, s')
    case StopsForwarding(n) => StopsForwardingStep(s, n, s')
    case Forwards(n, message, ok) => ForwardsStep(s, n, message, ok, s')
    case StartsClose(n, notify) => StartsCloseStep(s, n, notify, s')
    case FinishesClose(n) => FinishesCloseStep(s, n, s')
    case SendsClose(n, ok) => SendsCloseStep(s, n, ok, s')
    case Delivers(n) => DeliversStep(s, n, s')
    case ServerWrites => ServerWritesStep(s, s')
    case Reads => ReadsStep(s, s')
    case ActsOnControl => ActsOnControlStep(s, s')
    case Routes(routing) => RoutesStep(s, routing, s')
    case Resumes => ResumesStep(s, s')
    case ServerCloses => s' == s.(server := s.server.(closed := true))
    case TakesStreams => s.server.closed && s' == s.(server := s.server.(streams := map[]))
    case HostReads => HostReadsStep(s, s')
    case HostReplies => HostRepliesStep(s, s')
    case HostEmits(id, payload) => HostEmitsStep(s, id, payload, s')
    case HostWrites => HostWritesStep(s, s')
    case DropsPeers => s' == s.(host := s.host.(peers := s.host.peers * {DIRECT}, serving := false))
    case HostCloses => !s.host.serving && s' == s.(host := s.host.(closed := true))
  }

  const START := System(
                   Server(map[], [], [], false), Waiting, [], [], [],
                   Host({DIRECT}, {}, [], [], [], true, false, [], [], []), [], [])

  ghost predicate IsRun(states: seq<System>, steps: seq<Step>) {
    |states| == |steps| + 1 && states[0] == START
    && forall i :: 0 <= i < |steps| ==> Next(states[i], steps[i], states[i + 1])
  }

  // ----- Payloads of one stream

  function DataFor(log: seq<Frame>, id: string): seq<Payload> {
    if log == [] then []
    else
      var front, last := DataFor(log[..|log| - 1], id), log[|log| - 1];
      if last.Data? && last.id == id then front + [last.payload] else front
  }

  /** Streams are opened once, before anything is sent on them. */
  ghost predicate OpenedOnce(log: seq<Frame>) {
    log == [] || (
      var front, last := log[..|log| - 1], log[|log| - 1];
      OpenedOnce(front)
      && (last.Open? ==> last !in front)
      && (last.Data? ==> Open(last.id) in front))
  }

  ghost predicate Subsequence(a: seq<Payload>, b: seq<Payload>)
    decreases |b|
  {
    a == [] || (b != [] && (
                  || (a[|a| - 1] == b[|b| - 1] && Subsequence(a[..|a| - 1], b[..|b| - 1]))
                  || Subsequence(a, b[..|b| - 1])))
  }

  lemma DataForAppend(log: seq<Frame>, frame: Frame, id: string)
    ensures DataFor(log + [frame], id)
         == if frame.Data? && frame.id == id then DataFor(log, id) + [frame.payload] else DataFor(log, id)
  {
    assert (log + [frame])[..|log|] == log;
  }

  lemma {:induction false} DataForConcat(a: seq<Frame>, b: seq<Frame>, id: string)
    ensures DataFor(a + b, id) == DataFor(a, id) + DataFor(b, id)
  {
    if b == [] {
      assert a + b == a;
    } else {
      var b', last := b[..|b| - 1], b[|b| - 1];
      DataForConcat(a, b', id);
      assert a + b == (a + b') + [last] && b == b' + [last];
      DataForAppend(a + b', last, id);
      DataForAppend(b', last, id);
      Associative(DataFor(a, id), DataFor(b', id), if last.Data? then [last.payload] else []);
    }
  }

  lemma OpenedOnceAppend(log: seq<Frame>, frame: Frame)
    requires OpenedOnce(log) && (frame.Open? ==> frame !in log) && (frame.Data? ==> Open(frame.id) in log)
    ensures OpenedOnce(log + [frame])
  {
    assert (log + [frame])[..|log|] == log;
  }

  lemma {:induction false} OpenedOncePrefix(a: seq<Frame>, b: seq<Frame>)
    requires OpenedOnce(a + b)
    ensures OpenedOnce(a)
  {
    if b == [] {
      assert a + b == a;
    } else {
      assert (a + b)[..|a + b| - 1] == a + b[..|b| - 1];
      OpenedOncePrefix(a, b[..|b| - 1]);
    }
  }

  lemma {:induction false} NothingBeforeOpen(log: seq<Frame>, id: string)
    requires OpenedOnce(log) && Open(id) !in log
    ensures DataFor(log, id) == []
  {
    if log != [] {
      NothingBeforeOpen(log[..|log| - 1], id);
    }
  }

  lemma SubsequenceAppend(a: seq<Payload>, b: seq<Payload>, p: Payload)
    requires Subsequence(a, b)
    ensures Subsequence(a, b + [p]) && Subsequence(a + [p], b + [p])
  {
    assert (b + [p])[..|b|] == b && (a + [p])[..|a|] == a;
  }


  // ----- What every step keeps

  ghost predicate IsStream(id: string, count: nat) {
    exists n: nat :: n < count && Id(n) == id
  }

  /** What is sent for a stream is what was read from its client, up to the first message refused. */
  ghost predicate UpstreamOf(n: nat, opening: Opening, forwarder: Forwarder, read: seq<Payload>, sent: seq<Frame>) {
    && (Open(Id(n)) in sent <==> opening.Sent?)
    && (!opening.Sent? ==> forwarder.Idle?)
    && DataFor(sent, Id(n)) <= read
    && (!forwarder.Stopped? ==> DataFor(sent, Id(n)) == read)
  }

  ghost predicate Upstream(objects: seq<Stream>, logs: seq<Log>, sent: seq<Frame>) {
    && |logs| == |objects|
    && OpenedOnce(sent)
    && (forall frame :: frame in sent ==> IsStream(frame.id, |objects|))
    && (forall n :: 0 <= n < |objects| ==> UpstreamOf(n, objects[n].opening, objects[n].forwarder, logs[n].read, sent))
  }

  /** A peer handles what arrives for it until it is removed, and is never added twice. */
  ghost predicate PeerOf(h: Host, id: string) {
    && (id in h.members ==> Open(id) in h.received)
    && (id in h.peers && id != DIRECT ==> id in h.members && DataFor(h.handled, id) == DataFor(h.received, id))
    && DataFor(h.handled, id) <= DataFor(h.received, id)
  }

  ghost predicate PeersKept(h: Host) {
    DIRECT in h.peers && |h.peers| <= 1 + MAX_LOGICAL_PEERS && forall id :: PeerOf(h, id)
  }

  ghost predicate Downstream(h: Host) {
    && |h.outgoing| <= OUTGOING
    && (forall frame :: frame in h.replies ==> !frame.Data?)
    && (forall frame :: frame in h.accepted && frame.Data? ==> frame.id in h.members)
    && (forall id :: Subsequence(DataFor(h.accepted, id), DataFor(h.emitted, id)))
  }

  ghost predicate Wires(s: System) {
    && s.host.received + s.toHost + s.server.writeQueue == s.sent
    && s.arrived + s.toServer + s.host.outgoing == s.host.accepted
  }

  predicate IsRegistered(streams: map<string, nat>, n: nat) {
    Id(n) in streams && streams[Id(n)] == n
  }

  function InHand(reader: Reader, n: nat): seq<Payload> {
    if reader.Holding? && reader.n == n && reader.frame.Data? then [reader.frame.payload] else []
  }

  /** A stream's queue never skips a payload: it falls behind what arrives only once it is unregistered. */
  ghost predicate ReceivedInOrder(streams: map<string, nat>, reader: Reader, n: nat, log: Log, queue: seq<Payload>, arrived: seq<Frame>) {
    && log.delivered + queue == log.pushed
    && |queue| <= STREAM_QUEUE
    && log.pushed + InHand(reader, n) <= DataFor(arrived, Id(n))
    && (IsRegistered(streams, n) ==> log.pushed + InHand(reader, n) == DataFor(arrived, Id(n)))
  }

  ghost predicate RegisteredAreLive(server: Server) {
    && |server.streams| <= MAX_STREAMS
    && forall id :: id in server.streams ==>
                      var n := server.streams[id];
                      n < |server.objects| && Id(n) == id && server.objects[n].phase.Live?
  }

  predicate ReaderKept(server: Server, reader: Reader) {
    match reader
    case Waiting => true
    case Holding(n, frame) => n < |server.objects| && frame.id == Id(n)
    case Closing(n) => n < |server.objects| && !server.objects[n].phase.Live?
  }

  ghost predicate Received(server: Server, reader: Reader, logs: seq<Log>, arrived: seq<Frame>) {
    && |logs| == |server.objects|
    && RegisteredAreLive(server)
    && ReaderKept(server, reader)
    && forall n :: 0 <= n < |logs| ==> ReceivedInOrder(server.streams, reader, n, logs[n], server.objects[n].queue, arrived)
  }

  ghost predicate Inv(s: System) {
    && Upstream(s.server.objects, s.logs, s.sent)
    && |s.server.writeQueue| <= WRITE_QUEUE
    && PeersKept(s.host)
    && Downstream(s.host)
    && Wires(s)
    && Received(s.server, s.reader, s.logs, s.arrived)
  }

  /** Opening a stream: nothing was sent, handled or received under an id that was not used before. */
  lemma FreshId(s: System)
    requires Inv(s) && |s.server.objects| < UINT64
    ensures var id := Id(|s.server.objects|);
            Open(id) !in s.sent && DataFor(s.sent, id) == [] && DataFor(s.arrived, id) == []
  {
    var count := |s.server.objects|;
    var id := Id(count);
    forall n: nat | n < count
      ensures Id(n) != id
    {
      IdIsInjective(n, count);
    }
    assert !IsStream(id, count);
    assert Open(id) !in s.sent;
    NothingBeforeOpen(s.sent, id);
    NoDataForStrangers(s, id);
  }

  lemma NoDataForStrangers(s: System, id: string)
    requires Inv(s) && Open(id) !in s.sent
    ensures DataFor(s.arrived, id) == []
  {
    assert PeerOf(s.host, id);
    Associative(s.host.received, s.toHost, s.server.writeQueue);
    assert id !in s.host.members;
    Associative(s.arrived, s.toServer, s.host.outgoing);
    NoData(s.arrived, id);
  }

  lemma {:induction false} NoData(log: seq<Frame>, id: string)
    requires forall frame :: frame in log && frame.Data? ==> frame.id != id
    ensures DataFor(log, id) == []
  {
    if log != [] {
      NoData(log[..|log| - 1], id);
    }
  }

  lemma MoreStreams(id: string, count: nat)
    requires IsStream(id, count)
    ensures IsStream(id, count + 1)
  {
    var n: nat :| n < count && Id(n) == id;
    assert n < count + 1;
  }

  lemma OpensKeepsUpstream(objects: seq<Stream>, logs: seq<Log>, sent: seq<Frame>, log: Log)
    requires Upstream(objects, logs, sent) && log.read == []
    requires Open(Id(|objects|)) !in sent && DataFor(sent, Id(|objects|)) == []
    ensures Upstream(objects + [NEW_STREAM], logs + [log], sent)
  {
    var objects', logs' := objects + [NEW_STREAM], logs + [log];
    forall frame | frame in sent
      ensures IsStream(frame.id, |objects'|)
    {
      MoreStreams(frame.id, |objects|);
    }
    forall n | 0 <= n < |objects'|
      ensures UpstreamOf(n, objects'[n].opening, objects'[n].forwarder, logs'[n].read, sent)
    {
      if n < |objects| {
        assert UpstreamOf(n, objects[n].opening, objects[n].forwarder, logs[n].read, sent);
      }
    }
  }

  lemma OneMoreRegistered(streams: map<string, nat>, id: string, n: nat)
    requires |streams| < MAX_STREAMS
    ensures |streams[id := n]| <= MAX_STREAMS
  {
    assert streams[id := n].Keys == streams.Keys + {id};
  }

  lemma OpensKeepsReceived(server: Server, reader: Reader, logs: seq<Log>, arrived: seq<Frame>)
    requires Received(server, reader, logs, arrived) && |server.streams| < MAX_STREAMS
    requires DataFor(arrived, Id(|server.objects|)) == []
    ensures Received(Registered(server), reader, logs + [Log([], [], [])], arrived)
  {
    var server', logs' := Registered(server), logs + [Log([], [], [])];
    OneMoreRegistered(server.streams, Id(|server.objects|), |server.objects|);
    forall n | 0 <= n < |logs'|
      ensures ReceivedInOrder(server'.streams, reader, n, logs'[n], server'.objects[n].queue, arrived)
    {
      if n < |logs| {
        assert ReceivedInOrder(server.streams, reader, n, logs[n], server.objects[n].queue, arrived);
      }
    }
  }

  lemma OpensKeeps(s: System, s': System)
    requires Inv(s) && OpensStep(s, s') && |s'.server.objects| <= UINT64
    ensures Inv(s')
  {
    FreshId(s);
    OpensKeepsUpstream(s.server.objects, s.logs, s.sent, Log([], [], []));
    OpensKeepsReceived(s.server, s.reader, s.logs, s.arrived);
  }

  /** A change to one object that its uplink does not show. */
  lemma UpstreamIgnores(objects: seq<Stream>, logs: seq<Log>, sent: seq<Frame>, n: nat, stream: Stream, log: Log)
    requires Upstream(objects, logs, sent) && n < |objects|
    requires stream.opening == objects[n].opening && stream.forwarder == objects[n].forwarder && log.read == logs[n].read
    ensures Upstream(objects[n := stream], logs[n := log], sent)
  {
    var objects', logs' := objects[n := stream], logs[n := log];
    forall m | 0 <= m < |objects|
      ensures UpstreamOf(m, objects'[m].opening, objects'[m].forwarder, logs'[m].read, sent)
    {
      assert UpstreamOf(m, objects[m].opening, objects[m].forwarder, logs[m].read, sent);
    }
  }

  /** A change to one object that its downlink does not show. */
  lemma ReceivedIgnores(server: Server, reader: Reader, logs: seq<Log>, arrived: seq<Frame>, n: nat, stream: Stream, log: Log, writeQueue: seq<Frame>)
    requires Received(server, reader, logs, arrived) && n < |logs|
    requires stream.phase.Live? == server.objects[n].phase.Live? && stream.queue == server.objects[n].queue
    requires log.pushed == logs[n].pushed && log.delivered == logs[n].delivered
    ensures Received(WithStream(server, n, stream).(writeQueue := writeQueue), reader, logs[n := log], arrived)
  {
    var objects', logs' := server.objects[n := stream], logs[n := log];
    forall m | 0 <= m < |logs|
      ensures ReceivedInOrder(server.streams, reader, m, logs'[m], objects'[m].queue, arrived)
    {
      assert ReceivedInOrder(server.streams, reader, m, logs[m], server.objects[m].queue, arrived);
    }
  }

  lemma PostedKeepsWires(s: System, frame: Frame, ok: bool)
    requires Wires(s) && |s.server.writeQueue| <= WRITE_QUEUE && CanSend(s.server, ok)
    ensures Wires(Posted(s, frame, ok)) && |Posted(s, frame, ok).server.writeQueue| <= WRITE_QUEUE
  {
    if ok {
      Associative(s.host.received + s.toHost, s.server.writeQueue, [frame]);
    }
  }

  /** A frame sent for one stream, with what changes about that stream. */
  lemma UpstreamPosts(objects: seq<Stream>, logs: seq<Log>, sent: seq<Frame>, n: nat, stream: Stream, log: Log, frame: Frame)
    requires Upstream(objects, logs, sent) && n < |objects| <= UINT64
    requires frame.id == Id(n) && (frame.Open? ==> frame !in sent) && (frame.Data? ==> Open(frame.id) in sent)
    requires UpstreamOf(n, stream.opening, stream.forwarder, log.read, sent + [frame])
    ensures Upstream(objects[n := stream], logs[n := log], sent + [frame])
  {
    var objects', logs' := objects[n := stream], logs[n := log];
    OpenedOnceAppend(sent, frame);
    assert IsStream(frame.id, |objects|);
    forall m | 0 <= m < |objects|
      ensures UpstreamOf(m, objects'[m].opening, objects'[m].forwarder, logs'[m].read, sent + [frame])
    {
      if m != n {
        assert UpstreamOf(m, objects[m].opening, objects[m].forwarder, logs[m].read, sent);
        IdIsInjective(m, n);
        DataForAppend(sent, frame, Id(m));
      }
    }
  }

  lemma UpstreamChanges(objects: seq<Stream>, logs: seq<Log>, sent: seq<Frame>, n: nat, stream: Stream, log: Log)
    requires Upstream(objects, logs, sent) && n < |objects|
    requires UpstreamOf(n, stream.opening, stream.forwarder, log.read, sent)
    ensures Upstream(objects[n := stream], logs[n := log], sent)
  {
    var objects', logs' := objects[n := stream], logs[n := log];
    forall m | 0 <= m < |objects|
      ensures UpstreamOf(m, objects'[m].opening, objects'[m].forwarder, logs'[m].read, sent)
    {
      if m != n {
        assert UpstreamOf(m, objects[m].opening, objects[m].forwarder, logs[m].read, sent);
      }
    }
  }

  lemma SendsOpenKeeps(s: System, n: nat, ok: bool, s': System)
    requires Inv(s) && SendsOpenStep(s, n, ok, s') && |s'.server.objects| <= UINT64
    ensures Inv(s')
  {
    var stream := s.server.objects[n].(opening := if ok then Sent else Failed);
    assert UpstreamOf(n, Unsent, s.server.objects[n].forwarder, s.logs[n].read, s.sent);
    assert s.logs[n := s.logs[n]] == s.logs;
    ReceivedIgnores(s.server, s.reader, s.logs, s.arrived, n, stream, s.logs[n], s'.server.writeQueue);
    PostedKeepsWires(Stored(s, n, stream), Open(Id(n)), ok);
    if ok {
      DataForAppend(s.sent, Open(Id(n)), Id(n));
      UpstreamPosts(s.server.objects, s.logs, s.sent, n, stream, s.logs[n], Open(Id(n)));
    } else {
      UpstreamChanges(s.server.objects, s.logs, s.sent, n, stream, s.logs[n]);
    }
  }

  lemma ForwarderKeeps(s: System, n: nat, s': System)
    requires Inv(s) && (StartsForwardingStep(s, n, s') || StopsForwardingStep(s, n, s'))
    ensures Inv(s')
  {
    var stream := s'.server.objects[n];
    assert UpstreamOf(n, s.server.objects[n].opening, s.server.objects[n].forwarder, s.logs[n].read, s.sent);
    assert s.logs[n := s.logs[n]] == s.logs;
    ReceivedIgnores(s.server, s.reader, s.logs, s.arrived, n, stream, s.logs[n], s.server.writeQueue);
    UpstreamChanges(s.server.objects, s.logs, s.sent, n, stream, s.logs[n]);
  }

  lemma ForwardsKeeps(s: System, n: nat, message: Payload, ok: bool, s': System)
    requires Inv(s) && ForwardsStep(s, n, message, ok, s') && |s'.server.objects| <= UINT64
    ensures Inv(s')
  {
    var stream := s.server.objects[n].(forwarder := if ok then Running else Stopped);
    var log := s.logs[n].(read := s.logs[n].read + [message]);
    assert UpstreamOf(n, s.server.objects[n].opening, Running, s.logs[n].read, s.sent);
    ReceivedIgnores(s.server, s.reader, s.logs, s.arrived, n, stream, log, s'.server.writeQueue);
    PostedKeepsWires(Stored(s, n, stream), Data(Id(n), message), ok);
    if ok {
      DataForAppend(s.sent, Data(Id(n), message), Id(n));
      UpstreamPosts(s.server.objects, s.logs, s.sent, n, stream, log, Data(Id(n), message));
    } else {
      UpstreamChanges(s.server.objects, s.logs, s.sent, n, stream, log);
    }
  }

  lemma SendsCloseKeeps(s: System, n: nat, ok: bool, s': System)
    requires Inv(s) && SendsCloseStep(s, n, ok, s') && |s'.server.objects| <= UINT64
    ensures Inv(s')
  {
    var stream := s.server.objects[n].(phase := Done(false));
    assert UpstreamOf(n, stream.opening, stream.forwarder, s.logs[n].read, s.sent);
    assert s.logs[n := s.logs[n]] == s.logs;
    ReceivedIgnores(s.server, s.reader, s.logs, s.arrived, n, stream, s.logs[n], s'.server.writeQueue);
    PostedKeepsWires(Stored(s, n, stream), Close(Id(n)), ok);
    if ok {
      DataForAppend(s.sent, Close(Id(n)), Id(n));
      UpstreamPosts(s.server.objects, s.logs, s.sent, n, stream, s.logs[n], Close(Id(n)));
    } else {
      UpstreamChanges(s.server.objects, s.logs, s.sent, n, stream, s.logs[n]);
    }
  }

  /** Unregistering a stream takes a promise away and gives none. */
  lemma UnregisteringKeepsOrder(streams: map<string, nat>, gone: set<string>, reader: Reader, n: nat, log: Log, queue: seq<Payload>, arrived: seq<Frame>)
    requires ReceivedInOrder(streams, reader, n, log, queue, arrived)
    ensures ReceivedInOrder(streams - gone, reader, n, log, queue, arrived)
  {
  }

  lemma UnregisteringKeepsBound(streams: map<string, nat>, gone: set<string>)
    ensures |streams - gone| <= |streams|
  {
    assert (streams - gone).Keys <= streams.Keys;
    SubsetIsSmaller((streams - gone).Keys, streams.Keys);
  }

  lemma CloseStartedKeepsRegistered(server: Server, n: nat, notify: bool)
    requires RegisteredAreLive(server) && n < |server.objects|
    ensures RegisteredAreLive(CloseStarted(server, n, notify))
  {
    UnregisteringKeepsBound(server.streams, {Id(n)});
  }

  lemma CloseStartedKeepsOrder(server: Server, reader: Reader, logs: seq<Log>, arrived: seq<Frame>, n: nat, notify: bool, m: nat)
    requires n < |server.objects| && m < |server.objects| == |logs|
    requires ReceivedInOrder(server.streams, reader, m, logs[m], server.objects[m].queue, arrived)
    ensures ReceivedInOrder(CloseStarted(server, n, notify).streams, reader, m, logs[m], CloseStarted(server, n, notify).objects[m].queue, arrived)
  {
    UnregisteringKeepsOrder(server.streams, {Id(n)}, reader, m, logs[m], server.objects[m].queue, arrived);
  }

  lemma CloseStartedKeeps(server: Server, reader: Reader, logs: seq<Log>, arrived: seq<Frame>, n: nat, notify: bool)
    requires Received(server, reader, logs, arrived) && n < |logs|
    ensures Received(CloseStarted(server, n, notify), reader, logs, arrived)
  {
    CloseStartedKeepsRegistered(server, n, notify);
    var server' := CloseStarted(server, n, notify);
    forall m | 0 <= m < |logs|
      ensures ReceivedInOrder(server'.streams, reader, m, logs[m], server'.objects[m].queue, arrived)
    {
      CloseStartedKeepsOrder(server, reader, logs, arrived, n, notify, m);
    }
  }

  lemma CloseStartedKeepsUpstream(server: Server, logs: seq<Log>, sent: seq<Frame>, n: nat, notify: bool)
    requires Upstream(server.objects, logs, sent) && n < |server.objects|
    ensures Upstream(CloseStarted(server, n, notify).objects, logs, sent)
  {
    assert logs[n := logs[n]] == logs;
    if server.objects[n].phase.Live? {
      UpstreamIgnores(server.objects, logs, sent, n, server.objects[n].(phase := Removed(notify)), logs[n]);
    }
  }

  lemma StartsCloseKeeps(s: System, n: nat, notify: bool, s': System)
    requires Inv(s) && StartsCloseStep(s, n, notify, s')
    ensures Inv(s')
  {
    CloseStartedKeeps(s.server, s.reader, s.logs, s.arrived, n, notify);
    CloseStartedKeepsUpstream(s.server, s.logs, s.sent, n, notify);
  }

  lemma FinishesCloseKeeps(s: System, n: nat, s': System)
    requires Inv(s) && FinishesCloseStep(s, n, s')
    ensures Inv(s')
  {
    assert s.logs[n := s.logs[n]] == s.logs;
    UpstreamIgnores(s.server.objects, s.logs, s.sent, n, s'.server.objects[n], s.logs[n]);
    ReceivedIgnores(s.server, s.reader, s.logs, s.arrived, n, s'.server.objects[n], s.logs[n], s.server.writeQueue);
  }

  lemma DeliversKeepsOrder(streams: map<string, nat>, reader: Reader, n: nat, log: Log, queue: seq<Payload>, arrived: seq<Frame>)
    requires ReceivedInOrder(streams, reader, n, log, queue, arrived) && queue != []
    ensures ReceivedInOrder(streams, reader, n, log.(delivered := log.delivered + [queue[0]]), queue[1..], arrived)
  {
    assert queue == [queue[0]] + queue[1..];
    Associative(log.delivered, [queue[0]], queue[1..]);
  }

  lemma DeliversKeepsReceived(server: Server, reader: Reader, logs: seq<Log>, arrived: seq<Frame>, n: nat, stream: Stream, log: Log)
    requires Received(server, reader, logs, arrived) && n < |logs| && server.objects[n].queue != []
    requires var o := server.objects[n];
             stream == o.(queue := o.queue[1..]) && log == logs[n].(delivered := logs[n].delivered + [o.queue[0]])
    ensures Received(WithStream(server, n, stream), reader, logs[n := log], arrived)
  {
    var objects', logs' := server.objects[n := stream], logs[n := log];
    forall m | 0 <= m < |logs|
      ensures ReceivedInOrder(server.streams, reader, m, logs'[m], objects'[m].queue, arrived)
    {
      assert ReceivedInOrder(server.streams, reader, m, logs[m], server.objects[m].queue, arrived);
      if m == n {
        DeliversKeepsOrder(server.streams, reader, n, logs[n], server.objects[n].queue, arrived);
      }
    }
  }

  lemma DeliversKeeps(s: System, n: nat, s': System)
    requires Inv(s) && DeliversStep(s, n, s')
    ensures Inv(s')
  {
    UpstreamIgnores(s.server.objects, s.logs, s.sent, n, s'.server.objects[n], s'.logs[n]);
    DeliversKeepsReceived(s.server, s.reader, s.logs, s.arrived, n, s'.server.objects[n], s'.logs[n]);
  }

  lemma ServerWritesKeeps(s: System, s': System)
    requires Inv(s) && ServerWritesStep(s, s')
    ensures Inv(s')
  {
    var queue := s.server.writeQueue;
    assert queue == [queue[0]] + queue[1..];
    Associative(s.host.received, s.toHost, [queue[0]]);
    Associative(s.host.received + s.toHost, [queue[0]], queue[1..]);
    assert Received(s'.server, s'.reader, s'.logs, s'.arrived);
  }

  lemma ReadsKeepsOrder(s: System, s': System, n: nat)
    requires Inv(s) && ReadsStep(s, s') && n < |s.logs| <= UINT64
    ensures ReceivedInOrder(s'.server.streams, s'.reader, n, s'.logs[n], s'.server.objects[n].queue, s'.arrived)
  {
    var frame := s.toServer[0];
    assert ReceivedInOrder(s.server.streams, s.reader, n, s.logs[n], s.server.objects[n].queue, s.arrived);
    DataForAppend(s.arrived, frame, Id(n));
    if frame.id in s.server.streams {
      IdIsInjective(n, s.server.streams[frame.id]);
    }
  }

  lemma ReadsKeeps(s: System, s': System)
    requires Inv(s) && ReadsStep(s, s') && |s'.server.objects| <= UINT64
    ensures Inv(s')
  {
    forall n | 0 <= n < |s.logs|
      ensures ReceivedInOrder(s'.server.streams, s'.reader, n, s'.logs[n], s'.server.objects[n].queue, s'.arrived)
    {
      ReadsKeepsOrder(s, s', n);
    }
    assert s.toServer == [s.toServer[0]] + s.toServer[1..];
    Associative(s.arrived, [s.toServer[0]], s.toServer[1..]);
  }

  /** The reader lets go of a frame that no registered stream is owed. */
  lemma LetsGo(server: Server, reader: Reader, logs: seq<Log>, arrived: seq<Frame>, reader': Reader)
    requires Received(server, reader, logs, arrived) && reader.Holding? && !reader'.Holding? && ReaderKept(server, reader')
    requires reader.frame.Data? ==> !server.objects[reader.n].phase.Live?
    ensures Received(server, reader', logs, arrived)
  {
    forall n | 0 <= n < |logs|
      ensures ReceivedInOrder(server.streams, reader', n, logs[n], server.objects[n].queue, arrived)
    {
      assert ReceivedInOrder(server.streams, reader, n, logs[n], server.objects[n].queue, arrived);
    }
  }

  lemma ActsOnControlKeeps(s: System, s': System)
    requires Inv(s) && ActsOnControlStep(s, s')
    ensures Inv(s')
  {
    var n := s.reader.n;
    assert s.logs[n := s.logs[n]] == s.logs;
    LetsGo(s.server, s.reader, s.logs, s.arrived, Waiting);
    match s.reader.frame
    case Opened(_) =>
      UpstreamIgnores(s.server.objects, s.logs, s.sent, n, s'.server.objects[n], s.logs[n]);
      ReceivedIgnores(s.server, Waiting, s.logs, s.arrived, n, s'.server.objects[n], s.logs[n], s.server.writeQueue);
    case Close(_) =>
      CloseStartedKeepsUpstream(s.server, s.logs, s.sent, n, false);
      CloseStartedKeeps(s.server, s.reader, s.logs, s.arrived, n, false);
      LetsGo(s'.server, s.reader, s.logs, s.arrived, s'.reader);
    case Open(_) =>
  }

  lemma PushKeepsReceived(server: Server, reader: Reader, logs: seq<Log>, arrived: seq<Frame>, n: nat, stream: Stream, log: Log)
    requires Received(server, reader, logs, arrived) && n < |logs| && reader.Holding? && reader.n == n && reader.frame.Data?
    requires var o := server.objects[n];
             && |o.queue| < STREAM_QUEUE
             && stream == o.(queue := o.queue + [reader.frame.payload])
             && log == logs[n].(pushed := logs[n].pushed + [reader.frame.payload])
    ensures Received(WithStream(server, n, stream), Waiting, logs[n := log], arrived)
  {
    var objects', logs' := server.objects[n := stream], logs[n := log];
    forall m | 0 <= m < |logs|
      ensures ReceivedInOrder(server.streams, Waiting, m, logs'[m], objects'[m].queue, arrived)
    {
      assert ReceivedInOrder(server.streams, reader, m, logs[m], server.objects[m].queue, arrived);
    }
  }

  lemma PushKeeps(s: System, s': System)
    requires Inv(s) && RoutesStep(s, Push, s')
    ensures Inv(s')
  {
    var n := s.reader.n;
    UpstreamIgnores(s.server.objects, s.logs, s.sent, n, s'.server.objects[n], s'.logs[n]);
    PushKeepsReceived(s.server, s.reader, s.logs, s.arrived, n, s'.server.objects[n], s'.logs[n]);
  }

  lemma RoutesKeeps(s: System, routing: Routing, s': System)
    requires Inv(s) && RoutesStep(s, routing, s')
    ensures Inv(s')
  {
    match routing
    case Push => PushKeeps(s, s');
    case Skip => LetsGo(s.server, s.reader, s.logs, s.arrived, Waiting);
    case Overflow =>
      CloseStartedKeepsUpstream(s.server, s.logs, s.sent, s.reader.n, true);
      CloseStartedKeeps(s.server, s.reader, s.logs, s.arrived, s.reader.n, true);
      LetsGo(s'.server, s.reader, s.logs, s.arrived, s'.reader);
  }

  lemma ResumesKeeps(s: System, s': System)
    requires Inv(s) && ResumesStep(s, s')
    ensures Inv(s')
  {
    forall n | 0 <= n < |s.logs|
      ensures ReceivedInOrder(s'.server.streams, s'.reader, n, s'.logs[n], s'.server.objects[n].queue, s'.arrived)
    {
      assert ReceivedInOrder(s.server.streams, s.reader, n, s.logs[n], s.server.objects[n].queue, s.arrived);
    }
  }

  lemma TakesStreamsKeeps(s: System, s': System)
    requires Inv(s) && s' == s.(server := s.server.(streams := map[]))
    ensures Inv(s')
  {
    forall n | 0 <= n < |s.logs|
      ensures ReceivedInOrder(s'.server.streams, s'.reader, n, s'.logs[n], s'.server.objects[n].queue, s'.arrived)
    {
      assert ReceivedInOrder(s.server.streams, s.reader, n, s.logs[n], s.server.objects[n].queue, s.arrived);
    }
  }

  lemma ServerClosesKeeps(s: System, s': System)
    requires Inv(s) && s' == s.(server := s.server.(closed := true))
    ensures Inv(s')
  {
    assert Received(s'.server, s'.reader, s'.logs, s'.arrived);
  }

  lemma HostReadsKeepsPeer(h: Host, frame: Frame, id: string)
    requires PeerOf(h, id) && OpenedOnce(h.received) && (frame.Open? ==> frame !in h.received) && frame.id != DIRECT
    ensures PeerOf(HostAfter(h, frame), id)
  {
    DataForAppend(h.received, frame, id);
    if frame.Data? {
      DataForAppend(h.handled, frame, id);
    } else if frame == Open(id) {
      NothingBeforeOpen(h.received, id);
    }
  }

  /** The next frame the host reads, in the light of all that was sent. */
  lemma NextForHost(s: System, frame: Frame)
    requires Inv(s) && s.toHost != [] && frame == s.toHost[0]
    ensures OpenedOnce(s.host.received) && (frame.Open? ==> frame !in s.host.received) && frame.id != DIRECT
    ensures (s.host.received + [frame]) + s.toHost[1..] + s.server.writeQueue == s.sent
  {
    var received, rest := s.host.received, s.toHost[1..] + s.server.writeQueue;
    assert s.toHost == [frame] + s.toHost[1..];
    Associative(received, [frame], s.toHost[1..]);
    Associative(received + [frame], s.toHost[1..], s.server.writeQueue);
    OpenedOncePrefix(received + [frame], rest);
    assert (received + [frame])[..|received|] == received;
    assert s.sent[|received|] == frame;
    assert IsStream(frame.id, |s.server.objects|);
    var n: nat :| Id(n) == frame.id;
    IdIsNeverDirect(n);
  }

  lemma HostReadsKeeps(s: System, s': System)
    requires Inv(s) && HostReadsStep(s, s')
    ensures Inv(s')
  {
    var h, frame := s.host, s.toHost[0];
    NextForHost(s, frame);
    PeersStayBounded(h.peers, frame);
    forall id
      ensures PeerOf(s'.host, id)
    {
      assert PeerOf(h, id);
      HostReadsKeepsPeer(h, frame, id);
    }
    assert Downstream(s'.host);
  }

  lemma EnqueuedKeeps(s: System, h: Host, frame: Frame, s': System)
    requires Inv(s) && s' == s.(host := Enqueued(h, frame))
    requires h.peers == s.host.peers && h.members == s.host.members && h.received == s.host.received && h.handled == s.host.handled
    requires h.outgoing == s.host.outgoing && h.accepted == s.host.accepted
    requires forall reply :: reply in h.replies ==> !reply.Data?
    requires forall id :: Subsequence(DataFor(Enqueued(h, frame).accepted, id), DataFor(h.emitted, id))
    requires frame.Data? ==> frame.id in h.members
    ensures Inv(s')
  {
    forall id
      ensures PeerOf(s'.host, id)
    {
      assert PeerOf(s.host, id);
    }
    Associative(s.arrived + s.toServer, h.outgoing, [frame]);
    assert Wires(s');
  }

  lemma HostRepliesKeeps(s: System, s': System)
    requires Inv(s) && HostRepliesStep(s, s')
    ensures Inv(s')
  {
    var h, frame := s.host.(replies := s.host.replies[1..]), s.host.replies[0];
    forall id
      ensures Subsequence(DataFor(Enqueued(h, frame).accepted, id), DataFor(h.emitted, id))
    {
      DataForAppend(h.accepted, frame, id);
    }
    EnqueuedKeeps(s, h, frame, s');
  }

  /** Whether or not an emitted frame is accepted, what was accepted stays part of what was emitted. */
  lemma EmittedKeeps(accepted: seq<Frame>, emitted: seq<Frame>, id: string, payload: Payload, other: string)
    requires Subsequence(DataFor(accepted, other), DataFor(emitted, other))
    ensures Subsequence(DataFor(accepted, other), DataFor(emitted + [Data(id, payload)], other))
    ensures Subsequence(DataFor(accepted + [Data(id, payload)], other), DataFor(emitted + [Data(id, payload)], other))
  {
    DataForAppend(accepted, Data(id, payload), other);
    DataForAppend(emitted, Data(id, payload), other);
    SubsequenceAppend(DataFor(accepted, other), DataFor(emitted, other), payload);
  }

  lemma HostEmitsKeeps(s: System, id: string, payload: Payload, s': System)
    requires Inv(s) && HostEmitsStep(s, id, payload, s')
    ensures Inv(s')
  {
    var frame := Data(id, payload);
    var h := s.host.(emitted := s.host.emitted + [frame]);
    forall other
      ensures Subsequence(DataFor(Enqueued(h, frame).accepted, other), DataFor(h.emitted, other))
    {
      EmittedKeeps(s.host.accepted, s.host.emitted, id, payload, other);
    }
    EnqueuedKeeps(s, h, frame, s');
  }

  lemma HostWritesKeeps(s: System, s': System)
    requires Inv(s) && HostWritesStep(s, s')
    ensures Inv(s')
  {
    var queue := s.host.outgoing;
    assert queue == [queue[0]] + queue[1..];
    Associative(s.arrived, s.toServer, [queue[0]]);
    Associative(s.arrived + s.toServer, [queue[0]], queue[1..]);
    forall id
      ensures PeerOf(s'.host, id)
    {
      assert PeerOf(s.host, id);
    }
  }

  lemma DropsPeersKeeps(s: System, s': System)
    requires Inv(s) && s' == s.(host := s.host.(peers := s.host.peers * {DIRECT}, serving := false))
    ensures Inv(s')
  {
    SubsetIsSmaller(s'.host.peers, s.host.peers);
    forall id
      ensures PeerOf(s'.host, id)
    {
      assert PeerOf(s.host, id);
    }
  }

  lemma HostClosesKeeps(s: System, s': System)
    requires Inv(s) && s' == s.(host := s.host.(closed := true))
    ensures Inv(s')
  {
    forall id
      ensures PeerOf(s'.host, id)
    {
      assert PeerOf(s.host, id);
    }
  }

  lemma StepKeeps(s: System, step: Step, s': System)
    requires Inv(s) && Next(s, step, s') && |s'.server.objects| <= UINT64
    ensures Inv(s')
  {
    match step
    case Opens => OpensKeeps(s, s');
    case SendsOpen(n, ok) => SendsOpenKeeps(s, n, ok, s');
    case StartsForwarding(n) => ForwarderKeeps(s, n, s');
    case StopsForwarding(n) => ForwarderKeeps(s, n, s');
    case Forwards(n, message, ok) => ForwardsKeeps(s, n, message, ok, s');
    case StartsClose(n, notify) => StartsCloseKeeps(s, n, notify, s');
    case FinishesClose(n) => FinishesCloseKeeps(s, n, s');
    case SendsClose(n, ok) => SendsCloseKeeps(s, n, ok, s');
    case Delivers(n) => DeliversKeeps(s, n, s');
    case ServerWrites => ServerWritesKeeps(s, s');
    case Reads => ReadsKeeps(s, s');
    case ActsOnControl => ActsOnControlKeeps(s, s');
    case Routes(routing) => RoutesKeeps(s, routing, s');
    case Resumes => ResumesKeeps(s, s');
    case ServerCloses => ServerClosesKeeps(s, s');
    case TakesStreams => TakesStreamsKeeps(s, s');
    case HostReads => HostReadsKeeps(s, s');
    case HostReplies => HostRepliesKeeps(s, s');
    case HostEmits(id, payload) => HostEmitsKeeps(s, id, payload, s');
    case HostWrites => HostWritesKeeps(s, s');
    case DropsPeers => DropsPeersKeeps(s, s');
    case HostCloses => HostClosesKeeps(s, s');
  }

  lemma {:induction false} RunKeeps(states: seq<System>, steps: seq<Step>, n: nat)
    requires IsRun(states, steps) && n <= |steps| && |states[n].server.objects| <= UINT64
    ensures Inv(states[n])
  {
    if n == 0 {
      forall id
        ensures PeerOf(START.host, id)
      {
        assert START.host.received == [];
      }
    } else {
      var k := n - 1;
      assert Next(states[k], steps[k], states[k + 1]);
      StreamsOnlyGrow(states[k], steps[k], states[n]);
      RunKeeps(states, steps, k);
      StepKeeps(states[k], steps[k], states[n]);
    }
  }

  lemma StreamsOnlyGrow(s: System, step: Step, s': System)
    requires Next(s, step, s')
    ensures |s.server.objects| <= |s'.server.objects|
  {
    match step
    case SendsOpen(_, _) =>
    case Forwards(_, _, _) =>
    case SendsClose(_, _) =>
    case ActsOnControl =>
    case Routes(_) =>
    case _ =>
  }

  // ----- What every run promises

  /** What a workbench client is given is, without gaps, the start of what the host queued for the peer of
      the same stream; that in turn was emitted by that peer, in order. */
  lemma ClientSeesItsPeer(states: seq<System>, steps: seq<Step>, k: nat, n: nat)
    requires IsRun(states, steps) && k <= |steps| && n < |states[k].logs| && |states[k].server.objects| <= UINT64
    ensures var s, id := states[k], Id(n);
            && s.logs[n].delivered <= s.logs[n].pushed <= DataFor(s.arrived, id) <= DataFor(s.host.accepted, id)
            && Subsequence(DataFor(s.host.accepted, id), DataFor(s.host.emitted, id))
  {
    RunKeeps(states, steps, k);
    var s, id := states[k], Id(n);
    assert ReceivedInOrder(s.server.streams, s.reader, n, s.logs[n], s.server.objects[n].queue, s.arrived);
    Associative(s.arrived, s.toServer, s.host.outgoing);
    DataForConcat(s.arrived, s.toServer + s.host.outgoing, id);
  }

  /** What a peer handles is, without gaps, the start of what its client said. */
  lemma PeerHearsItsClient(states: seq<System>, steps: seq<Step>, k: nat, n: nat)
    requires IsRun(states, steps) && k <= |steps| && n < |states[k].logs| && |states[k].server.objects| <= UINT64
    ensures var s, id := states[k], Id(n);
            DataFor(s.host.handled, id) <= DataFor(s.host.received, id) <= DataFor(s.sent, id) <= s.logs[n].read
  {
    RunKeeps(states, steps, k);
    var s, id := states[k], Id(n);
    assert PeerOf(s.host, id);
    assert UpstreamOf(n, s.server.objects[n].opening, s.server.objects[n].forwarder, s.logs[n].read, s.sent);
    Associative(s.host.received, s.toHost, s.server.writeQueue);
    DataForConcat(s.host.received, s.toHost + s.server.writeQueue, id);
  }

  /** Nothing is ever handled for, or sent from, the direct peer or a stream the server did not open. */
  lemma EveryPeerIsAStream(states: seq<System>, steps: seq<Step>, k: nat, id: string)
    requires IsRun(states, steps) && k <= |steps| && |states[k].server.objects| <= UINT64
    requires id in states[k].host.members
    ensures IsStream(id, |states[k].server.objects|) && id != DIRECT
  {
    RunKeeps(states, steps, k);
    var s := states[k];
    assert PeerOf(s.host, id);
    Associative(s.host.received, s.toHost, s.server.writeQueue);
    assert Open(id) in s.sent;
    var n: nat :| Id(n) == id;
    IdIsNeverDirect(n);
  }

  lemma QueuesAreBounded(states: seq<System>, steps: seq<Step>, k: nat)
    requires IsRun(states, steps) && k <= |steps| && |states[k].server.objects| <= UINT64
    ensures var s := states[k];
            && |s.server.streams| <= MAX_STREAMS && |s.server.writeQueue| <= WRITE_QUEUE && |s.host.outgoing| <= OUTGOING
            && (forall n :: 0 <= n < |s.server.objects| ==> |s.server.objects[n].queue| <= STREAM_QUEUE)
            && DIRECT in s.host.peers && |s.host.peers| <= 1 + MAX_LOGICAL_PEERS
  {
    RunKeeps(states, steps, k);
    var s := states[k];
    forall n | 0 <= n < |s.server.objects|
      ensures |s.server.objects[n].queue| <= STREAM_QUEUE
    {
      assert ReceivedInOrder(s.server.streams, s.reader, n, s.logs[n], s.server.objects[n].queue, s.arrived);
    }
  }
}
