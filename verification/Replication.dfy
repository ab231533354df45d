/** Snapshot-plus-log replication from an Agent Host to its peers: critical sections in any order,
    and deliveries that happen outside the lock, late and out of order. */
module Replication {
  import opened ChannelUri
  import opened AgentHostState
  import opened Wrappers

  datatype Delivery<A> = Delivery(peer: nat, envelope: Envelope<A>)

  /** The latest snapshot of a channel that a subscribed peer still follows. */
  datatype View<C> = View(fromSeq: int, content: C)

  type Views<C> = map<(nat, Channel), View<C>>

  /** `log` is every envelope so far; a delivery is pending, then handed to the peer or dropped. */
  datatype System<C, A(==)> = System(
    host: Host<C>, log: seq<Envelope<A>>,
    pending: set<Delivery<A>>, handed: seq<Delivery<A>>, dropped: set<Delivery<A>>,
    views: Views<C>)

  datatype Step<C, A(==)> =
    | Emit(channel: Channel, action: A)
    | Deliver(delivery: Delivery<A>)
    | Drop(delivery: Delivery<A>)
    | Subscribe(peer: nat, channel: Channel)
    | Unsubscribe(peer: nat, channel: Channel)
    | Initialize(peer: nat, channels: set<Channel>)
    | Reconnect(peer: nat, channels: set<Channel>)
    | AddPeer(peer: nat, emits: bool)
    | RemovePeer(peer: nat)
    | SetEmitter(peer: nat, emits: bool)
    | CreateSession(resource: Channel, state: C, chat: C)
    | DisposeSession(resource: Channel)
    | SetApproval(resource: Channel, mode: string)
    | CreateTerminal(resource: Channel, state: C)
    | RemoveTerminal(resource: Channel)
    | UseSequence

  // ----- What a step does

  ghost function NewViews<C>(h: Host<C>, peer: nat, channels: set<Channel>): Views<C>
    requires peer in h.peers
  {
    map c | c in channels && Replicated(c) && Content(h, c).Some? && h.peers[peer].emits
      :: (peer, c) := View(h.sequence, Content(h, c).value)
  }

  ghost function ForgetChannel<C>(views: Views<C>, channel: Channel): Views<C> {
    map k | k in views && k.1 != channel :: views[k]
  }

  ghost function ForgetPeer<C>(views: Views<C>, peer: nat): Views<C> {
    map k | k in views && k.0 != peer :: views[k]
  }

  ghost function Addressed<C, A>(h: Host<C>, envelope: Envelope<A>): set<Delivery<A>> {
    set p | p in Targets(h, envelope.channel) :: Delivery(p, envelope)
  }

  ghost predicate Emits<C, A>(reduce: Reducers<C, A>, s: System<C, A>, channel: Channel, action: A, s': System<C, A>) {
    var envelope := Envelope(channel, action, s.host.sequence + 1);
    && Emitted(reduce, s.host, channel, action, s'.host)
    && s' == s.(host := s'.host, log := s.log + [envelope], pending := s.pending + Addressed(s'.host, envelope))
  }

  ghost predicate Delivers<C, A>(s: System<C, A>, d: Delivery<A>, s': System<C, A>) {
    d in s.pending && s' == s.(pending := s.pending - {d}, handed := s.handed + [d])
  }

  ghost predicate Drops<C, A>(s: System<C, A>, d: Delivery<A>, s': System<C, A>) {
    d in s.pending && s' == s.(pending := s.pending - {d}, dropped := s.dropped + {d})
  }

  ghost predicate Subscribes<C, A>(s: System<C, A>, peer: nat, channel: Channel, s': System<C, A>) {
    && peer in s.host.peers && !IsSnapshot(s.host, channel, None)
    && s' == s.(host := Subscribed(s.host, peer, s.host.peers[peer].subscriptions + {channel}),
             views := s.views + NewViews(s.host, peer, {channel}))
  }

  ghost predicate Unsubscribes<C, A>(s: System<C, A>, peer: nat, channel: Channel, s': System<C, A>) {
    && peer in s.host.peers
    && s' == s.(host := Subscribed(s.host, peer, s.host.peers[peer].subscriptions - {channel}),
             views := s.views - {(peer, channel)})
  }

  ghost predicate Initializes<C, A>(s: System<C, A>, peer: nat, channels: set<Channel>, s': System<C, A>) {
    && peer in s.host.peers && (forall c :: c in channels ==> !IsSnapshot(s.host, c, None))
    && s' == s.(host := Bumped(Subscribed(s.host, peer, s.host.peers[peer].subscriptions + channels)),
             views := s.views + NewViews(s.host, peer, channels))
  }

  ghost predicate Reconnects<C, A>(s: System<C, A>, peer: nat, channels: set<Channel>, s': System<C, A>) {
    && peer in s.host.peers && (forall c :: c in channels ==> !IsSnapshot(s.host, c, None))
    && s' == s.(host := Subscribed(s.host, peer, channels),
             views := ForgetPeer(s.views, peer) + NewViews(s.host, peer, channels))
  }

  ghost predicate AddsPeer<C, A>(s: System<C, A>, peer: nat, emits: bool, s': System<C, A>) {
    peer !in s.host.peers && s' == s.(host := s.host.(peers := s.host.peers[peer := Peer({}, emits)]))
  }

  /** A peer gets another emitter or none; what it followed over the old one is not promised any more. */
  ghost predicate SetsEmitter<C, A>(s: System<C, A>, peer: nat, emits: bool, s': System<C, A>) {
    && peer in s.host.peers
    && s' == s.(host := s.host.(peers := s.host.peers[peer := s.host.peers[peer].(emits := emits)]), views := ForgetPeer(s.views, peer))
  }

  ghost predicate RemovesPeer<C, A>(s: System<C, A>, peer: nat, s': System<C, A>) {
    s' == s.(host := s.host.(peers := s.host.peers - {peer}), views := ForgetPeer(s.views, peer))
  }

  ghost predicate CreatesSession<C, A>(s: System<C, A>, resource: Channel, state: C, chat: C, s': System<C, A>) {
    && resource.Session? && resource !in s.host.sessions
    && s' == s.(host := Bumped(WithSession(s.host, resource, state, chat)))
  }

  ghost predicate DisposesSession<C, A>(s: System<C, A>, resource: Channel, s': System<C, A>) {
    && resource.Session?
    && s' == s.(host := Bumped(WithoutSession(s.host, resource)), views := ForgetChannel(s.views, Chat(resource.id)))
  }

  ghost predicate SetsApproval<C, A>(reduce: Reducers<C, A>, s: System<C, A>, resource: Channel, mode: string, s': System<C, A>) {
    resource.Session? && s' == s.(host := WithApproval(reduce, s.host, resource, mode))
  }

  ghost predicate CreatesTerminal<C, A>(s: System<C, A>, resource: Channel, state: C, s': System<C, A>) {
    && resource.Terminal? && resource !in s.host.terminals
    && s' == s.(host := s.host.(terminals := s.host.terminals[resource := state]))
  }

  ghost predicate RemovesTerminal<C, A>(s: System<C, A>, resource: Channel, s': System<C, A>) {
    && resource.Terminal?
    && s' == s.(host := s.host.(terminals := s.host.terminals - {resource}), views := ForgetChannel(s.views, resource))
  }

  ghost predicate Next<C, A>(reduce: Reducers<C, A>, s: System<C, A>, step: Step<C, A>, s': System<C, A>) {
    match step
    case Emit(channel, action) => Emits(reduce, s, channel, action, s')
    case Deliver(d) => Delivers(s, d, s')
    case Drop(d) => Drops(s, d, s')
    case Subscribe(peer, channel) => Subscribes(s, peer, channel, s')
    case Unsubscribe(peer, channel) => Unsubscribes(s, peer, channel, s')
    case Initialize(peer, channels) => Initializes(s, peer, channels, s')
    case Reconnect(peer, channels) => Reconnects(s, peer, channels, s')
    case AddPeer(peer, emits) => AddsPeer(s, peer, emits, s')
    case RemovePeer(peer) => RemovesPeer(s, peer, s')
    case SetEmitter(peer, emits) => SetsEmitter(s, peer, emits, s')
    case CreateSession(resource, state, chat) => CreatesSession(s, resource, state, chat, s')
    case DisposeSession(resource) => DisposesSession(s, resource, s')
    case SetApproval(resource, mode) => SetsApproval(reduce, s, resource, mode, s')
    case CreateTerminal(resource, state) => CreatesTerminal(s, resource, state, s')
    case RemoveTerminal(resource) => RemovesTerminal(s, resource, s')
    case UseSequence => s' == s.(host := Bumped(s.host))
  }

  ghost function Initial<C, A>(changeset: C): System<C, A> {
    System(Host(0, map[], map[], changeset, map[]), [], {}, [], {}, map[])
  }

  ghost predicate IsRun<C(!new), A(!new)>(reduce: Reducers<C, A>, states: seq<System<C, A>>, steps: seq<Step<C, A>>) {
    |states| == |steps| + 1
    && forall i :: 0 <= i < |steps| ==> Next(reduce, states[i], steps[i], states[i + 1])
  }

  // ----- What every step keeps

  /** The envelopes of one channel after a sequence number, oldest first. */
  function Since<A>(log: seq<Envelope<A>>, channel: Channel, fromSeq: int): seq<Envelope<A>> {
    if log == [] then []
    else
      var front, last := Since(log[..|log| - 1], channel, fromSeq), log[|log| - 1];
      if last.channel == channel && last.serverSeq > fromSeq then front + [last] else front
  }

  function Fold<C, A>(reduce: Reducers<C, A>, channel: Channel, content: C, envelopes: seq<Envelope<A>>): C {
    if envelopes == [] then content
    else
      var n := |envelopes| - 1;
      Reduce(reduce, channel, Fold(reduce, channel, content, envelopes[..n]), envelopes[n].action)
  }

  ghost predicate LogOrdered<C, A(!new)>(s: System<C, A>) {
    && (forall i, j :: 0 <= i < j < |s.log| ==> s.log[i].serverSeq < s.log[j].serverSeq)
    && (forall e :: e in s.log ==> 0 < e.serverSeq <= s.host.sequence)
    && 0 <= s.host.sequence
  }

  /** Nothing is delivered that was not emitted, and nothing is delivered twice. */
  ghost predicate DeliveredOnce<C, A(!new)>(s: System<C, A>) {
    && (forall d :: d in s.pending || d in s.handed || d in s.dropped ==> d.envelope in s.log)
    && (forall d :: d in s.pending ==> d !in s.handed && d !in s.dropped)
    && (forall d :: d in s.handed ==> d !in s.dropped)
    && (forall i, j :: 0 <= i < j < |s.handed| ==> s.handed[i] != s.handed[j])
  }

  ghost predicate Accounted<C, A(!new)>(s: System<C, A>, d: Delivery<A>) {
    d in s.pending || d in s.handed || d in s.dropped
  }

  ghost predicate ViewKept<C, A(!new)>(reduce: Reducers<C, A>, s: System<C, A>, peer: nat, channel: Channel, view: View<C>) {
    && peer in s.host.peers && s.host.peers[peer].emits && channel in s.host.peers[peer].subscriptions
    && Replicated(channel) && 0 <= view.fromSeq <= s.host.sequence
    && Content(s.host, channel) == Some(Fold(reduce, channel, view.content, Since(s.log, channel, view.fromSeq)))
    && (forall e :: e in s.log && e.channel == channel && e.serverSeq > view.fromSeq ==> Accounted(s, Delivery(peer, e)))
  }

  ghost predicate Inv<C, A(!new)>(reduce: Reducers<C, A>, s: System<C, A>) {
    && WellKeyed(s.host) && LogOrdered(s) && DeliveredOnce(s)
    && (forall k :: k in s.views ==> ViewKept(reduce, s, k.0, k.1, s.views[k]))
  }

  lemma SinceEmpty<A(!new)>(log: seq<Envelope<A>>, channel: Channel, fromSeq: int)
    requires forall e :: e in log ==> e.serverSeq <= fromSeq
    ensures Since(log, channel, fromSeq) == []
  {
    if log != [] {
      SinceEmpty(log[..|log| - 1], channel, fromSeq);
    }
  }

  lemma SinceMembers<A>(log: seq<Envelope<A>>, channel: Channel, fromSeq: int, e: Envelope<A>)
    ensures e in Since(log, channel, fromSeq) <==> e in log && e.channel == channel && e.serverSeq > fromSeq
  {
    if log != [] {
      SinceMembers(log[..|log| - 1], channel, fromSeq, e);
      assert log == log[..|log| - 1] + [log[|log| - 1]];
    }
  }

  lemma SinceAppend<A>(log: seq<Envelope<A>>, e: Envelope<A>, channel: Channel, fromSeq: int)
    ensures Since(log + [e], channel, fromSeq)
         == if e.channel == channel && e.serverSeq > fromSeq then Since(log, channel, fromSeq) + [e] else Since(log, channel, fromSeq)
  {
    assert (log + [e])[..|log|] == log;
  }

  lemma FoldAppend<C, A>(reduce: Reducers<C, A>, channel: Channel, content: C, envelopes: seq<Envelope<A>>, e: Envelope<A>)
    ensures Fold(reduce, channel, content, envelopes + [e])
         == Reduce(reduce, channel, Fold(reduce, channel, content, envelopes), e.action)
  {
    assert (envelopes + [e])[..|envelopes|] == envelopes;
  }

  /** An old view that the step leaves alone. */
  ghost predicate Carried<C, A>(s: System<C, A>, s': System<C, A>, peer: nat, channel: Channel) {
    && (peer, channel) in s.views && (peer, channel) in s'.views && s'.views[(peer, channel)] == s.views[(peer, channel)]
    && peer in s'.host.peers && s'.host.peers[peer].emits && channel in s'.host.peers[peer].subscriptions
    && Content(s'.host, channel) == Content(s.host, channel)
  }

  /** A view that the step takes. */
  ghost predicate Taken<C, A>(s: System<C, A>, s': System<C, A>, peer: nat, channel: Channel) {
    && (peer, channel) in s'.views && s'.views[(peer, channel)].fromSeq == s.host.sequence
    && Replicated(channel) && Content(s'.host, channel) == Some(s'.views[(peer, channel)].content)
    && peer in s'.host.peers && s'.host.peers[peer].emits && channel in s'.host.peers[peer].subscriptions
  }

  lemma TakenIsKept<C, A(!new)>(reduce: Reducers<C, A>, s: System<C, A>, s': System<C, A>, peer: nat, channel: Channel)
    requires Inv(reduce, s) && s'.log == s.log && s'.host.sequence >= s.host.sequence
    requires Taken(s, s', peer, channel)
    ensures ViewKept(reduce, s', peer, channel, s'.views[(peer, channel)])
  {
    SinceEmpty(s.log, channel, s.host.sequence);
  }

  /** A step that emits and delivers nothing. */
  lemma QuietStep<C, A(!new)>(reduce: Reducers<C, A>, s: System<C, A>, s': System<C, A>)
    requires Inv(reduce, s) && WellKeyed(s'.host) && s'.host.sequence >= s.host.sequence
    requires s' == s.(host := s'.host, views := s'.views)
    requires forall k :: k in s'.views ==> Carried(s, s', k.0, k.1) || Taken(s, s', k.0, k.1)
    ensures Inv(reduce, s')
  {
    forall k | k in s'.views
      ensures ViewKept(reduce, s', k.0, k.1, s'.views[k])
    {
      if Carried(s, s', k.0, k.1) {
        assert ViewKept(reduce, s, k.0, k.1, s.views[k]);
      } else {
        TakenIsKept(reduce, s, s', k.0, k.1);
      }
    }
  }

  lemma EmitKeeps<C, A(!new)>(reduce: Reducers<C, A>, s: System<C, A>, channel: Channel, action: A, s': System<C, A>)
    requires Inv(reduce, s) && Emits(reduce, s, channel, action, s')
    ensures Inv(reduce, s')
  {
    var envelope := Envelope(channel, action, s.host.sequence + 1);
    var applied := s'.host.(sequence := s.host.sequence);
    AppliedKeepsKeys(reduce, s.host, channel, action, applied);
    forall k | k in s'.views
      ensures ViewKept(reduce, s', k.0, k.1, s'.views[k])
    {
      EmitKeepsView(reduce, s, channel, action, s', k.0, k.1, s.views[k]);
    }
    assert LogOrdered(s');
    assert DeliveredOnce(s');
  }

  lemma EmitKeepsReplica<C, A(!new)>(reduce: Reducers<C, A>, s: System<C, A>, channel: Channel, action: A, s': System<C, A>, c: Channel, view: View<C>)
    requires WellKeyed(s.host) && Emits(reduce, s, channel, action, s') && Replicated(c) && view.fromSeq <= s.host.sequence
    requires Content(s.host, c) == Some(Fold(reduce, c, view.content, Since(s.log, c, view.fromSeq)))
    ensures Content(s'.host, c) == Some(Fold(reduce, c, view.content, Since(s'.log, c, view.fromSeq)))
  {
    var envelope := Envelope(channel, action, s.host.sequence + 1);
    var applied := s'.host.(sequence := s.host.sequence);
    AppliedChangesOneChannel(reduce, s.host, channel, action, applied, c);
    SameChannels(applied, s'.host, c);
    SinceAppend(s.log, envelope, c, view.fromSeq);
    FoldAppend(reduce, c, view.content, Since(s.log, c, view.fromSeq), envelope);
  }

  lemma EmitKeepsView<C, A(!new)>(reduce: Reducers<C, A>, s: System<C, A>, channel: Channel, action: A, s': System<C, A>, peer: nat, c: Channel, view: View<C>)
    requires WellKeyed(s.host) && Emits(reduce, s, channel, action, s') && ViewKept(reduce, s, peer, c, view)
    ensures ViewKept(reduce, s', peer, c, view)
  {
    var envelope := Envelope(channel, action, s.host.sequence + 1);
    AppliedKeepsKeys(reduce, s.host, channel, action, s'.host.(sequence := s.host.sequence));
    EmitKeepsReplica(reduce, s, channel, action, s', c, view);
    forall e | e in s'.log && e.channel == c && e.serverSeq > view.fromSeq
      ensures Accounted(s', Delivery(peer, e))
    {
      if e in s.log {
        assert Accounted(s, Delivery(peer, e));
      } else {
        assert e == envelope && peer in Targets(s'.host, channel);
      }
    }
  }

  lemma DeliveryKeeps<C, A(!new)>(reduce: Reducers<C, A>, s: System<C, A>, d: Delivery<A>, s': System<C, A>)
    requires Inv(reduce, s)
    requires Delivers(s, d, s') || Drops(s, d, s')
    ensures Inv(reduce, s')
  {
    assert DeliveredOnce(s');
    forall k | k in s'.views
      ensures ViewKept(reduce, s', k.0, k.1, s'.views[k])
    {
      assert ViewKept(reduce, s, k.0, k.1, s.views[k]);
      forall e | e in s.log && e.channel == k.1 && e.serverSeq > s.views[k].fromSeq
        ensures Accounted(s', Delivery(k.0, e))
      {
        assert Accounted(s, Delivery(k.0, e));
      }
    }
  }

  lemma ApprovalKeepsChannels<C, A>(reduce: Reducers<C, A>, h: Host<C>, resource: Channel, mode: string, channel: Channel)
    requires WellKeyed(h) && resource.Session?
    ensures WellKeyed(WithApproval(reduce, h, resource, mode))
    ensures Content(WithApproval(reduce, h, resource, mode), channel) == Content(h, channel)
  {
  }

  lemma DisposalKeepsChannels<C>(h: Host<C>, resource: Channel, channel: Channel)
    requires WellKeyed(h) && resource.Session? && channel != Chat(resource.id)
    ensures WellKeyed(WithoutSession(h, resource))
    ensures Content(WithoutSession(h, resource), channel) == Content(h, channel)
  {
  }

  lemma SameChannels<C>(h: Host<C>, h': Host<C>, channel: Channel)
    requires h'.sessions == h.sessions && h'.terminals == h.terminals && h'.changeset == h.changeset
    ensures Content(h', channel) == Content(h, channel)
  {
  }

  ghost predicate Follows<C>(h: Host<C>, peer: nat, channel: Channel) {
    peer in h.peers && h.peers[peer].emits && channel in h.peers[peer].subscriptions
  }

  ghost predicate IsNewView<C>(h: Host<C>, channel: Channel, view: View<C>) {
    Replicated(channel) && Content(h, channel) == Some(view.content) && view.fromSeq == h.sequence
  }

  lemma NewViewsAreNew<C>(h: Host<C>, peer: nat, channels: set<Channel>, k: (nat, Channel))
    requires peer in h.peers && k in NewViews(h, peer, channels)
    ensures k.0 == peer && k.1 in channels && h.peers[peer].emits && IsNewView(h, k.1, NewViews(h, peer, channels)[k])
  {
  }

  /** A step that only changes who is subscribed to what. */
  lemma PeersStep<C, A(!new)>(reduce: Reducers<C, A>, s: System<C, A>, s': System<C, A>)
    requires Inv(reduce, s) && s'.host.sequence >= s.host.sequence
    requires s' == s.(host := s.host.(sequence := s'.host.sequence, peers := s'.host.peers), views := s'.views)
    requires forall k :: k in s'.views ==>
                           Follows(s'.host, k.0, k.1)
                           && ((k in s.views && s'.views[k] == s.views[k]) || IsNewView(s.host, k.1, s'.views[k]))
    ensures Inv(reduce, s')
  {
    forall k | k in s'.views
      ensures Carried(s, s', k.0, k.1) || Taken(s, s', k.0, k.1)
    {
      SameChannels(s.host, s'.host, k.1);
    }
    QuietStep(reduce, s, s');
  }

  lemma SubscribeKeeps<C, A(!new)>(reduce: Reducers<C, A>, s: System<C, A>, peer: nat, channel: Channel, s': System<C, A>)
    requires Inv(reduce, s) && Subscribes(s, peer, channel, s')
    ensures Inv(reduce, s')
  {
    forall k | k in s'.views
      ensures Follows(s'.host, k.0, k.1)
      ensures (k in s.views && s'.views[k] == s.views[k]) || IsNewView(s.host, k.1, s'.views[k])
    {
      if k in NewViews(s.host, peer, {channel}) {
        NewViewsAreNew(s.host, peer, {channel}, k);
      } else {
        assert ViewKept(reduce, s, k.0, k.1, s.views[k]);
      }
    }
    PeersStep(reduce, s, s');
  }

  lemma UnsubscribeKeeps<C, A(!new)>(reduce: Reducers<C, A>, s: System<C, A>, peer: nat, channel: Channel, s': System<C, A>)
    requires Inv(reduce, s) && Unsubscribes(s, peer, channel, s')
    ensures Inv(reduce, s')
  {
    forall k | k in s'.views
      ensures Follows(s'.host, k.0, k.1)
      ensures (k in s.views && s'.views[k] == s.views[k]) || IsNewView(s.host, k.1, s'.views[k])
    {
      assert ViewKept(reduce, s, k.0, k.1, s.views[k]);
    }
    PeersStep(reduce, s, s');
  }

  lemma InitializeKeeps<C, A(!new)>(reduce: Reducers<C, A>, s: System<C, A>, peer: nat, channels: set<Channel>, s': System<C, A>)
    requires Inv(reduce, s) && Initializes(s, peer, channels, s')
    ensures Inv(reduce, s')
  {
    forall k | k in s'.views
      ensures Follows(s'.host, k.0, k.1)
      ensures (k in s.views && s'.views[k] == s.views[k]) || IsNewView(s.host, k.1, s'.views[k])
    {
      if k in NewViews(s.host, peer, channels) {
        NewViewsAreNew(s.host, peer, channels, k);
      } else {
        assert ViewKept(reduce, s, k.0, k.1, s.views[k]);
      }
    }
    PeersStep(reduce, s, s');
  }

  lemma ReconnectKeeps<C, A(!new)>(reduce: Reducers<C, A>, s: System<C, A>, peer: nat, channels: set<Channel>, s': System<C, A>)
    requires Inv(reduce, s) && Reconnects(s, peer, channels, s')
    ensures Inv(reduce, s')
  {
    forall k | k in s'.views
      ensures Follows(s'.host, k.0, k.1)
      ensures (k in s.views && s'.views[k] == s.views[k]) || IsNewView(s.host, k.1, s'.views[k])
    {
      if k in NewViews(s.host, peer, channels) {
        NewViewsAreNew(s.host, peer, channels, k);
      } else {
        assert ViewKept(reduce, s, k.0, k.1, s.views[k]);
      }
    }
    PeersStep(reduce, s, s');
  }

  lemma AddPeerKeeps<C, A(!new)>(reduce: Reducers<C, A>, s: System<C, A>, peer: nat, emits: bool, s': System<C, A>)
    requires Inv(reduce, s) && AddsPeer(s, peer, emits, s')
    ensures Inv(reduce, s')
  {
    forall k | k in s'.views
      ensures Follows(s'.host, k.0, k.1)
      ensures (k in s.views && s'.views[k] == s.views[k]) || IsNewView(s.host, k.1, s'.views[k])
    {
      assert ViewKept(reduce, s, k.0, k.1, s.views[k]);
    }
    PeersStep(reduce, s, s');
  }

  lemma RemovePeerKeeps<C, A(!new)>(reduce: Reducers<C, A>, s: System<C, A>, peer: nat, s': System<C, A>)
    requires Inv(reduce, s) && RemovesPeer(s, peer, s')
    ensures Inv(reduce, s')
  {
    forall k | k in s'.views
      ensures Follows(s'.host, k.0, k.1)
      ensures (k in s.views && s'.views[k] == s.views[k]) || IsNewView(s.host, k.1, s'.views[k])
    {
      assert ViewKept(reduce, s, k.0, k.1, s.views[k]);
    }
    PeersStep(reduce, s, s');
  }

  lemma SetEmitterKeeps<C, A(!new)>(reduce: Reducers<C, A>, s: System<C, A>, peer: nat, emits: bool, s': System<C, A>)
    requires Inv(reduce, s) && SetsEmitter(s, peer, emits, s')
    ensures Inv(reduce, s')
  {
    forall k | k in s'.views
      ensures Follows(s'.host, k.0, k.1)
      ensures (k in s.views && s'.views[k] == s.views[k]) || IsNewView(s.host, k.1, s'.views[k])
    {
      assert ViewKept(reduce, s, k.0, k.1, s.views[k]);
    }
    PeersStep(reduce, s, s');
  }

  lemma CreateSessionKeeps<C, A(!new)>(reduce: Reducers<C, A>, s: System<C, A>, resource: Channel, state: C, chat: C, s': System<C, A>)
    requires Inv(reduce, s) && CreatesSession(s, resource, state, chat, s')
    ensures Inv(reduce, s')
  {
    forall k | k in s'.views
      ensures Carried(s, s', k.0, k.1)
    {
      assert ViewKept(reduce, s, k.0, k.1, s.views[k]);
    }
    QuietStep(reduce, s, s');
  }

  lemma DisposeSessionKeeps<C, A(!new)>(reduce: Reducers<C, A>, s: System<C, A>, resource: Channel, s': System<C, A>)
    requires Inv(reduce, s) && DisposesSession(s, resource, s')
    ensures Inv(reduce, s')
  {
    DisposalKeepsChannels(s.host, resource, Root);
    forall k | k in s'.views
      ensures Carried(s, s', k.0, k.1)
    {
      assert ViewKept(reduce, s, k.0, k.1, s.views[k]);
      DisposalKeepsChannels(s.host, resource, k.1);
      SameChannels(WithoutSession(s.host, resource), s'.host, k.1);
    }
    QuietStep(reduce, s, s');
  }

  lemma SetApprovalKeeps<C, A(!new)>(reduce: Reducers<C, A>, s: System<C, A>, resource: Channel, mode: string, s': System<C, A>)
    requires Inv(reduce, s) && SetsApproval(reduce, s, resource, mode, s')
    ensures Inv(reduce, s')
  {
    ApprovalKeepsChannels(reduce, s.host, resource, mode, Root);
    forall k | k in s'.views
      ensures Carried(s, s', k.0, k.1)
    {
      assert ViewKept(reduce, s, k.0, k.1, s.views[k]);
      ApprovalKeepsChannels(reduce, s.host, resource, mode, k.1);
    }
    QuietStep(reduce, s, s');
  }

  lemma CreateTerminalKeeps<C, A(!new)>(reduce: Reducers<C, A>, s: System<C, A>, resource: Channel, state: C, s': System<C, A>)
    requires Inv(reduce, s) && CreatesTerminal(s, resource, state, s')
    ensures Inv(reduce, s')
  {
    forall k | k in s'.views
      ensures Carried(s, s', k.0, k.1)
    {
      assert ViewKept(reduce, s, k.0, k.1, s.views[k]);
    }
    QuietStep(reduce, s, s');
  }

  lemma RemoveTerminalKeeps<C, A(!new)>(reduce: Reducers<C, A>, s: System<C, A>, resource: Channel, s': System<C, A>)
    requires Inv(reduce, s) && RemovesTerminal(s, resource, s')
    ensures Inv(reduce, s')
  {
    forall k | k in s'.views
      ensures Carried(s, s', k.0, k.1)
    {
      assert ViewKept(reduce, s, k.0, k.1, s.views[k]);
    }
    QuietStep(reduce, s, s');
  }

  lemma UseSequenceKeeps<C, A(!new)>(reduce: Reducers<C, A>, s: System<C, A>, s': System<C, A>)
    requires Inv(reduce, s) && s' == s.(host := Bumped(s.host))
    ensures Inv(reduce, s')
  {
    forall k | k in s'.views
      ensures Carried(s, s', k.0, k.1)
    {
      assert ViewKept(reduce, s, k.0, k.1, s.views[k]);
    }
    QuietStep(reduce, s, s');
  }

  lemma StepKeeps<C, A(!new)>(reduce: Reducers<C, A>, s: System<C, A>, step: Step<C, A>, s': System<C, A>)
    requires Inv(reduce, s) && Next(reduce, s, step, s')
    ensures Inv(reduce, s')
  {
    match step
    case Emit(channel, action) => EmitKeeps(reduce, s, channel, action, s');
    case Deliver(d) => DeliveryKeeps(reduce, s, d, s');
    case Drop(d) => DeliveryKeeps(reduce, s, d, s');
    case Subscribe(peer, channel) => SubscribeKeeps(reduce, s, peer, channel, s');
    case Unsubscribe(peer, channel) => UnsubscribeKeeps(reduce, s, peer, channel, s');
    case Initialize(peer, channels) => InitializeKeeps(reduce, s, peer, channels, s');
    case Reconnect(peer, channels) => ReconnectKeeps(reduce, s, peer, channels, s');
    case AddPeer(peer, emits) => AddPeerKeeps(reduce, s, peer, emits, s');
    case RemovePeer(peer) => RemovePeerKeeps(reduce, s, peer, s');
    case SetEmitter(peer, emits) => SetEmitterKeeps(reduce, s, peer, emits, s');
    case CreateSession(resource, state, chat) => CreateSessionKeeps(reduce, s, resource, state, chat, s');
    case DisposeSession(resource) => DisposeSessionKeeps(reduce, s, resource, s');
    case SetApproval(resource, mode) => SetApprovalKeeps(reduce, s, resource, mode, s');
    case CreateTerminal(resource, state) => CreateTerminalKeeps(reduce, s, resource, state, s');
    case RemoveTerminal(resource) => RemoveTerminalKeeps(reduce, s, resource, s');
    case UseSequence => UseSequenceKeeps(reduce, s, s');
  }

  lemma {:induction false} RunKeeps<C(!new), A(!new)>(reduce: Reducers<C, A>, changeset: C, states: seq<System<C, A>>, steps: seq<Step<C, A>>, n: nat)
    requires IsRun(reduce, states, steps) && states[0] == Initial(changeset) && n <= |steps|
    ensures Inv(reduce, states[n])
  {
    if n > 0 {
      RunKeeps(reduce, changeset, states, steps, n - 1);
      assert Next(reduce, states[n - 1], steps[n - 1], states[n - 1 + 1]);
      StepKeeps(reduce, states[n - 1], steps[n - 1], states[n]);
    }
  }

  // ----- The protocol's promise

  ghost predicate OldestFirst<A>(es: seq<Envelope<A>>) {
    forall i, j :: 0 <= i < j < |es| ==> es[i].serverSeq < es[j].serverSeq
  }

  lemma {:induction false} SinceOldestFirst<A(!new)>(log: seq<Envelope<A>>, channel: Channel, fromSeq: int)
    requires OldestFirst(log)
    ensures OldestFirst(Since(log, channel, fromSeq))
    ensures log != [] ==> forall e :: e in Since(log, channel, fromSeq) ==> e.serverSeq <= log[|log| - 1].serverSeq
  {
    if log != [] {
      var front := log[..|log| - 1];
      SinceOldestFirst(front, channel, fromSeq);
    }
  }

  /** A set of envelopes has one arrangement by server sequence number. */
  lemma {:induction false} OldestFirstUnique<A(!new)>(a: seq<Envelope<A>>, b: seq<Envelope<A>>)
    requires OldestFirst(a) && OldestFirst(b) && forall e :: e in a <==> e in b
    ensures a == b
  {
    assert a != [] ==> a[0] in b;
    assert b != [] ==> b[0] in a;
    if a != [] {
      var x, y := a[|a| - 1], b[|b| - 1];
      assert x in b && y in a;
      assert x == y;
      var a', b' := a[..|a| - 1], b[..|b| - 1];
      forall e
        ensures e in a' <==> e in b'
      {
        assert e in a <==> e in a' || e == x;
        assert e in b <==> e in b' || e == x;
        assert e in a' ==> e.serverSeq < x.serverSeq;
        assert e in b' ==> e.serverSeq < x.serverSeq;
      }
      OldestFirstUnique(a', b');
    }
  }

  /** No delivery newer than the view is still on its way to the peer or was dropped. */
  ghost predicate Settled<C, A(!new)>(s: System<C, A>, peer: nat, channel: Channel, fromSeq: int) {
    forall d :: (d in s.pending || d in s.dropped) && d.peer == peer && d.envelope.channel == channel
                ==> d.envelope.serverSeq <= fromSeq
  }

  ghost predicate Received<C, A(!new)>(s: System<C, A>, peer: nat, channel: Channel, fromSeq: int, e: Envelope<A>) {
    Delivery(peer, e) in s.handed && e.channel == channel && e.serverSeq > fromSeq
  }

  /** In every run: a peer is handed exactly the envelopes of the channel that follow its snapshot, each
      once, and folding them over the snapshot by server sequence number gives the host's state,
      whatever order they were handed over in. */
  lemma ReplicaEqualsHost<C(!new), A(!new)>(reduce: Reducers<C, A>, changeset: C, states: seq<System<C, A>>, steps: seq<Step<C, A>>,
                                            n: nat, peer: nat, channel: Channel, es: seq<Envelope<A>>)
    requires IsRun(reduce, states, steps) && states[0] == Initial(changeset) && n <= |steps|
    requires (peer, channel) in states[n].views
    requires var fromSeq := states[n].views[(peer, channel)].fromSeq;
             Settled(states[n], peer, channel, fromSeq)
             && OldestFirst(es) && forall e :: e in es <==> Received(states[n], peer, channel, fromSeq, e)
    ensures var view := states[n].views[(peer, channel)];
            && (forall e :: Received(states[n], peer, channel, view.fromSeq, e)
                            <==> e in states[n].log && e.channel == channel && e.serverSeq > view.fromSeq)
            && (forall i, j :: 0 <= i < j < |states[n].handed| ==> states[n].handed[i] != states[n].handed[j])
            && Content(states[n].host, channel) == Some(Fold(reduce, channel, view.content, es))
  {
    RunKeeps(reduce, changeset, states, steps, n);
    var s := states[n];
    var view := s.views[(peer, channel)];
    assert ViewKept(reduce, s, peer, channel, view);
    forall e
      ensures Received(s, peer, channel, view.fromSeq, e)
         <==> e in s.log && e.channel == channel && e.serverSeq > view.fromSeq
    {
      if e in s.log && e.channel == channel && e.serverSeq > view.fromSeq {
        assert Accounted(s, Delivery(peer, e));
      }
    }
    var since := Since(s.log, channel, view.fromSeq);
    SinceOldestFirst(s.log, channel, view.fromSeq);
    forall e
      ensures e in es <==> e in since
    {
      SinceMembers(s.log, channel, view.fromSeq, e);
    }
    OldestFirstUnique(es, since);
  }

  // ----- Envelopes from before a snapshot

  lemma StepKeepsSequence<C, A(!new)>(reduce: Reducers<C, A>, s: System<C, A>, step: Step<C, A>, s': System<C, A>)
    requires Next(reduce, s, step, s')
    ensures s.host.sequence <= s'.host.sequence
  {
    match step
    case Emit(_, _) =>
    case _ =>
  }

  lemma StepDelivers<C, A(!new)>(reduce: Reducers<C, A>, s: System<C, A>, step: Step<C, A>, s': System<C, A>, d: Delivery<A>)
    requires Next(reduce, s, step, s')
    ensures d in s'.pending ==> d in s.pending || d.envelope.serverSeq > s.host.sequence
    ensures d in s'.handed ==> d in s.handed || d in s.pending
  {
    match step
    case Emit(_, _) =>
    case Deliver(_) =>
    case _ =>
  }

  lemma RunStep<C(!new), A(!new)>(reduce: Reducers<C, A>, states: seq<System<C, A>>, steps: seq<Step<C, A>>, n: nat, d: Delivery<A>)
    requires IsRun(reduce, states, steps) && 0 < n <= |steps|
    ensures states[n - 1].host.sequence <= states[n].host.sequence
    ensures d in states[n].pending ==> d in states[n - 1].pending || d.envelope.serverSeq > states[n - 1].host.sequence
    ensures d in states[n].handed ==> d in states[n - 1].handed || d in states[n - 1].pending
  {
    var k := n - 1;
    assert Next(reduce, states[k], steps[k], states[k + 1]);
    StepKeepsSequence(reduce, states[k], steps[k], states[n]);
    StepDelivers(reduce, states[k], steps[k], states[n], d);
  }

  /** Whatever is handed over or still pending later was pending before or is newer. */
  lemma {:induction false} OldDeliveriesWerePending<C(!new), A(!new)>(reduce: Reducers<C, A>, states: seq<System<C, A>>, steps: seq<Step<C, A>>,
                                                                      i: nat, n: nat, d: Delivery<A>)
    requires IsRun(reduce, states, steps) && i <= n <= |steps|
    ensures states[i].host.sequence <= states[n].host.sequence
    ensures d in states[n].pending || d in states[n].handed
            ==> d in states[i].handed || d in states[i].pending || d.envelope.serverSeq > states[i].host.sequence
  {
    if i < n {
      RunStep(reduce, states, steps, n, d);
      OldDeliveriesWerePending(reduce, states, steps, i, n - 1, d);
    }
  }

  /** A peer with nothing pending on the channel when it takes the snapshot is handed nothing older. */
  lemma NothingOlderIsHanded<C(!new), A(!new)>(reduce: Reducers<C, A>, states: seq<System<C, A>>, steps: seq<Step<C, A>>,
                                               i: nat, n: nat, peer: nat, channel: Channel, e: Envelope<A>)
    requires IsRun(reduce, states, steps) && i <= n <= |steps|
    requires NothingPending(states[i], peer, channel) && NewlyHanded(states[i], states[n], peer, channel, e)
    ensures e.serverSeq > states[i].host.sequence
  {
    OldDeliveriesWerePending(reduce, states, steps, i, n, Delivery(peer, e));
  }

  /** Whatever happens after a state, the peer is handed only envelopes of the channel that are newer. */
  ghost predicate HandsOnlyNewer<C(!new), A(!new)>(reduce: Reducers<C, A>, s: System<C, A>, peer: nat, channel: Channel) {
    forall states: seq<System<C, A>>, steps: seq<Step<C, A>>, e: Envelope<A> ::
      IsRun(reduce, states, steps) && states[0] == s && NewlyHanded(s, states[|steps|], peer, channel, e)
      ==> e.serverSeq > s.host.sequence
  }

  predicate NewlyHanded<C(!new), A(!new)>(s: System<C, A>, s': System<C, A>, peer: nat, channel: Channel, e: Envelope<A>) {
    Delivery(peer, e) in s'.handed && Delivery(peer, e) !in s.handed && e.channel == channel
  }

  ghost predicate NothingPending<C, A(!new)>(s: System<C, A>, peer: nat, channel: Channel) {
    forall d :: d in s.pending && d.peer == peer ==> d.envelope.channel != channel
  }

  /** A pending delivery can be handed over at once, whatever its number. */
  lemma PendingIsHanded<C(!new), A(!new)>(reduce: Reducers<C, A>, s: System<C, A>, d: Delivery<A>)
    requires Inv(reduce, s) && d in s.pending
    ensures !HandsOnlyNewer(reduce, s, d.peer, d.envelope.channel)
  {
    var s' := s.(pending := s.pending - {d}, handed := s.handed + [d]);
    var states, steps := [s, s'], [Step.Deliver(d)];
    assert IsRun(reduce, states, steps);
    assert d in s'.handed && d == Delivery(d.peer, d.envelope);
    assert NewlyHanded(s, states[|steps|], d.peer, d.envelope.channel, d.envelope);
  }

  /** In every run: from a moment on, a peer is handed only newer envelopes of a channel exactly when none of
      the channel is on its way to the peer at that moment. */
  lemma OnlyNewerIffNothingPending<C(!new), A(!new)>(reduce: Reducers<C, A>, changeset: C, states: seq<System<C, A>>, steps: seq<Step<C, A>>,
                                                     i: nat, peer: nat, channel: Channel)
    requires IsRun(reduce, states, steps) && states[0] == Initial(changeset) && i <= |steps|
    ensures HandsOnlyNewer(reduce, states[i], peer, channel) <==> NothingPending(states[i], peer, channel)
  {
    var s := states[i];
    RunKeeps(reduce, changeset, states, steps, i);
    if NothingPending(s, peer, channel) {
      forall later: seq<System<C, A>>, after: seq<Step<C, A>>, e: Envelope<A> |
        IsRun(reduce, later, after) && later[0] == s && NewlyHanded(s, later[|after|], peer, channel, e)
        ensures e.serverSeq > s.host.sequence
      {
        NothingOlderIsHanded(reduce, later, after, 0, |after|, peer, channel, e);
      }
    } else {
      var d :| d in s.pending && d.peer == peer && d.envelope.channel == channel;
      PendingIsHanded(reduce, s, d);
    }
  }

  /** A subscription to the changeset by the one peer there is. */
  lemma Resubscribed<C, A(!new)>(reduce: Reducers<C, A>, s: System<C, A>, subscriptions: set<Channel>, s': System<C, A>)
    requires s.host.peers == map[0 := Peer(subscriptions, true)] && subscriptions <= {WorkingTree}
    requires s' == s.(host := s.host.(peers := map[0 := Peer({WorkingTree}, true)]),
                   views := s.views[(0, WorkingTree) := View(s.host.sequence, s.host.changeset)])
    ensures Subscribes(s, 0, WorkingTree, s')
  {
    assert subscriptions + {WorkingTree} == {WorkingTree};
    assert s'.host.peers == s.host.peers[0 := Peer({WorkingTree}, true)];
    assert NewViews(s.host, 0, {WorkingTree}) == map[(0, WorkingTree) := View(s.host.sequence, s.host.changeset)];
  }

  lemma ChangesetEmitted<C, A(!new)>(reduce: Reducers<C, A>, s: System<C, A>, action: A, s': System<C, A>)
    requires s.host.peers == map[0 := Peer({WorkingTree}, true)] && s.host.sequence == 0 && s.pending == {} && s.log == []
    requires var e := Envelope(WorkingTree, action, 1);
             s' == s.(host := s.host.(sequence := 1, changeset := reduce.changeset(s.host.changeset, action)),
             log := [e], pending := {Delivery(0, e)})
    ensures Emits(reduce, s, WorkingTree, action, s')
  {
    assert Targets(s'.host, WorkingTree) == {0};
    assert Addressed(s'.host, Envelope(WorkingTree, action, 1)) == s'.pending;
  }

  lemma RunOfFive<C(!new), A(!new)>(reduce: Reducers<C, A>, s: seq<System<C, A>>, steps: seq<Step<C, A>>)
    requires |s| == 6 && |steps| == 5
    requires Next(reduce, s[0], steps[0], s[1]) && Next(reduce, s[1], steps[1], s[2]) && Next(reduce, s[2], steps[2], s[3])
    requires Next(reduce, s[3], steps[3], s[4]) && Next(reduce, s[4], steps[4], s[5])
    ensures IsRun(reduce, s, steps)
  {
  }

  /** A peer that subscribes again can be handed an older envelope after its new snapshot, so it has to
      compare sequence numbers. */
  lemma StaleDelivery<C(!new), A(!new)>(reduce: Reducers<C, A>, changeset: C, action: A) returns (states: seq<System<C, A>>, steps: seq<Step<C, A>>)
    ensures IsRun(reduce, states, steps) && states[0] == Initial(changeset) && |steps| == 5
    ensures (0, WorkingTree) in states[4].views && states[4].views[(0, WorkingTree)].fromSeq == 1
    ensures states[4].handed == [] && states[5].handed == [Delivery(0, Envelope(WorkingTree, action, 1))]
  {
    var d := Delivery(0 as nat, Envelope(WorkingTree, action, 1));
    var s0: System<C, A> := Initial(changeset);
    var s1 := s0.(host := s0.host.(peers := map[0 := Peer({}, true)]));
    var s2 := s1.(host := s1.host.(peers := map[0 := Peer({WorkingTree}, true)]), views := map[(0, WorkingTree) := View(0, changeset)]);
    var changed := reduce.changeset(changeset, action);
    var s3 := s2.(host := s2.host.(sequence := 1, changeset := changed), log := [d.envelope], pending := {d});
    var s4 := s3.(views := map[(0, WorkingTree) := View(1, changed)]);
    var s5 := s4.(pending := {}, handed := [d]);
    Resubscribed(reduce, s1, {}, s2);
    ChangesetEmitted(reduce, s2, action, s3);
    Resubscribed(reduce, s3, {WorkingTree}, s4);
    assert s4.pending - {d} == {};
    states := [s0, s1, s2, s3, s4, s5];
    steps := [AddPeer(0, true), Subscribe(0, WorkingTree), Emit(WorkingTree, action), Subscribe(0, WorkingTree), Deliver(d)];
    RunOfFive(reduce, states, steps);
  }

  // ----- The channels that are left out of the promise

  /** A chat action changes its session's state too, and no envelope of the session channel says so. */
  lemma ChatActionBypassesSessionLog<C, A>(reduce: Reducers<C, A>, s: System<C, A>, id: string, action: A, s': System<C, A>, fromSeq: int)
    requires WellKeyed(s.host) && HoldsChat(s.host, Session(id), Chat(id))
    requires Emits(reduce, s, Chat(id), action, s')
    ensures Since(s'.log, Session(id), fromSeq) == Since(s.log, Session(id), fromSeq)
    ensures var before := s.host.sessions[Session(id)];
            Session(id) in s'.host.sessions
            && s'.host.sessions[Session(id)].state == reduce.chatIntoSession(before.state, reduce.chat(before.chat, action))
  {
    SinceAppend(s.log, Envelope(Chat(id), action, s.host.sequence + 1), Session(id), fromSeq);
    assert HoldsChannel(s.host, Session(id), Chat(id));
    if key :| HoldsChannel(s.host, key, Chat(id)) {
      OwnerOfChat(s.host, key, Chat(id));
    }
  }

  // ----- Sessions that no action reaches

  /** An entry without resources, as a turn start writes it when its session is gone. */
  predicate Unnamed<C>(h: Host<C>, resource: Channel) {
    resource in h.sessions && h.sessions[resource].resource == NONE
  }

  predicate AllNamed<C>(h: Host<C>) {
    forall key :: key in h.sessions ==> h.sessions[key].resource == key
  }

  /** Actions on a session's channel reach its reducer exactly when it is stored under its own name. */
  lemma ReachedIffNamed<C>(h: Host<C>, resource: Channel)
    requires WellKeyed(h) && resource.Session?
    ensures (exists key :: HoldsChannel(h, key, resource)) <==> resource in h.sessions && !Unnamed(h, resource)
  {
    if resource in h.sessions && !Unnamed(h, resource) {
      assert HoldsChannel(h, resource, resource);
    }
  }

  /** Writing the approval mode back leaves every stored session named exactly when the session is still there. */
  lemma ApprovalNamesIff<C, A>(reduce: Reducers<C, A>, h: Host<C>, resource: Channel, mode: string)
    requires WellKeyed(h) && AllNamed(h) && resource.Session?
    ensures AllNamed(WithApproval(reduce, h, resource, mode)) <==> resource in h.sessions
  {
    assert resource in WithApproval(reduce, h, resource, mode).sessions;
  }

  predicate ApprovesMissing<C, A(!new)>(s: System<C, A>, step: Step<C, A>, resource: Channel) {
    step.SetApproval? && step.resource == resource && resource !in s.host.sessions
  }

  lemma StepNames<C, A(!new)>(reduce: Reducers<C, A>, s: System<C, A>, step: Step<C, A>, s': System<C, A>, resource: Channel)
    requires WellKeyed(s.host) && Next(reduce, s, step, s') && resource.Session?
    ensures Unnamed(s'.host, resource)
       <==> ApprovesMissing(s, step, resource) || (Unnamed(s.host, resource) && step != Step.DisposeSession(resource))
  {
    match step
    case Emit(channel, action) =>
      AppliedNames(reduce, s.host, channel, action, s'.host.(sequence := s.host.sequence), resource);
    case SetApproval(_, _) =>
    case CreateSession(_, _, _) =>
    case DisposeSession(_) =>
    case _ =>
  }

  lemma AppliedNames<C, A>(reduce: Reducers<C, A>, h: Host<C>, channel: Channel, action: A, h': Host<C>, resource: Channel)
    requires WellKeyed(h) && Applied(reduce, h, channel, action, h')
    ensures Unnamed(h', resource) <==> Unnamed(h, resource)
  {
  }

  /** The approval mode was written to a session that was gone, and the session was not disposed of since. */
  ghost predicate LostAt<C(!new), A(!new)>(states: seq<System<C, A>>, steps: seq<Step<C, A>>, k: nat, n: nat, resource: Channel) {
    k < n <= |steps| < |states| && ApprovesMissing(states[k], steps[k], resource)
    && forall j :: k < j < n ==> steps[j] != Step.DisposeSession(resource)
  }

  ghost predicate Lost<C(!new), A(!new)>(states: seq<System<C, A>>, steps: seq<Step<C, A>>, n: nat, resource: Channel) {
    exists k :: LostAt(states, steps, k, n, resource)
  }

  lemma LostNext<C(!new), A(!new)>(states: seq<System<C, A>>, steps: seq<Step<C, A>>, n: nat, resource: Channel)
    requires 0 < n <= |steps| < |states|
    ensures Lost(states, steps, n, resource)
       <==> ApprovesMissing(states[n - 1], steps[n - 1], resource)
            || (Lost(states, steps, n - 1, resource) && steps[n - 1] != Step.DisposeSession(resource))
  {
    var m: nat := n - 1;
    if ApprovesMissing(states[m], steps[m], resource) {
      assert LostAt(states, steps, m, n, resource);
    }
    if k: nat :| LostAt(states, steps, k, m, resource) {
      assert steps[m] != Step.DisposeSession(resource) ==> LostAt(states, steps, k, n, resource);
    }
    if k: nat :| LostAt(states, steps, k, n, resource) {
      assert k < m ==> LostAt(states, steps, k, m, resource);
    }
  }

  /** In every run an entry without resources stands under a session's name exactly when a turn start wrote its
      approval mode while the session was gone, and the name was not disposed of since. */
  lemma {:induction false} UnnamedIffLost<C(!new), A(!new)>(reduce: Reducers<C, A>, changeset: C, states: seq<System<C, A>>, steps: seq<Step<C, A>>,
                                                            n: nat, resource: Channel)
    requires IsRun(reduce, states, steps) && states[0] == Initial(changeset) && n <= |steps| && resource.Session?
    ensures Unnamed(states[n].host, resource) <==> Lost(states, steps, n, resource)
  {
    if n > 0 {
      var k := n - 1;
      RunKeeps(reduce, changeset, states, steps, k);
      UnnamedIffLost(reduce, changeset, states, steps, k, resource);
      assert Next(reduce, states[k], steps[k], states[k + 1]);
      StepNames(reduce, states[k], steps[k], states[n], resource);
      LostNext(states, steps, n, resource);
    }
  }

  /** A turn start that overlaps with the disposal of its session brings the session back without its
      resources: its channel can be subscribed to, but no action reaches it any more. */
  lemma DisposedSessionComesBackEmpty<C, A>(reduce: Reducers<C, A>, h: Host<C>, resource: Channel, mode: string, action: A, h': Host<C>)
    requires WellKeyed(h) && resource.Session? && resource !in h.sessions
    requires Applied(reduce, WithApproval(reduce, h, resource, mode), resource, action, h')
    ensures var back := WithApproval(reduce, h, resource, mode);
            Unnamed(back, resource) && IsSnapshot(back, resource, Some(ChannelState(reduce.zero))) && h' == back
  {
    var back := WithApproval(reduce, h, resource, mode);
    ApprovalKeepsChannels(reduce, h, resource, mode, Root);
    ReachedIffNamed(back, resource);
  }
}
