/** Channel URIs and the forms that decide how the host looks them up. */
module ChannelUri {
  const ROOT := "ahp-root://"
  const WORKING_TREE := "ahp-changeset:/working-tree"
  const SESSION := "ahp-session:/"
  const CHAT := "ahp-chat:/"
  const TERMINAL := "ahp-terminal:/"

  /** A URI by its form. The prefixes exclude one another, so the form is a faithful name. */
  datatype Channel = Root | WorkingTree | Session(id: string) | Chat(id: string) | Terminal(id: string) | Other(text: string)

  const NONE := Other("")

  function Parse(uri: string): Channel {
    if uri == ROOT then Root
    else if uri == WORKING_TREE then WorkingTree
    else if SESSION <= uri then Session(uri[|SESSION|..])
    else if CHAT <= uri then Chat(uri[|CHAT|..])
    else if TERMINAL <= uri then Terminal(uri[|TERMINAL|..])
    else Other(uri)
  }

  function Text(channel: Channel): string {
    match channel
    case Root => ROOT
    case WorkingTree => WORKING_TREE
    case Session(id) => SESSION + id
    case Chat(id) => CHAT + id
    case Terminal(id) => TERMINAL + id
    case Other(text) => text
  }

  function TrimPrefix(s: string, prefix: string): string {
    if prefix <= s then s[|prefix|..] else s
  }

  function DefaultChatResource(resource: string): string {
    CHAT + TrimPrefix(resource, SESSION)
  }

  lemma PrefixSplits(uri: string, prefix: string)
    ensures prefix <= uri ==> prefix + uri[|prefix|..] == uri
  {
  }

  /** Equality of URIs is equality of their forms. */
  lemma ParseIsFaithful(uri: string)
    ensures Text(Parse(uri)) == uri
  {
    PrefixSplits(uri, SESSION);
    PrefixSplits(uri, CHAT);
    PrefixSplits(uri, TERMINAL);
  }

  lemma FormsAreDistinct(channel: Channel)
    requires channel.Other? ==> Parse(channel.text).Other?
    ensures Parse(Text(channel)) == channel
  {
    match channel
    case Root =>
    case WorkingTree =>
    case Session(id) =>
      assert (SESSION + id)[4] == 's';
      assert ROOT[4] == 'r' && WORKING_TREE[4] == 'c';
    case Chat(id) =>
      assert (CHAT + id)[5] == 'h' && (CHAT + id)[8] == ':';
      assert ROOT[4] == 'r' && SESSION[4] == 's' && WORKING_TREE[8] == 'g';
      assert (CHAT + id)[4] == 'c';
    case Terminal(id) =>
      assert (TERMINAL + id)[4] == 't';
      assert ROOT[4] == 'r' && SESSION[4] == 's' && CHAT[4] == 'c' && WORKING_TREE[4] == 'c';
    case Other(text) =>
  }

  /** A session's chat is named by the session's own id, so distinct sessions have distinct chats. */
  lemma DefaultChatIsInjective(resource: string)
    requires Parse(resource).Session?
    ensures Parse(DefaultChatResource(resource)) == Chat(Parse(resource).id)
  {
    FormsAreDistinct(Chat(Parse(resource).id));
  }
}

/** The channels an Agent Host owns and the critical sections that read and change them
    (internal/agenthost/ahp_state.go, host.go, terminal.go). Channels are compared by form. */
module AgentHostState {
  import opened ChannelUri
  import opened Wrappers

  /** The protocol library's reducers, and what a chat copies into its session's state. */
  datatype Reducers<!C, !A> = Reducers(
    session: (C, A) -> C, chat: (C, A) -> C, terminal: (C, A) -> C, changeset: (C, A) -> C,
    chatIntoSession: (C, C) -> C, zero: C)

  datatype Entry<C> = Entry(resource: Channel, state: C, chatResource: Channel, chat: C, approval: string)

  datatype Peer = Peer(subscriptions: set<Channel>, emits: bool)

  datatype Host<C> = Host(
    sequence: int, sessions: map<Channel, Entry<C>>, terminals: map<Channel, C>, changeset: C, peers: map<nat, Peer>)

  datatype Envelope<A> = Envelope(channel: Channel, action: A, serverSeq: int)

  datatype Snapshot<C> = RootState(activeSessions: nat, terminals: set<Channel>) | ChannelState(content: C)

  // ----- Reading and changing a channel

  ghost predicate HoldsChannel<C>(h: Host<C>, key: Channel, channel: Channel) {
    key in h.sessions && (h.sessions[key].resource == channel || h.sessions[key].chatResource == channel)
  }

  ghost predicate HoldsChat<C>(h: Host<C>, key: Channel, channel: Channel) {
    key in h.sessions && h.sessions[key].chatResource == channel
  }

  function Updated<C, A>(reduce: Reducers<C, A>, entry: Entry<C>, channel: Channel, action: A): Entry<C> {
    if entry.resource == channel then entry.(state := reduce.session(entry.state, action))
    else
      var chat := reduce.chat(entry.chat, action);
      entry.(chat := chat, state := reduce.chatIntoSession(entry.state, chat))
  }

  function WithEntry<C>(h: Host<C>, key: Channel, entry: Entry<C>): Host<C> {
    h.(sessions := h.sessions[key := entry])
  }

  /** What applying an action can do; sessions are looked through in no particular order. */
  ghost predicate Applied<C, A>(reduce: Reducers<C, A>, h: Host<C>, channel: Channel, action: A, h': Host<C>) {
    if channel.Root? then h' == h
    else if channel.WorkingTree? then h' == h.(changeset := reduce.changeset(h.changeset, action))
    else if channel in h.terminals then
      h' == h.(terminals := h.terminals[channel := reduce.terminal(h.terminals[channel], action)])
    else
      || (h' == h && forall key :: !HoldsChannel(h, key, channel))
      || exists key :: HoldsChannel(h, key, channel)
                       && h' == WithEntry(h, key, Updated(reduce, h.sessions[key], channel, action))
  }

  ghost predicate IsSnapshot<C>(h: Host<C>, channel: Channel, result: Option<Snapshot<C>>) {
    if channel.Root? then result == Some(RootState(|h.sessions|, h.terminals.Keys))
    else if channel.WorkingTree? then result == Some(ChannelState(h.changeset))
    else if channel in h.sessions then result == Some(ChannelState(h.sessions[channel].state))
    else
      || (exists key :: HoldsChat(h, key, channel) && result == Some(ChannelState(h.sessions[key].chat)))
      || ((forall key :: !HoldsChat(h, key, channel))
          && result == if channel in h.terminals then Some(ChannelState(h.terminals[channel])) else None)
  }

  // ----- Lookup is unambiguous

  /** Sessions are stored under their own resource with their own chat. A session that is disposed
      while one of its turns starts comes back as an entry without resources. */
  ghost predicate WellKeyed<C>(h: Host<C>) {
    && (forall k :: k in h.sessions ==>
                      k.Session? && var e := h.sessions[k];
                                 (e.resource == k && e.chatResource == Chat(k.id)) || (e.resource == NONE && e.chatResource == NONE))
    && (forall t :: t in h.terminals ==> t.Terminal?)
  }

  /** The channels whose state only their own actions change. */
  predicate Replicated(channel: Channel) {
    channel.WorkingTree? || channel.Chat? || channel.Terminal?
  }

  ghost function Content<C>(h: Host<C>, channel: Channel): Option<C> {
    match channel
    case WorkingTree => Some(h.changeset)
    case Chat(id) => if HoldsChat(h, Session(id), channel) then Some(h.sessions[Session(id)].chat) else None
    case Terminal(_) => if channel in h.terminals then Some(h.terminals[channel]) else None
    case _ => None
  }

  function Reduce<C, A>(reduce: Reducers<C, A>, channel: Channel, content: C, action: A): C {
    match channel
    case WorkingTree => reduce.changeset(content, action)
    case Chat(_) => reduce.chat(content, action)
    case _ => reduce.terminal(content, action)
  }

  function Reacted<C, A>(reduce: Reducers<C, A>, channel: Channel, content: Option<C>, action: A): Option<C> {
    match content
    case None => None
    case Some(c) => Some(Reduce(reduce, channel, c, action))
  }

  lemma OwnerOfChat<C>(h: Host<C>, key: Channel, channel: Channel)
    requires WellKeyed(h) && channel.Chat?
    ensures HoldsChannel(h, key, channel) <==> HoldsChat(h, key, channel)
    ensures HoldsChat(h, key, channel) ==> key == Session(channel.id)
  {
  }

  /** The lookup for a snapshot finds the state that the lookup for an action changes, whatever order
      the sessions are searched in. */
  lemma SnapshotIsContent<C>(h: Host<C>, channel: Channel, result: Option<Snapshot<C>>)
    requires WellKeyed(h) && Replicated(channel)
    ensures IsSnapshot(h, channel, result)
       <==> result == match Content(h, channel) case None => None case Some(c) => Some(ChannelState(c))
  {
    forall key
      ensures HoldsChat(h, key, channel) ==> channel.Chat? && key == Session(channel.id)
    {
      if channel.Chat? {
        OwnerOfChat(h, key, channel);
      }
    }
  }

  lemma EntryChangesOneChannel<C, A>(reduce: Reducers<C, A>, h: Host<C>, key: Channel, channel: Channel, action: A, other: Channel)
    requires WellKeyed(h) && HoldsChannel(h, key, channel) && Replicated(other)
    ensures var h' := WithEntry(h, key, Updated(reduce, h.sessions[key], channel, action));
            Content(h', other)
            == if other == channel && channel.Chat? then Reacted(reduce, other, Content(h, other), action) else Content(h, other)
  {
    if channel.Chat? {
      OwnerOfChat(h, key, channel);
    }
  }

  /** An action changes the replicated channel it names, as that channel's reducer says, and no other. */
  lemma AppliedChangesOneChannel<C, A>(reduce: Reducers<C, A>, h: Host<C>, channel: Channel, action: A, h': Host<C>, other: Channel)
    requires WellKeyed(h) && Applied(reduce, h, channel, action, h') && Replicated(other)
    ensures Content(h', other) == if other == channel then Reacted(reduce, other, Content(h, other), action) else Content(h, other)
  {
    if !channel.Root? && !channel.WorkingTree? && channel !in h.terminals {
      if key :| HoldsChannel(h, key, channel) && h' == WithEntry(h, key, Updated(reduce, h.sessions[key], channel, action)) {
        EntryChangesOneChannel(reduce, h, key, channel, action, other);
      } else if channel.Chat? {
        assert !HoldsChannel(h, Session(channel.id), channel);
      }
    }
  }

  lemma AppliedKeepsKeys<C, A>(reduce: Reducers<C, A>, h: Host<C>, channel: Channel, action: A, h': Host<C>)
    requires WellKeyed(h) && Applied(reduce, h, channel, action, h')
    ensures WellKeyed(h') && h'.sequence == h.sequence && h'.peers == h.peers
  {
  }

  // ----- The critical sections

  ghost function Targets<C>(h: Host<C>, channel: Channel): set<nat> {
    set p | p in h.peers && h.peers[p].emits && channel in h.peers[p].subscriptions
  }

  function Subscribed<C>(h: Host<C>, peer: nat, channels: set<Channel>): Host<C>
    requires peer in h.peers
  {
    h.(peers := h.peers[peer := h.peers[peer].(subscriptions := channels)])
  }

  ghost predicate Emitted<C, A>(reduce: Reducers<C, A>, h: Host<C>, channel: Channel, action: A, h': Host<C>) {
    h'.sequence == h.sequence + 1 && Applied(reduce, h, channel, action, h'.(sequence := h.sequence))
  }

  ghost predicate SnapshotsOf<C>(h: Host<C>, channels: seq<Channel>, snapshots: seq<Snapshot<C>>) {
    |snapshots| == |channels|
    && forall i :: 0 <= i < |channels| ==> IsSnapshot(h, channels[i], Some(snapshots[i]))
  }

  function Bumped<C>(h: Host<C>): Host<C> {
    h.(sequence := h.sequence + 1)
  }

  function WithSession<C>(h: Host<C>, resource: Channel, state: C, chat: C): Host<C>
    requires resource.Session?
  {
    WithEntry(h, resource, Entry(resource, state, Chat(resource.id), chat, ""))
  }

  function WithoutSession<C>(h: Host<C>, resource: Channel): Host<C> {
    h.(sessions := h.sessions - {resource})
  }

  /** A missing session is read as the zero entry, and written back as one. */
  function WithApproval<C, A>(reduce: Reducers<C, A>, h: Host<C>, resource: Channel, mode: string): Host<C> {
    var entry := if resource in h.sessions then h.sessions[resource] else Entry(NONE, reduce.zero, NONE, reduce.zero, "");
    WithEntry(h, resource, entry.(approval := mode))
  }

  class AgentHost<C, A> {
    const reduce: Reducers<C, A>
    var sequence: int
    var sessions: map<Channel, Entry<C>>
    var terminals: map<Channel, C>
    var changeset: C
    var peers: map<nat, Peer>

    function State(): Host<C>
      reads this
    {
      Host(sequence, sessions, terminals, changeset, peers)
    }

    constructor (reduce: Reducers<C, A>, changeset: C)
      ensures this.reduce == reduce && State() == Host(0, map[], map[], changeset, map[])
      ensures WellKeyed(State())
    {
      this.reduce, this.changeset := reduce, changeset;
      sequence, sessions, terminals, peers := 0, map[], map[], map[];
    }

    method ApplyAction(channel: Channel, action: A)
      modifies this`sessions, this`terminals, this`changeset
      ensures Applied(reduce, old(State()), channel, action, State())
    {
      if channel.Root? {
        return;
      }
      if channel.WorkingTree? {
        changeset := reduce.changeset(changeset, action);
        return;
      }
      if channel in terminals {
        terminals := terminals[channel := reduce.terminal(terminals[channel], action)];
        return;
      }
      var keys := sessions.Keys;
      while keys != {}
        invariant keys <= sessions.Keys && State() == old(State())
        invariant forall key :: key in sessions && key !in keys ==> !HoldsChannel(State(), key, channel)
        decreases keys
      {
        var key :| key in keys;
        var entry := sessions[key];
        if channel == entry.resource || channel == entry.chatResource {
          assert HoldsChannel(old(State()), key, channel);
          sessions := sessions[key := Updated(reduce, entry, channel, action)];
          assert State() == WithEntry(old(State()), key, Updated(reduce, entry, channel, action));
          return;
        }
        keys := keys - {key};
      }
    }

    method EmitTypedAction(channel: Channel, action: A) returns (envelope: Envelope<A>, targets: set<nat>)
      modifies this`sessions, this`terminals, this`changeset, this`sequence
      ensures Emitted(reduce, old(State()), channel, action, State())
      ensures envelope == Envelope(channel, action, sequence)
      ensures targets == Targets(State(), channel) && sequence == old(sequence) + 1
      ensures forall p :: p in targets <==> p in peers && peers[p].emits && channel in peers[p].subscriptions
    {
      ApplyAction(channel, action);
      ghost var applied := State();
      sequence := sequence + 1;
      assert State().(sequence := old(sequence)) == applied;
      envelope := Envelope(channel, action, sequence);
      targets := set p | p in peers && peers[p].emits && channel in peers[p].subscriptions;
    }

    method TakeSnapshot(channel: Channel) returns (result: Option<Snapshot<C>>)
      ensures IsSnapshot(State(), channel, result)
      ensures channel.Root? ==> result == Some(RootState(|sessions|, terminals.Keys))
      ensures channel.WorkingTree? ==> result == Some(ChannelState(changeset))
      ensures channel.Session? && channel in sessions ==> result == Some(ChannelState(sessions[channel].state))
    {
      if channel.Root? {
        return Some(RootState(|sessions|, terminals.Keys));
      }
      if channel.WorkingTree? {
        return Some(ChannelState(changeset));
      }
      if channel in sessions {
        return Some(ChannelState(sessions[channel].state));
      }
      var keys := sessions.Keys;
      while keys != {}
        invariant keys <= sessions.Keys
        invariant forall key :: key in sessions && key !in keys ==> !HoldsChat(State(), key, channel)
        decreases keys
      {
        var key :| key in keys;
        if sessions[key].chatResource == channel {
          assert HoldsChat(State(), key, channel);
          return Some(ChannelState(sessions[key].chat));
        }
        keys := keys - {key};
      }
      return if channel in terminals then Some(ChannelState(terminals[channel])) else None;
    }

    method TakeSnapshots(channels: seq<Channel>) returns (result: Option<seq<Snapshot<C>>>)
      ensures result.Some? ==> SnapshotsOf(State(), channels, result.value)
      ensures result.Some? ==> |result.value| == |channels| && forall i :: 0 <= i < |channels| ==> IsSnapshot(State(), channels[i], Some(result.value[i]))
      ensures result.None? ==> exists i :: 0 <= i < |channels| && IsSnapshot(State(), channels[i], None)
    {
      var snapshots: seq<Snapshot<C>> := [];
      for i := 0 to |channels|
        invariant SnapshotsOf(State(), channels[..i], snapshots)
      {
        var snapshot := TakeSnapshot(channels[i]);
        if snapshot.None? {
          return None;
        }
        snapshots := snapshots + [snapshot.value];
      }
      return Some(snapshots);
    }

    /** The snapshot and the sequence number it is taken at. */
    method Subscribe(peer: nat, channel: Channel) returns (result: Option<(Snapshot<C>, int)>)
      requires peer in peers
      modifies this`peers
      ensures result.None? ==> State() == old(State()) && (channel == NONE || IsSnapshot(State(), channel, None))
      ensures result.Some? ==>
                channel != NONE
                && IsSnapshot(old(State()), channel, Some(result.value.0)) && result.value.1 == sequence
                && State() == Subscribed(old(State()), peer, old(peers)[peer].subscriptions + {channel})
      ensures result.Some? ==> peers == old(peers)[peer := Peer(old(peers)[peer].subscriptions + {channel}, old(peers)[peer].emits)]
    {
      if channel == NONE {
        return None;
      }
      var snapshot := TakeSnapshot(channel);
      if snapshot.None? {
        return None;
      }
      peers := peers[peer := peers[peer].(subscriptions := peers[peer].subscriptions + {channel})];
      return Some((snapshot.value, sequence));
    }

    method Unsubscribe(peer: nat, channel: Channel)
      requires peer in peers
      modifies this`peers
      ensures State() == Subscribed(old(State()), peer, old(peers)[peer].subscriptions - {channel})
      ensures peers == old(peers)[peer := Peer(old(peers)[peer].subscriptions - {channel}, old(peers)[peer].emits)]
    {
      peers := peers[peer := peers[peer].(subscriptions := peers[peer].subscriptions - {channel})];
    }

    /** The listed channels become the peer's only subscriptions. */
    method Reconnect(peer: nat, channels: seq<Channel>) returns (result: Option<seq<Snapshot<C>>>)
      requires peer in peers
      modifies this`peers
      ensures result.None? ==> State() == old(State())
      ensures result.Some? ==> SnapshotsOf(old(State()), channels, result.value)
                               && State() == Subscribed(old(State()), peer, set c | c in channels)
      ensures result.Some? ==> peers == old(peers)[peer := Peer(set c | c in channels, old(peers)[peer].emits)]
      ensures result.None? ==> exists i :: 0 <= i < |channels| && IsSnapshot(State(), channels[i], None)
    {
      result := TakeSnapshots(channels);
      if result.Some? {
        peers := peers[peer := peers[peer].(subscriptions := set c | c in channels)];
      }
    }

    /** The listed channels are added; a sequence number is used up even when one is unknown. */
    method Initialize(peer: nat, channels: seq<Channel>) returns (result: Option<seq<Snapshot<C>>>)
      requires peer in peers
      modifies this`peers, this`sequence
      ensures result.None? ==> State() == Bumped(old(State()))
      ensures result.Some? ==>
                SnapshotsOf(old(State()), channels, result.value)
                && State() == Bumped(Subscribed(old(State()), peer, old(peers)[peer].subscriptions + set c | c in channels))
      ensures sequence == old(sequence) + 1
      ensures result.None? ==> exists i :: 0 <= i < |channels| && IsSnapshot(old(State()), channels[i], None)
    {
      result := TakeSnapshots(channels);
      if result.Some? {
        peers := peers[peer := peers[peer].(subscriptions := peers[peer].subscriptions + set c | c in channels)];
      }
      sequence := sequence + 1;
    }

    method CreateSession(resource: Channel, state: C, chat: C) returns (created: bool)
      modifies this`sessions, this`sequence
      ensures created == (resource.Session? && resource !in old(sessions))
      ensures State() == if created then Bumped(WithSession(old(State()), resource, state, chat)) else old(State())
      ensures created ==> sequence == old(sequence) + 1 && resource in sessions
                          && sessions[resource].state == state && sessions[resource].chat == chat
    {
      if !resource.Session? || resource in sessions {
        return false;
      }
      sessions := sessions[resource := Entry(resource, state, Chat(resource.id), chat, "")];
      sequence := sequence + 1;
      return true;
    }

    method DisposeSession(resource: Channel)
      modifies this`sessions, this`sequence
      ensures State() == Bumped(WithoutSession(old(State()), resource))
      ensures sequence == old(sequence) + 1 && resource !in sessions
    {
      sessions := sessions - {resource};
      sequence := sequence + 1;
    }

    /** The second critical section of a turn start; the session may be gone by then. */
    method SetApproval(resource: Channel, mode: string)
      modifies this`sessions
      ensures State() == WithApproval(reduce, old(State()), resource, mode)
      ensures resource in sessions && sessions[resource].approval == mode
      ensures resource in old(sessions) ==> sessions[resource].state == old(sessions)[resource].state
    {
      var current := if resource in sessions then sessions[resource] else Entry(NONE, reduce.zero, NONE, reduce.zero, "");
      sessions := sessions[resource := current.(approval := mode)];
    }

    method CreateTerminal(resource: Channel, state: C) returns (created: bool)
      modifies this`terminals
      ensures created == (resource.Terminal? && resource !in old(terminals))
      ensures State() == if created then old(State()).(terminals := old(terminals)[resource := state]) else old(State())
    {
      if !resource.Terminal? || resource in terminals {
        return false;
      }
      terminals := terminals[resource := state];
      return true;
    }

    method RemoveTerminal(resource: Channel)
      modifies this`terminals
      ensures State() == old(State()).(terminals := old(terminals) - {resource})
    {
      terminals := terminals - {resource};
    }
  }
}
