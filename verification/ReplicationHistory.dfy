/** What a run's steps say about the host: who is handed which envelope, who is subscribed, and what a session holds. */
module ReplicationHistory {
  import opened ChannelUri
  import opened AgentHostState
  import opened Replication
  import opened Wrappers

  lemma StepOfRun<C(!new), A(!new)>(reduce: Reducers<C, A>, changeset: C, states: seq<System<C, A>>, steps: seq<Step<C, A>>, n: nat)
    requires IsRun(reduce, states, steps) && states[0] == Initial(changeset) && n < |steps|
    ensures WellKeyed(states[n].host) && Next(reduce, states[n], steps[n], states[n + 1])
  {
    RunKeeps(reduce, changeset, states, steps, n);
  }

  // ----- Who is handed an envelope

  /** Step k emits the delivery's envelope, and the delivery's peer is subscribed to the channel and can be reached. */
  ghost predicate SentAt<C(!new), A(!new)>(states: seq<System<C, A>>, steps: seq<Step<C, A>>, k: int, d: Delivery<A>) {
    && 0 <= k < |steps| < |states|
    && steps[k] == Step.Emit(d.envelope.channel, d.envelope.action)
    && d.envelope.serverSeq == states[k].host.sequence + 1
    && d.peer in states[k].host.peers
    && states[k].host.peers[d.peer].emits && d.envelope.channel in states[k].host.peers[d.peer].subscriptions
  }

  ghost predicate SentBefore<C(!new), A(!new)>(states: seq<System<C, A>>, steps: seq<Step<C, A>>, n: nat, d: Delivery<A>) {
    exists k :: 0 <= k < n && SentAt(states, steps, k, d)
  }

  lemma StepSends<C, A(!new)>(reduce: Reducers<C, A>, s: System<C, A>, step: Step<C, A>, s': System<C, A>, d: Delivery<A>)
    requires WellKeyed(s.host) && Next(reduce, s, step, s')
    ensures Accounted(s', d)
       <==> Accounted(s, d)
            || (step == Step.Emit(d.envelope.channel, d.envelope.action) && d.envelope.serverSeq == s.host.sequence + 1
                && Follows(s.host, d.peer, d.envelope.channel))
  {
    match step
    case Emit(channel, action) =>
      AppliedKeepsKeys(reduce, s.host, channel, action, s'.host.(sequence := s.host.sequence));
    case Deliver(_) =>
    case Drop(_) =>
    case _ =>
  }

  lemma RunSends<C(!new), A(!new)>(reduce: Reducers<C, A>, changeset: C, states: seq<System<C, A>>, steps: seq<Step<C, A>>, n: nat, d: Delivery<A>)
    requires IsRun(reduce, states, steps) && states[0] == Initial(changeset) && n < |steps|
    ensures Accounted(states[n + 1], d) <==> Accounted(states[n], d) || SentAt(states, steps, n, d)
  {
    StepOfRun(reduce, changeset, states, steps, n);
    StepSends(reduce, states[n], steps[n], states[n + 1], d);
  }

  lemma SentNext<C(!new), A(!new)>(states: seq<System<C, A>>, steps: seq<Step<C, A>>, n: nat, d: Delivery<A>)
    ensures SentBefore(states, steps, n + 1, d) <==> SentBefore(states, steps, n, d) || SentAt(states, steps, n, d)
  {
  }

  /** In every run, what is on its way, handed over or lost is exactly what was emitted on a channel that the peer was
      subscribed to at that moment. */
  lemma {:induction false} SentIffSubscribed<C(!new), A(!new)>(reduce: Reducers<C, A>, changeset: C, states: seq<System<C, A>>,
                                                               steps: seq<Step<C, A>>, n: nat, d: Delivery<A>)
    requires IsRun(reduce, states, steps) && states[0] == Initial(changeset) && n <= |steps|
    ensures Accounted(states[n], d) <==> SentBefore(states, steps, n, d)
  {
    if n > 0 {
      var m: nat := n - 1;
      SentIffSubscribed(reduce, changeset, states, steps, m, d);
      RunSends(reduce, changeset, states, steps, m, d);
      SentNext(states, steps, m, d);
    }
  }

  // ----- Who is subscribed

  predicate Joins<C, A>(step: Step<C, A>, peer: nat, channel: Channel) {
    match step
    case Subscribe(p, c) => p == peer && c == channel
    case Initialize(p, channels) => p == peer && channel in channels
    case Reconnect(p, channels) => p == peer && channel in channels
    case _ => false
  }

  predicate Leaves<C, A>(step: Step<C, A>, peer: nat, channel: Channel) {
    match step
    case Unsubscribe(p, c) => p == peer && c == channel
    case Reconnect(p, channels) => p == peer && channel !in channels
    case RemovePeer(p) => p == peer
    case _ => false
  }

  ghost predicate JoinedAt<C(!new), A(!new)>(steps: seq<Step<C, A>>, k: int, n: nat, peer: nat, channel: Channel) {
    0 <= k < n <= |steps| && Joins(steps[k], peer, channel) && forall j :: k < j < n ==> !Leaves(steps[j], peer, channel)
  }

  ghost predicate Joined<C(!new), A(!new)>(steps: seq<Step<C, A>>, n: nat, peer: nat, channel: Channel) {
    exists k :: JoinedAt(steps, k, n, peer, channel)
  }

  predicate IsSubscribed<C>(h: Host<C>, peer: nat, channel: Channel) {
    peer in h.peers && channel in h.peers[peer].subscriptions
  }

  lemma SubscribedStep<C>(h: Host<C>, p: nat, channels: set<Channel>, peer: nat, channel: Channel)
    requires p in h.peers
    ensures IsSubscribed(Subscribed(h, p, channels), peer, channel)
       <==> if p == peer then channel in channels else IsSubscribed(h, peer, channel)
  {
  }

  lemma QuietlySubscribed<C, A(!new)>(reduce: Reducers<C, A>, s: System<C, A>, step: Step<C, A>, s': System<C, A>)
    requires WellKeyed(s.host) && Next(reduce, s, step, s')
    requires !step.Subscribe? && !step.Unsubscribe? && !step.Initialize? && !step.Reconnect?
    requires !step.AddPeer? && !step.RemovePeer? && !step.SetEmitter?
    ensures s'.host.peers == s.host.peers
  {
    if step.Emit? {
      AppliedKeepsKeys(reduce, s.host, step.channel, step.action, s'.host.(sequence := s.host.sequence));
    }
  }

  lemma SubscriptionsChange<C, A(!new)>(reduce: Reducers<C, A>, s: System<C, A>, step: Step<C, A>, s': System<C, A>, peer: nat, channel: Channel)
    requires Next(reduce, s, step, s')
    requires step.Subscribe? || step.Unsubscribe? || step.Initialize? || step.Reconnect?
    ensures IsSubscribed(s'.host, peer, channel)
       <==> Joins(step, peer, channel) || (IsSubscribed(s.host, peer, channel) && !Leaves(step, peer, channel))
  {
    var h := s.host;
    var subscriptions := h.peers[step.peer].subscriptions;
    match step
    case Subscribe(p, c) => SubscribedStep(h, p, subscriptions + {c}, peer, channel);
    case Unsubscribe(p, c) => SubscribedStep(h, p, subscriptions - {c}, peer, channel);
    case Initialize(p, channels) => SubscribedStep(h, p, subscriptions + channels, peer, channel);
    case Reconnect(p, channels) => SubscribedStep(h, p, channels, peer, channel);
  }

  lemma PeersChange<C, A(!new)>(reduce: Reducers<C, A>, s: System<C, A>, step: Step<C, A>, s': System<C, A>, peer: nat, channel: Channel)
    requires Next(reduce, s, step, s') && (step.AddPeer? || step.RemovePeer? || step.SetEmitter?)
    ensures IsSubscribed(s'.host, peer, channel) <==> IsSubscribed(s.host, peer, channel) && !Leaves(step, peer, channel)
  {
  }

  lemma StepSubscribes<C, A(!new)>(reduce: Reducers<C, A>, s: System<C, A>, step: Step<C, A>, s': System<C, A>, peer: nat, channel: Channel)
    requires WellKeyed(s.host) && Next(reduce, s, step, s')
    ensures IsSubscribed(s'.host, peer, channel)
       <==> Joins(step, peer, channel) || (IsSubscribed(s.host, peer, channel) && !Leaves(step, peer, channel))
  {
    if step.Subscribe? || step.Unsubscribe? || step.Initialize? || step.Reconnect? {
      SubscriptionsChange(reduce, s, step, s', peer, channel);
    } else if step.AddPeer? || step.RemovePeer? || step.SetEmitter? {
      PeersChange(reduce, s, step, s', peer, channel);
    } else {
      QuietlySubscribed(reduce, s, step, s');
    }
  }

  lemma RunSubscribes<C(!new), A(!new)>(reduce: Reducers<C, A>, changeset: C, states: seq<System<C, A>>, steps: seq<Step<C, A>>,
                                        n: nat, peer: nat, channel: Channel)
    requires IsRun(reduce, states, steps) && states[0] == Initial(changeset) && n < |steps|
    ensures IsSubscribed(states[n + 1].host, peer, channel)
       <==> Joins(steps[n], peer, channel) || (IsSubscribed(states[n].host, peer, channel) && !Leaves(steps[n], peer, channel))
  {
    StepOfRun(reduce, changeset, states, steps, n);
    StepSubscribes(reduce, states[n], steps[n], states[n + 1], peer, channel);
  }

  lemma JoinedNext<C(!new), A(!new)>(steps: seq<Step<C, A>>, n: nat, peer: nat, channel: Channel)
    requires 0 < n <= |steps|
    ensures Joined(steps, n, peer, channel)
       <==> Joins(steps[n - 1], peer, channel) || (Joined(steps, n - 1, peer, channel) && !Leaves(steps[n - 1], peer, channel))
  {
    var m: nat := n - 1;
    if Joins(steps[m], peer, channel) {
      assert JoinedAt(steps, m, n, peer, channel);
    }
    if k :| JoinedAt(steps, k, m, peer, channel) {
      assert !Leaves(steps[m], peer, channel) ==> JoinedAt(steps, k, n, peer, channel);
    }
    if k :| JoinedAt(steps, k, n, peer, channel) {
      assert k < m ==> JoinedAt(steps, k, m, peer, channel);
    }
  }

  /** In every run a peer is subscribed to a channel exactly when it subscribed, initialised or reconnected with it and
      did not leave it since. */
  lemma {:induction false} SubscribedIffJoined<C(!new), A(!new)>(reduce: Reducers<C, A>, changeset: C, states: seq<System<C, A>>,
                                                                 steps: seq<Step<C, A>>, n: nat, peer: nat, channel: Channel)
    requires IsRun(reduce, states, steps) && states[0] == Initial(changeset) && n <= |steps|
    ensures IsSubscribed(states[n].host, peer, channel) <==> Joined(steps, n, peer, channel)
  {
    if n > 0 {
      var m: nat := n - 1;
      SubscribedIffJoined(reduce, changeset, states, steps, m, peer, channel);
      RunSubscribes(reduce, changeset, states, steps, m, peer, channel);
      JoinedNext(steps, n, peer, channel);
    }
  }

  // ----- What a session holds

  /** A session as the steps leave it: absent, brought back empty, or with its state, its chat and its mode. */
  datatype Record<C> = Absent | Empty(approval: string) | Kept(state: C, chat: C, approval: string)

  /** What one step makes of a session, going by the names in the step alone. */
  function Replayed<C, A>(reduce: Reducers<C, A>, r: Record<C>, id: string, step: Step<C, A>): Record<C> {
    match step
    case CreateSession(resource, state, chat) => if resource == Session(id) then Kept(state, chat, "") else r
    case DisposeSession(resource) => if resource == Session(id) then Absent else r
    case SetApproval(resource, mode) =>
      if resource != Session(id) then r else if r.Kept? then Kept(r.state, r.chat, mode) else Empty(mode)
    case Emit(channel, action) =>
      if !r.Kept? then r
      else if channel == Session(id) then Kept(reduce.session(r.state, action), r.chat, r.approval)
      else if channel == Chat(id) then
        var chat := reduce.chat(r.chat, action);
        Kept(reduce.chatIntoSession(r.state, chat), chat, r.approval)
      else r
    case _ => r
  }

  function ReplayedAll<C, A>(reduce: Reducers<C, A>, steps: seq<Step<C, A>>, id: string): Record<C> {
    if steps == [] then Absent
    else Replayed(reduce, ReplayedAll(reduce, steps[..|steps| - 1], id), id, steps[|steps| - 1])
  }

  ghost predicate Holds<C>(h: Host<C>, id: string, r: Record<C>) {
    var key := Session(id);
    match r
    case Absent => key !in h.sessions
    case Empty(approval) => key in h.sessions && h.sessions[key].resource == NONE && h.sessions[key].approval == approval
    case Kept(state, chat, approval) => key in h.sessions && h.sessions[key] == Entry(key, state, Chat(id), chat, approval)
  }

  lemma EntryIsReplayed<C, A>(reduce: Reducers<C, A>, h: Host<C>, key: Channel, channel: Channel, action: A, id: string, r: Record<C>)
    requires WellKeyed(h) && HoldsChannel(h, key, channel) && Holds(h, id, r)
    ensures Holds(WithEntry(h, key, Updated(reduce, h.sessions[key], channel, action)), id, Replayed(reduce, r, id, Step.Emit(channel, action)))
  {
    if channel.Chat? {
      OwnerOfChat(h, key, channel);
    }
  }

  lemma MissIsReplayed<C, A>(reduce: Reducers<C, A>, h: Host<C>, channel: Channel, action: A, id: string, r: Record<C>)
    requires forall key :: !HoldsChannel(h, key, channel)
    requires Holds(h, id, r)
    ensures Replayed(reduce, r, id, Step.Emit(channel, action)) == r
  {
    assert !HoldsChannel(h, Session(id), channel);
  }

  /** An action changes the session whose channel or chat it names, as its reducers say, and no other. */
  lemma ActionIsReplayed<C, A>(reduce: Reducers<C, A>, h: Host<C>, channel: Channel, action: A, h': Host<C>, id: string, r: Record<C>)
    requires WellKeyed(h) && Applied(reduce, h, channel, action, h') && Holds(h, id, r)
    ensures Holds(h', id, Replayed(reduce, r, id, Step.Emit(channel, action)))
  {
    if !channel.Root? && !channel.WorkingTree? && channel !in h.terminals {
      if key :| HoldsChannel(h, key, channel) && h' == WithEntry(h, key, Updated(reduce, h.sessions[key], channel, action)) {
        EntryIsReplayed(reduce, h, key, channel, action, id, r);
      } else {
        MissIsReplayed(reduce, h, channel, action, id, r);
      }
    }
  }

  lemma QuietlyReplayed<C, A(!new)>(reduce: Reducers<C, A>, s: System<C, A>, step: Step<C, A>, s': System<C, A>)
    requires Next(reduce, s, step, s')
    requires !step.Emit? && !step.CreateSession? && !step.DisposeSession? && !step.SetApproval?
    ensures s'.host.sessions == s.host.sessions
  {
  }

  lemma CreationIsReplayed<C, A(!new)>(s: System<C, A>, resource: Channel, state: C, chat: C, s': System<C, A>, reduce: Reducers<C, A>, id: string, r: Record<C>)
    requires CreatesSession(s, resource, state, chat, s') && Holds(s.host, id, r)
    ensures Holds(s'.host, id, Replayed(reduce, r, id, Step<C, A>.CreateSession(resource, state, chat)))
  {
  }

  lemma DisposalIsReplayed<C, A(!new)>(s: System<C, A>, resource: Channel, s': System<C, A>, reduce: Reducers<C, A>, id: string, r: Record<C>)
    requires DisposesSession(s, resource, s') && Holds(s.host, id, r)
    ensures Holds(s'.host, id, Replayed(reduce, r, id, Step<C, A>.DisposeSession(resource)))
  {
  }

  lemma ApprovalIsReplayed<C, A(!new)>(s: System<C, A>, resource: Channel, mode: string, s': System<C, A>, reduce: Reducers<C, A>, id: string, r: Record<C>)
    requires SetsApproval(reduce, s, resource, mode, s') && Holds(s.host, id, r)
    ensures Holds(s'.host, id, Replayed(reduce, r, id, Step<C, A>.SetApproval(resource, mode)))
  {
  }

  lemma StepIsReplayed<C, A(!new)>(reduce: Reducers<C, A>, s: System<C, A>, step: Step<C, A>, s': System<C, A>, id: string, r: Record<C>)
    requires WellKeyed(s.host) && Next(reduce, s, step, s') && Holds(s.host, id, r)
    ensures Holds(s'.host, id, Replayed(reduce, r, id, step))
  {
    if step.Emit? {
      ActionIsReplayed(reduce, s.host, step.channel, step.action, s'.host.(sequence := s.host.sequence), id, r);
    } else if step.CreateSession? {
      CreationIsReplayed(s, step.resource, step.state, step.chat, s', reduce, id, r);
    } else if step.DisposeSession? {
      DisposalIsReplayed(s, step.resource, s', reduce, id, r);
    } else if step.SetApproval? {
      ApprovalIsReplayed(s, step.resource, step.mode, s', reduce, id, r);
    } else {
      QuietlyReplayed(reduce, s, step, s');
    }
  }

  lemma RunIsReplayed<C(!new), A(!new)>(reduce: Reducers<C, A>, changeset: C, states: seq<System<C, A>>, steps: seq<Step<C, A>>,
                                        n: nat, id: string, r: Record<C>)
    requires IsRun(reduce, states, steps) && states[0] == Initial(changeset) && n < |steps| && Holds(states[n].host, id, r)
    ensures Holds(states[n + 1].host, id, Replayed(reduce, r, id, steps[n]))
  {
    StepOfRun(reduce, changeset, states, steps, n);
    StepIsReplayed(reduce, states[n], steps[n], states[n + 1], id, r);
  }

  /** In every run a session is what its own steps make of it in their order: it holds the state, the chat and the mode
      that the creation, the actions on its channel and on its chat, and the turn starts give it. */
  lemma {:induction false} SessionIsReplayed<C(!new), A(!new)>(reduce: Reducers<C, A>, changeset: C, states: seq<System<C, A>>,
                                                               steps: seq<Step<C, A>>, n: nat, id: string)
    requires IsRun(reduce, states, steps) && states[0] == Initial(changeset) && n <= |steps|
    ensures Holds(states[n].host, id, ReplayedAll(reduce, steps[..n], id))
  {
    if n > 0 {
      var m: nat := n - 1;
      SessionIsReplayed(reduce, changeset, states, steps, m, id);
      assert steps[..n][..m] == steps[..m];
      RunIsReplayed(reduce, changeset, states, steps, m, id, ReplayedAll(reduce, steps[..m], id));
    }
  }

  /** An action on a stored session's own channel changes that session's state and nothing else. */
  lemma SessionActionReduces<C, A>(reduce: Reducers<C, A>, h: Host<C>, r: Channel, action: A, h': Host<C>)
    requires WellKeyed(h) && r in h.sessions && h.sessions[r].resource == r && Applied(reduce, h, r, action, h')
    ensures var e := h.sessions[r];
            h' == h.(sessions := h.sessions[r := Entry(r, reduce.session(e.state, action), e.chatResource, e.chat, e.approval)])
  {
    assert HoldsChannel(h, r, r);
  }

  /** An action on a stored session's chat changes the chat, what the session copies of it, and nothing else. */
  lemma ChatActionReduces<C, A>(reduce: Reducers<C, A>, h: Host<C>, id: string, action: A, h': Host<C>)
    requires WellKeyed(h) && HoldsChat(h, Session(id), Chat(id)) && Applied(reduce, h, Chat(id), action, h')
    ensures var e := h.sessions[Session(id)];
            var chat := reduce.chat(e.chat, action);
            h' == h.(sessions := h.sessions[Session(id) := Entry(e.resource, reduce.chatIntoSession(e.state, chat), Chat(id), chat, e.approval)])
  {
    assert HoldsChannel(h, Session(id), Chat(id));
    if key :| HoldsChannel(h, key, Chat(id)) && h' == WithEntry(h, key, Updated(reduce, h.sessions[key], Chat(id), action)) {
      OwnerOfChat(h, key, Chat(id));
    }
  }

  /** A session's snapshot is the state that its steps leave, and it fails when they leave none. */
  lemma SessionSnapshotIs<C>(h: Host<C>, id: string, r: Record<C>, result: Option<Snapshot<C>>)
    requires WellKeyed(h) && Holds(h, id, r)
    ensures r.Kept? ==> (IsSnapshot(h, Session(id), result) <==> result == Some(ChannelState(r.state)))
    ensures r.Absent? ==> (IsSnapshot(h, Session(id), result) <==> result == None)
  {
  }

  // ----- Snapshots that peers follow

  /** A step by which a peer takes a snapshot of a channel. */
  predicate TakesSnapshot<C, A>(s: System<C, A>, step: Step<C, A>, peer: nat, channel: Channel)
    requires peer in s.host.peers
  {
    Joins(step, peer, channel) && s.host.peers[peer].emits && Replicated(channel)
  }

  /** A step that ends what a peer follows: it leaves the channel, gets another emitter, or the channel goes. */
  predicate Ends<C, A>(step: Step<C, A>, peer: nat, channel: Channel) {
    || Leaves(step, peer, channel)
    || (step.SetEmitter? && step.peer == peer)
    || (step.DisposeSession? && step.resource.Session? && channel == Chat(step.resource.id))
    || (step.RemoveTerminal? && step.resource == channel)
  }

  /** Whoever subscribes, initialises or reconnects with a channel follows it from the sequence number and the state of
      that moment. */
  lemma JoinTakesView<C, A(!new)>(reduce: Reducers<C, A>, s: System<C, A>, step: Step<C, A>, s': System<C, A>, peer: nat, channel: Channel)
    requires WellKeyed(s.host) && Next(reduce, s, step, s') && peer in s.host.peers && TakesSnapshot(s, step, peer, channel)
    ensures Content(s.host, channel).Some?
    ensures (peer, channel) in s'.views && s'.views[(peer, channel)] == View(s.host.sequence, Content(s.host, channel).value)
  {
    SnapshotIsContent(s.host, channel, None);
    var channels := match step case Subscribe(_, c) => {c} case Initialize(_, cs) => cs case Reconnect(_, cs) => cs case _ => {};
    assert (peer, channel) in NewViews(s.host, peer, channels);
  }

  predicate LeavesViews<C, A>(step: Step<C, A>) {
    step.Emit? || step.Deliver? || step.Drop? || step.AddPeer? || step.CreateSession? || step.SetApproval? || step.CreateTerminal? || step.UseSequence?
  }

  lemma ViewsAreLeft<C, A(!new)>(reduce: Reducers<C, A>, s: System<C, A>, step: Step<C, A>, s': System<C, A>)
    requires Next(reduce, s, step, s') && LeavesViews(step)
    ensures s'.views == s.views
  {
  }

  lemma OthersKeepView<C, A(!new)>(reduce: Reducers<C, A>, s: System<C, A>, step: Step<C, A>, s': System<C, A>, peer: nat, channel: Channel)
    requires Next(reduce, s, step, s') && !LeavesViews(step) && (peer, channel) in s.views
    requires !Ends(step, peer, channel) && !Joins(step, peer, channel)
    ensures (peer, channel) in s'.views && s'.views[(peer, channel)] == s.views[(peer, channel)]
  {
  }

  /** A snapshot is followed until the peer takes another or a step ends it. */
  lemma ViewStays<C, A(!new)>(reduce: Reducers<C, A>, s: System<C, A>, step: Step<C, A>, s': System<C, A>, peer: nat, channel: Channel)
    requires Inv(reduce, s) && Next(reduce, s, step, s') && (peer, channel) in s.views && !Ends(step, peer, channel)
    ensures (peer, channel) in s'.views
    ensures !Joins(step, peer, channel) ==> s'.views[(peer, channel)] == s.views[(peer, channel)]
  {
    if Joins(step, peer, channel) {
      assert ViewKept(reduce, s, peer, channel, s.views[(peer, channel)]);
      JoinTakesView(reduce, s, step, s', peer, channel);
    } else if LeavesViews(step) {
      ViewsAreLeft(reduce, s, step, s');
    } else {
      OthersKeepView(reduce, s, step, s', peer, channel);
    }
  }
}
