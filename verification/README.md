# Verified model of the agent host, its mux, model streaming, the session catalog and the workbench

The repository is a Go control plane with an agent host beside each workspace, and a TypeScript workbench.
This project models the parts of it where state is shared, replicated or assembled piece by piece, and proves
what those parts promise. `dafny verify dfyconfig.toml` checks the whole project.

What is modelled, one group of modules each:

- **Replication** (`AgentHostState.dfy`, `Replication.dfy`, `ReplicationHistory.dfy`). The host applies actions to
  channel states, numbers them and hands them to subscribed peers outside its lock. A peer's snapshot plus the later
  envelopes, folded by sequence number, is the host's state, in every interleaving; who is handed what, who is
  subscribed and what a session holds can be read off the steps of a run.
- **Mux** (`Mux.dfy`, `MuxRuns.dfy`, `MuxAnswers.dfy`, `Gateway.dfy`). Logical streams share one connection between the
  server and a host. In every interleaving of the goroutines at both ends, streams keep their order, never skip and
  never mix, and a stream is acknowledged exactly when its peer was added.
- **Permissions** (`Permissions.dfy`, `PermissionAnswers.dfy`). A tool call waits for an answer that several goroutines
  can give, and gets the one of the step that took it away.
- **Streaming** (`ToolArguments.dfy`, `NeutralEvents.dfy`, `DeepSeek.dfy`, `DeepSeekResponse.dfy`,
  `DeepSeekMessages.dfy`, `Anthropic.dfy`, `AnthropicResponse.dfy`, `ResponsesWire.dfy`, `ResponsesStream.dfy`,
  `ProviderToWire.dfy`, `WireEnds.dfy`, `Conversations.dfy`, `RequestMeaning.dfy`). Provider deltas become neutral
  events and a final response, and neutral events become Responses wire events. The views agree with each other and
  with the fields of the provider's messages; requests say the conversation they are made from.
- **Session catalog** (`SessionCatalog.dfy`, `Pagination.dfy`, `CatalogMirror.dfy`, `CatalogRows.dfy`,
  `CatalogRefresh.dfy`, `RefreshOrder.dfy`). A mirrored table, keyset pages over it while it changes, and refreshes
  that overlap.
- **Log redaction** (`Redaction.dfy`). A line-buffered writer against a whole-stream specification.
- **Workbench** (`LiveProjection.dfy`, `LiveTurn.dfy`, `LiveOrder.dfy`, `LiveTools.dfy`, `LiveChat.dfy`,
  `WorkspaceAttachment.dfy`, `VirtualList.dfy`). The live chat projection, attaching to one host at a time, and the
  windowed list.

Code that changes state is a class or a method with the source's loops, proved against specification functions;
the promises are lemmas about those functions and about all runs built from them. In the state machines a step is
one critical section or one channel operation, and a run is any sequence of steps.

Some promises turned out to hold only under a condition, or not at all:

- A secret stays hidden beside any other secrets exactly when it has no newline and cannot overlap the marker
  (`HiddenIffIsolated`); disjoint bytes are one simple way to get there.
- Tool arguments survive every chunking exactly when they do not begin with an empty object
  (`SurvivesUnlessEmpty`). When only placeholders and white space arrive, the empty object is left exactly when the
  last delta is a placeholder (`EmptyObjectIffLast`).
- The text streamed for an Anthropic text or reasoning block is its final text exactly when the block started empty
  (`TextsAgreeIff`).
- A final response holds all that was streamed exactly when tool calls (or blocks) are numbered from zero without
  gaps (`FinalResponseMatchesStream`, `FinalResponseMatchesBlocks`).
- Wire deltas are announced exactly when the first event about their item fits them (`AnnouncedIffAllFit`).
- Following the cursors over a fixed table completes exactly when every boundary row has non-empty ids and a non-zero
  time (`FixedTableCompletesIff`).
- A peer that subscribes again is handed only what follows its new snapshot exactly when nothing of the channel is on
  its way to it (`OnlyNewerIffNothingPending`, with a run that fails in `StaleDelivery`).
- A stored session is out of its reducer's reach exactly when a turn start wrote its approval mode while the session
  was gone, and it was not disposed of since (`UnnamedIffLost`).
- Message ids tell the parts of a turn apart exactly when no part id reads like a segment of another
  (`DistinguishedIffApart`). Texts and tool calls are then shown in the order they arrive exactly when no tool call is
  named for the first time, without being started, between two texts of a part (`ShownInOrderIff`).

## Model

| member | source | states |
|---|---|---|
| ChannelUri.ParseIsFaithful | internal/agenthost/ahp_state.go:122-160 | the form by which a channel is looked up loses nothing of its URI, so equal forms are equal URIs |
| ChannelUri.FormsAreDistinct | internal/agenthost/ahp_state.go:122-160 | the prefixes of root, changeset, session, chat and terminal URIs exclude one another |
| ChannelUri.DefaultChatIsInjective | internal/agenthost/ahp_state.go:21-24 | a session's chat is named by the session's own id, so two sessions never share a chat |
| AgentHostState.SnapshotIsContent | internal/agenthost/ahp_state.go:122-161 | whatever order sessions are searched in, a snapshot holds exactly the state that actions on that channel change, or fails when there is none |
| AgentHostState.AppliedChangesOneChannel | internal/agenthost/ahp_state.go:205-233 | an action changes the replicated channel it names as that channel's reducer says, and no other |
| AgentHostState.AppliedKeepsKeys | internal/agenthost/ahp_state.go:205-233 | sessions stay stored under their own resource with their own chat; peers and the sequence are untouched |
| AgentHostState.AgentHost.ApplyAction | internal/agenthost/ahp_state.go:205-233 | the loop over the sessions ends in a state the lookup rules allow, whichever session it finds first |
| AgentHostState.AgentHost.EmitTypedAction | internal/agenthost/ahp_state.go:163-203 | the action is applied, the envelope carries the channel, the action and the next sequence number, and the targets are exactly the peers that can be reached and are subscribed to the channel |
| AgentHostState.AgentHost.TakeSnapshot | internal/agenthost/ahp_state.go:122-161 | the snapshot is one the lookup rules allow |
| AgentHostState.AgentHost.TakeSnapshots | internal/agenthost/ahp_state.go:110-120 | one snapshot per channel in order, or nothing when some channel is unknown |
| AgentHostState.AgentHost.Subscribe | internal/agenthost/ahp_state.go:55-73 | the snapshot and the subscription belong to the same state; an unknown or empty channel changes nothing |
| AgentHostState.AgentHost.Unsubscribe | internal/agenthost/ahp_state.go:100-108 | one channel leaves the peer's subscriptions and nothing else changes |
| AgentHostState.AgentHost.Reconnect | internal/agenthost/ahp_state.go:75-98 | the listed channels become the only subscriptions, or nothing changes when one is unknown |
| AgentHostState.AgentHost.Initialize | internal/agenthost/host.go:680-719 | the listed channels are added to the subscriptions; a sequence number is used up either way |
| AgentHostState.AgentHost.CreateSession | internal/agenthost/host.go:742-844 | a session is created once, under a session URI |
| AgentHostState.AgentHost.DisposeSession | internal/agenthost/host.go:977-1009 | the session is gone and a sequence number is used up even when there was none |
| AgentHostState.AgentHost.SetApproval | internal/agenthost/ahp_state.go:255-259 | the approval mode is written back, into an empty entry when the session is gone |
| AgentHostState.AgentHost.CreateTerminal | internal/agenthost/terminal.go:84-92 | a terminal is created once, under a terminal URI |
| AgentHostState.AgentHost.RemoveTerminal | internal/agenthost/terminal.go:396-402 | only the named terminal goes |
| Replication.StepKeeps | internal/agenthost/ahp_state.go:55-233 | every critical section, delivery and loss keeps: ordered log, each envelope delivered at most once, every followed channel equal to its snapshot folded with the later log, all later envelopes accounted for |
| Replication.ReplicaEqualsHost | internal/agenthost/ahp_state.go:163-190 | in every run a peer with nothing lost or under way was handed exactly the envelopes after its snapshot, each once, and folding them over it by sequence number gives the host's state |
| Replication.OldDeliveriesWerePending | internal/agenthost/ahp_state.go:177-190 | whatever is handed over after a moment was already under way at it or carries a higher number |
| Replication.NothingOlderIsHanded | internal/agenthost/ahp_state.go:163-190 | a peer with nothing under way on a channel when it takes a snapshot is handed nothing older than the snapshot |
| Replication.OnlyNewerIffNothingPending | internal/agenthost/ahp_state.go:163-190 | in every run and from any state on, every continuation hands a peer only newer envelopes of a channel exactly when none of the channel is pending for it |
| Replication.StaleDelivery | internal/agenthost/ahp_state.go:177-190 | a run in which a peer that subscribes again is handed an envelope its new snapshot already contains |
| Replication.ChatActionBypassesSessionLog | internal/agenthost/ahp_state.go:224-230 | a chat action changes its session's state while the session channel's log stays as it was, which is why session channels are not replicated by their log |
| Replication.ReachedIffNamed | internal/agenthost/ahp_state.go:205-222 | actions on a session's channel find a stored session exactly when the one under that key carries its own name |
| Replication.ApprovalNamesIff | internal/agenthost/ahp_state.go:255-259 | writing the approval mode leaves every stored session under its own name exactly when the session is still there |
| Replication.UnnamedIffLost | internal/agenthost/ahp_state.go:248-259 | in every run an entry without resources stands under a session's key exactly when the mode was written while the session was gone and the session was not disposed of since |
| Replication.DisposedSessionComesBackEmpty | internal/agenthost/ahp_state.go:248-259 | a mode written for a session that is gone leaves an empty session that can be subscribed to and that no action on it changes |
| ReplicationHistory.SentIffSubscribed | internal/agenthost/ahp_state.go:163-203 | in every run a delivery is pending, handed over or lost exactly when some earlier step emitted its action on its channel, with its number, while its peer could be reached and was subscribed |
| ReplicationHistory.SubscribedIffJoined | internal/agenthost/ahp_state.go:55-108 | in every run a peer is subscribed to a channel exactly when it subscribed, initialised or reconnected with it and did not leave it since |
| ReplicationHistory.SessionIsReplayed | internal/agenthost/ahp_state.go:205-259 | in every run a session holds the state, the chat and the mode that its own steps, read off the run by name, leave it |
| ReplicationHistory.SessionActionReduces | internal/agenthost/ahp_state.go:222-227 | an action on a stored session's own channel makes its state the session reducer's and changes nothing else |
| ReplicationHistory.ChatActionReduces | internal/agenthost/ahp_state.go:228-233 | an action on a stored session's chat makes the chat the chat reducer's, copies it into the session, and changes nothing else |
| ReplicationHistory.SessionSnapshotIs | internal/agenthost/ahp_state.go:122-161 | in every run a session's snapshot is the state that its steps leave, and it fails when they leave none |
| ReplicationHistory.JoinTakesView | internal/agenthost/ahp_state.go:55-98 | whoever subscribes, initialises or reconnects with a channel follows it from the number and the state of that moment |
| ReplicationHistory.ViewStays | internal/agenthost/ahp_state.go:55-108 | a snapshot is followed until the peer takes another or a step ends it |
| StreamId.DecimalIsInjective | internal/interfaces/http/ahp.go:300 | two counters never print alike |
| StreamId.IdsAreFresh | internal/interfaces/http/ahp.go:300 | no stream id is used twice on a connection exactly while at most 2^64 streams were opened |
| StreamId.IdIsNeverDirect | internal/agenthost/mux.go:89-112 | no id the server gives out is empty or the name of the host's direct peer |
| MuxEnds.HostConnection.Send | internal/interfaces/http/ahp.go:283-292 | a frame is queued or refused, and refused only when the queue is full or the connection closed |
| MuxEnds.HostConnection.Register | internal/interfaces/http/ahp.go:294-309 | the seventeenth open stream is refused; otherwise the next id is registered |
| MuxEnds.HostConnection.StartClose | internal/interfaces/http/ahp.go:356-381 | a stream leaves the map once, whoever closes it first |
| MuxEnds.HostConnection.RouteData | internal/interfaces/http/ahp.go:344-350 | a payload is queued, dropped for a finished stream, or ends a stream whose queue is full |
| MuxEnds.HostConnection.TakeStreams | internal/interfaces/http/ahp.go:240-255 | closing the connection empties the map and hands every stream over for closing |
| MuxEnds.PeerTable.AddMuxPeer | internal/agenthost/mux.go:72-87 | a peer is added unless its id exists or sixteen logical peers do |
| MuxEnds.PeerTable.HandleMuxFrame | internal/agenthost/mux.go:25-70 | which peers exist after a frame; an open frame is acknowledged exactly when its id was no peer and now is one, and otherwise closed; a payload reaches its peer or is answered by closing its stream, never both |
| MuxEnds.PeerTable.RemoveAllMuxPeers | internal/agenthost/mux.go:104-112 | the loop leaves the direct peer if there was one, and nothing else |
| MuxEnds.PeersStayBounded | internal/agenthost/mux.go:72-102 | at most sixteen logical peers beside the direct one, which only a close frame naming it could remove |
| MuxRuns.StepKeeps | internal/interfaces/http/ahp.go:240-420 | every step of either end keeps the order, ownership and bounds of all streams and both wires |
| MuxRuns.ClientSeesItsPeer | internal/interfaces/http/ahp.go:331-381 | in every run what a client is given is a gap-free start of what the host queued for the peer of the same stream, which is a subsequence of what that peer emitted |
| MuxRuns.PeerHearsItsClient | internal/interfaces/http/ahp.go:401-420 | in every run what a peer handles is a gap-free start of the messages read from its client |
| MuxRuns.EveryPeerIsAStream | internal/agenthost/mux.go:72-96 | every logical peer belongs to a stream the server opened, never to the direct peer's name |
| MuxRuns.QueuesAreBounded | internal/interfaces/http/ahp.go:294-309 | streams, stream queues, both write queues and the peer table stay within their limits in every run, and the direct peer stays |
| MuxAnswers.AddedIffRoom | internal/agenthost/mux.go:72-87 | in every run a logical peer was added exactly when the host read an open frame for an id that was no peer while fewer than sixteen logical peers existed |
| MuxAnswers.AcknowledgedIffAdded | internal/agenthost/mux.go:34-49 | in every run an open frame is answered by an acknowledgement exactly when its peer was added |
| MuxAnswers.PayloadIsHandledOrRefused | internal/agenthost/mux.go:50-65 | a payload goes to the logical peer of its id, or without one is answered by closing the stream, and never both |
| MuxAnswers.AcceptedIsOffered | internal/agenthost/mux.go:34-65 | in every run every control frame on its way to the server was given as an answer |
| MuxAnswers.AcknowledgedIffActedOn | internal/interfaces/http/ahp.go:331-343 | in every run a stream counts as acknowledged exactly when the server acted on an acknowledgement for it |
| MuxAnswers.AcknowledgedMeansAdded | internal/interfaces/http/ahp.go:331-420 | in every run an acknowledgement in the host's queue or on the wire is for a peer that was added, and so is every acknowledged stream and every stream a client's message was sent on |
| Gateway.Registry.Register | internal/interfaces/http/ahp.go:164-173 | the new connection serves and the replaced one is returned |
| Gateway.Registry.Unregister | internal/interfaces/http/ahp.go:175-181 | only the connection itself is taken out |
| Gateway.Registry.Disconnect | internal/interfaces/http/ahp.go:209-219 | the serving connection is taken out and returned |
| Gateway.LatestConnectionServes | internal/interfaces/http/ahp.go:164-219 | in every history a workspace is served by exactly the connection registered for it and neither replaced nor ended since, so a replaced connection's cleanup evicts nothing |
| PermissionDesk.KeyIsInjective | internal/agenthost/host.go:904-905 | two sequence numbers never give the same permission key |
| PermissionDesk.Desk.Open | internal/agenthost/host.go:894-916 | a request is cancelled without a turn, allowed by the mode, or waits under a new key with the chat, turn and call it is about |
| PermissionDesk.Desk.Confirm | internal/agenthost/terminal.go:323-341 | a request is taken only by a subscriber of the chat who names its chat, turn and call, to be answered AllowOnce when approved and Deny otherwise; in every other case nothing changes |
| PermissionDesk.Desk.CancelAll | internal/agenthost/host.go:955-964 | exactly the requests of one session are taken |
| PermissionDesk.Desk.Close | internal/agenthost/host.go:383-388 | every request is taken |
| PermissionRuns.StepKeeps | internal/agenthost/host.go:889-975 | every step keeps: keys of their own, one goroutine per taken request, one removal, one answer |
| PermissionRuns.KeysAreNeverReused | internal/agenthost/host.go:904-905 | in every run no two requests share a key and no key is announced removed twice |
| PermissionRuns.SendNeverWaits | internal/agenthost/host.go:906 | in every run a reply channel is empty when its one value is sent, so the send cannot block |
| PermissionRuns.WaitingIsNotForgotten | internal/agenthost/host.go:923-928 | in every run a request that waits is still pending, being answered, or has its answer in the channel |
| PermissionRuns.RequestsAreSteps | internal/agenthost/host.go:894-916 | every request on record was made by a step, with the mode and the session of that state |
| PermissionRuns.ApprovalsAreSteps | internal/agenthost/terminal.go:323-341 | every approval on record is a confirmation step by a peer subscribed to the chat at that moment |
| PermissionRuns.AllowedOnlyIfApproved | internal/agenthost/terminal.go:323-341 | a call is allowed only because the mode allowed it in the step that asked, or because an earlier step was a confirmation by a peer that was subscribed to the chat in that state and approved that chat, turn and call |
| PermissionAnswers.RequestsAreAskedRightly | internal/agenthost/host.go:894-916 | in every run a request is cancelled at once exactly when its session has no turn, allowed at once exactly when the session's mode allows everything, and otherwise waits for the chat and the turn of that moment |
| PermissionAnswers.AnsweredAsTaken | internal/agenthost/terminal.go:323-357 | in every run the one answer of a waiting request is AllowOnce exactly when an approving confirmation took it away, Deny exactly when a refusing one did, and Cancel exactly when the cancellation of its session or the end of the host did |
| PermissionAnswers.ReturnsAsTaken | internal/agenthost/host.go:917-929 | in every run a request that waited returns Cancel when its context ended first, and otherwise exactly the answer of the step that took it away |
| ToolArguments.AppendToolArguments | internal/infra/llmproxy/client.go:226-240 | what is stored and what is forwarded of a delta, whatever was forwarded before |
| ToolArguments.PlaceholdersOnly | internal/infra/llmproxy/client.go:224-240 | with placeholders only, nothing is forwarded and the arguments trim to the empty object |
| ToolArguments.EmptyObjectIffLast | internal/infra/llmproxy/client.go:224-240 | when only placeholders and white space arrive, the arguments end as the empty object exactly when the last delta is a placeholder, and blank otherwise |
| ToolArguments.FaithfulIffClean | internal/infra/llmproxy/client.go:226-240 | final arguments, forwarded deltas and text agree exactly when no cut leaves a prefix that looks like a placeholder or turns the next chunk into one |
| ToolArguments.SurvivesUnlessEmpty | internal/infra/llmproxy/client.go:224-240 | a text comes out whole for every cut and every leading placeholders exactly when it does not begin with an empty object |
| ToolArguments.EmptyDeltaErases | internal/infra/llmproxy/client.go:228-233 | a concrete failing case: an empty delta after placeholders leaves no arguments at all |
| DeepSeek.DeepSeekStream.ConsumeTool | internal/infra/llmproxy/deepseek.go:253-285 | one tool delta changes the call and sends the events that the specification of one piece says |
| DeepSeek.DeepSeekStream.ConsumeToolDeltas | internal/infra/llmproxy/deepseek.go:247-287 | the loop over tool deltas is the fold of single pieces |
| DeepSeek.DeepSeekStream.ConsumeChoice | internal/infra/llmproxy/deepseek.go:206-233 | text, then reasoning, then tools, each as one piece of the fold, whose pieces ChoiceSays ties to the fields of the choice |
| DeepSeek.DeepSeekStream.CollectParts | internal/infra/llmproxy/deepseek.go:294-311 | the parts by index are those of the slots that the loop over the number of tool calls can reach |
| DeepSeek.DeepSeekStream.Complete | internal/infra/llmproxy/deepseek.go:289-320 | the final response lists the reachable slots in index order |
| DeepSeek.DeepSeekStream.Consume | internal/infra/llmproxy/deepseek.go:181-239 | everything sent for a stream of messages: one opening event, the folded events, and the final response if and only if the end marker came |
| DeepSeek.RunIsIndexed | internal/infra/llmproxy/deepseek.go:241-261 | in every stream the allocated indexes are exactly those below the next one, none shared between slots |
| DeepSeekResponse.StreamMatches | internal/infra/llmproxy/deepseek.go:206-287 | in every stream each slot holds what the provider sent for it, the deltas passed on under its index are what they should be, and every event is about the slot of its index |
| DeepSeekResponse.FinalResponseMatchesStream | internal/infra/llmproxy/deepseek.go:289-320 | the final response has one part per index exactly when the tool-call indexes are 0..k-1; then part i is the one streamed under i, with the provider's text and the deltas passed on |
| DeepSeekResponse.ToolArgumentsAgree | internal/infra/llmproxy/deepseek.go:276-285 | after any placeholders, tool arguments that do not begin with an empty object come out whole in the response and in the deltas, however they are cut |
| DeepSeekMessages.ChoiceSays | internal/infra/llmproxy/deepseek.go:206-233 | a choice's pieces carry its content for the text, its reasoning for the reasoning, and each call's arguments for the call |
| DeepSeekMessages.FinalOutputIsSent | internal/infra/llmproxy/deepseek.go:289-320 | the final response lists the parts in the order of their first content: the whole content as text, the whole reasoning, and for each reachable call the last id and name sent and the arguments sent |
| DeepSeekMessages.StreamIsSent | internal/infra/llmproxy/deepseek.go:206-287 | under each index, what is passed on is what the messages carry for the slot that came in that place |
| DeepSeekMessages.AnnouncedAsNamed | internal/infra/llmproxy/deepseek.go:263-275 | a tool call is announced each time a name is sent for it, with that name and the last id sent for it |
| DeepSeekMessages.AnswerIsSent | internal/infra/llmproxy/deepseek.go:181-239 | an opening event exactly when there is a chunk, then events about output items only, and last, exactly when the end marker came, the final response of what the messages in front of it carry |
| Anthropic.AnthropicStream.ConsumeDelta | internal/infra/llmproxy/anthropic.go:287-329 | what one delta adds to its block and passes on; a delta for an unknown block does nothing |
| Anthropic.AnthropicStream.Complete | internal/infra/llmproxy/anthropic.go:331-347 | the final response lists the blocks under the indexes the loop can reach |
| Anthropic.AnthropicStream.Consume | internal/infra/llmproxy/anthropic.go:239-285 | messages are consumed up to and including the first that ends the stream |
| Anthropic.OrderlyBlocks | internal/infra/llmproxy/anthropic.go:257-329 | when blocks start once and deltas suit them, a block shows its start and its deltas, and its index carries what the deltas pass on |
| Anthropic.TextsAgreeIff | internal/infra/llmproxy/anthropic.go:257-313 | a text or reasoning block ends as its start text and its deltas, the deltas alone are streamed, and the two agree exactly when the block started empty |
| Anthropic.EmptyArgumentsIffLast | internal/infra/llmproxy/anthropic.go:315-327 | after a placeholder start followed by placeholders and white space only, a tool keeps an empty object exactly when nothing follows or the last delta is a placeholder |
| Anthropic.ToolArgumentsIffClean | internal/infra/llmproxy/anthropic.go:315-327 | after a placeholder start, final arguments, streamed deltas and the provider's text agree exactly when no cut looks like a placeholder |
| Anthropic.ToolArgumentsAgree | internal/infra/llmproxy/anthropic.go:315-327 | after a placeholder start and more placeholders, tool arguments come out whole in both views, however they are cut, unless they begin with an empty object |
| Anthropic.FinalResponseMatchesBlocks | internal/infra/llmproxy/anthropic.go:339-343 | the final response holds every block exactly when they are numbered from zero without gaps, and then each stands at its stream index |
| AnthropicResponse.BlockIsSent | internal/infra/llmproxy/anthropic.go:257-329 | in an orderly stream a block is a part with the kind, id and name it started with and the text or the arguments of its start and its deltas |
| AnthropicResponse.StopSendsResponse | internal/infra/llmproxy/anthropic.go:331-347 | the stop message of an orderly stream sends the final response, with the parts of all blocks started under the indexes below their number, in index order |
| AnthropicResponse.MessageSends | internal/infra/llmproxy/anthropic.go:250-280 | what each kind of message sends: the opening event, an announcement, the delta passed on, the final response, an error, or nothing |
| AnthropicResponse.ResponseIffStopped | internal/infra/llmproxy/anthropic.go:273-278 | the final response is sent exactly when the stream is consumed up to a stop message, and then it is the last event |
| AnthropicRequest.AnthropicContent | internal/infra/llmproxy/anthropic.go:118-164 | the blocks of a message in order, content before tool calls, or the first error |
| AnthropicRequest.RequestBuilder.Join | internal/infra/llmproxy/anthropic.go:51-64 | a message goes to the system blocks, to the last turn of its role, or into a new turn |
| AnthropicRequest.BuildRequest | internal/infra/llmproxy/anthropic.go:44-65 | the loop over the messages is the fold of joining, or the first error |
| AnthropicRequest.RequestSaysTheSame | internal/infra/llmproxy/anthropic.go:44-65 | no two turns in a row share a role, the turns are the runs of speakers, every block is said once in order in its own role, and system blocks are the system and developer messages' |
| AnthropicRequest.RefusedIff | internal/infra/llmproxy/anthropic.go:118-180 | a request is refused exactly when some message that is no tool result has a part of an unknown kind, an image or file with neither link nor data and media type, or a call whose arguments are not JSON |
| RequestMeaning.MessageIsSaid | internal/infra/llmproxy/anthropic.go:118-180 | every block of a message carries what the part or the call in its place says, field by field |
| RequestMeaning.RequestIsConversation | internal/infra/llmproxy/anthropic.go:44-65 | the turns say every block of the conversation that is not a system message's, once, in order, in the role of its message, a tool's result as the user; the system blocks are those of system and developer messages |
| ResponsesInput.MessageList.Append | internal/interfaces/http/openai_compat.go:198-210 | an assistant message joins an assistant message in front of it, content to content and calls to calls |
| ResponsesInput.ToNeutral | internal/interfaces/http/openai_compat.go:164-196 | the loop over the items is the fold of appending, or an error at the first refused item |
| ResponsesInput.ConversationSaysTheSame | internal/interfaces/http/openai_compat.go:164-210 | no two assistant messages stand in a row; other messages are unchanged, and between them the assistant's content and calls each keep their order |
| InputMeaning.ConversationIsItems | internal/interfaces/http/openai_compat.go:164-196 | items become a conversation exactly when none of them is refused, and it says all of them in order, messages of other roles whole and between them the assistant's parts and calls with their ids, names, arguments and outputs |
| ResponsesWire.ResponsesStreamAdapter.Convert | internal/interfaces/http/openai_compat.go:397-418 | an event's announcement and translation, numbered on from the last number; what they say of the event is EventsAreTold and CompletionsAreWritten |
| ResponsesWire.NumberedFromOne | internal/interfaces/http/openai_compat.go:413-416 | over a whole stream the sequence numbers are 1, 2, 3 and so on |
| ResponsesWire.ItemsAnnouncedOnce | internal/interfaces/http/openai_compat.go:399-404 | in every stream no item index is announced twice |
| ResponsesWire.AnnouncedIffAllFit | internal/interfaces/http/openai_compat.go:397-496 | every wire delta follows an announcement with its index and item id exactly when the first event about each item is not metadata and has the delta's id prefix |
| ResponsesWire.DeltasAreWritten | internal/interfaces/http/openai_compat.go:563-586 | what is written under an index is what was streamed under it, nothing lost, added or moved |
| ResponsesWire.FinalItemIds | internal/interfaces/http/openai_compat.go:506-537 | without metadata parts, item i of the final response is part i under the id of its kind and index |
| ResponsesWire.PartIsItem | internal/interfaces/http/openai_compat.go:506-537 | every part that is not metadata is an item of the final response, under the id of its kind and index |
| ResponsesWire.ItemIsPart | internal/interfaces/http/openai_compat.go:506-537 | every item of the final response is such a part |
| ResponsesWire.AnnouncedIffFits | internal/interfaces/http/openai_compat.go:397-496 | an item is announced under an id exactly when the first event about its index fits the id's kind |
| ResponsesStream.EventsAreTold | internal/interfaces/http/openai_compat.go:397-418 | a client that reads the wire recovers every event of the stream in order, but for announcements and metadata: the opening, each delta with its kind and index, each final response with its parts, each error |
| ResponsesStream.FinalItemsAreItems | internal/interfaces/http/openai_compat.go:506-537 | the items of a final response are its parts without metadata, in order, each whole and under the id of its kind and its place |
| ResponsesStream.CompletionsAreWritten | internal/interfaces/http/openai_compat.go:589-591 | in every stream each final response is written as a completion with its items, and every completion on the wire is one of these |
| ResponsesStream.LastIsCompletion | internal/interfaces/http/openai_compat.go:589-591 | a stream that ends with a final response ends on the wire with its items |
| ResponsesStream.FirstEventAnnounces | internal/interfaces/http/openai_compat.go:440-486 | an item is announced right where its first event comes, under the id of its kind: a tool call with the id and name that event gives, anything else with its first content part next |
| ProviderToWire.DeepSeekOnTheWire | internal/infra/llmproxy/deepseek.go:181-320 | every DeepSeek stream is announced properly; with contiguous tool indexes the announced items are final items, the final items are the parts in order under their ids, and what is written for each is what its part shows |
| ProviderToWire.AnthropicOnTheWire | internal/infra/llmproxy/anthropic.go:239-347 | an orderly Anthropic stream is announced properly; with contiguous blocks every announced item is an item of the final response and every item of a started block was announced, also when some blocks are metadata |
| ProviderToWire.DeepSeekToolOnTheWire | internal/infra/llmproxy/deepseek.go:253-285 | what is written for a tool call and its final arguments are both the provider's text exactly when no cut looks like a placeholder |
| ProviderToWire.AnthropicToolOnTheWire | internal/infra/llmproxy/anthropic.go:315-327 | the same for a tool block that starts with a placeholder |
| ProviderToWire.AnthropicTextOnTheWire | internal/infra/llmproxy/anthropic.go:257-313 | what is written for a text or reasoning block is its final text exactly when the block started empty |
| WireEnds.DeepSeekEndsInCompletion | internal/infra/llmproxy/deepseek.go:289-320 | a DeepSeek stream with an end marker ends on the wire with a completion of all the parts that the messages in front of it carry, each under the id of its kind and place |
| WireEnds.AnthropicEndsInCompletion | internal/infra/llmproxy/anthropic.go:331-347 | an orderly Anthropic stream ends on the wire, at its stop message, with a completion of its blocks as the messages carry them |
| CatalogTypes.BeforeTotal | internal/infra/persistence/gormstore/session_repository.go:72-89 | any two different keys are ordered by modification time, workspace and resource |
| CatalogTypes.TextLessIsLexicographic | internal/infra/persistence/gormstore/session_repository.go:85-88 | one text stands before another exactly when at the first place where they differ it ends or has the smaller character |
| SessionRepository.RowRoundTrip | internal/infra/persistence/gormstore/session_repository.go:120-163 | a summary read back from its row is its stored form, and itself exactly when its changes are not empty |
| SessionRepository.Repository.ReplaceWorkspace | internal/infra/persistence/gormstore/session_repository.go:19-42 | the workspace's rows become the given ones or, when storage fails, nothing changes |
| SessionRepository.Repository.List | internal/infra/persistence/gormstore/session_repository.go:64-99 | the first rows, in listing order, of those the time filter and the cursor admit |
| SessionRepository.OrderAndLimit | internal/infra/persistence/gormstore/session_repository.go:85-90 | the first `limit` rows of a set in strict listing order |
| SessionRepository.ListingIsNewestFirst | internal/infra/persistence/gormstore/session_repository.go:69-90 | a listing is newest first and holds only rows modified after the time bound and not newer than the cursor; a row that would fit and is left out is no newer than any row of the listing, which then is full |
| Pagination.PageSize | internal/usecase/session/service.go:49-84 | a page size within its bounds, the requested one when it is |
| Pagination.List | internal/usecase/session/service.go:49-100 | a page holds the first rows admitted, newest first, and names its last row exactly when rows remain; a cursor is refused exactly when it is malformed or lacks an id or a time |
| Pagination.ListAll | packages/workbench/src/providers/http-session-catalog-provider.ts:13-27 | the loop ends with the items of a finished walk, with a refused cursor, with a storage failure or with its requests used up, and each as the pages so far say |
| Pagination.WalkIsInOrder | internal/infra/persistence/gormstore/session_repository.go:64-99 | while the table changes between requests, a walk returns rows in strict listing order, so no key twice |
| Pagination.WalkReturnsRows | internal/infra/persistence/gormstore/session_repository.go:64-99 | every row a walk returns was in the table when some request was answered |
| Pagination.StableRowsReturnedOnce | internal/infra/persistence/gormstore/session_repository.go:64-99 | a row whose key stays put during a finished walk is returned exactly once, whatever happens to other rows |
| Pagination.FixedTableWalk | internal/usecase/session/service.go:49-84 | on a fixed table a finished walk returns exactly the filtered rows in order, in max(1, ceil(n / size)) pages |
| Pagination.FixedWalkFinishesIff | internal/usecase/session/service.go:49-100 | a walk over a fixed table that ends has read everything exactly when every last row of a full page that has a successor can be continued from |
| Pagination.FixedTableCompletesIff | packages/workbench/src/providers/http-session-catalog-provider.ts:13-27 | on a fixed table, without storage failures and with requests enough, the client's loop completes, with the whole listing in order, exactly when every boundary row has non-empty ids and a non-zero time |
| Pagination.BoundaryRowsMustBeResumable | internal/usecase/session/service.go:86-100 | the cursor at a page boundary names the last of the full pages' rows and is accepted exactly when that row has non-empty ids and a non-zero time |
| CatalogMirror.CatalogSync.Start | internal/interfaces/http/session_catalog.go:161-193 | after the initial listing the workspace's rows mirror the known sessions; a bad entry or a lost connection changes no row |
| CatalogMirror.CatalogSync.ApplyEvent | internal/interfaces/http/session_catalog.go:195-231 | a handled event keeps the mirror, an unhandled one changes no row, and other workspaces' rows are untouched |
| CatalogMirror.ReplaceMirrors | internal/infra/persistence/gormstore/session_repository.go:19-42 | replacing a workspace makes its rows the listed sessions, the last of a repeated resource, and touches no other workspace |
| CatalogMirror.RunMirrors | internal/interfaces/http/session_catalog.go:161-307 | in every state of every run the stored rows are the known sessions, while other workspaces are written in between |
| CatalogRows.RowsAreReported | internal/interfaces/http/session_catalog.go:161-307 | in every state of every run the workspace has a row for exactly the sessions listed or added and not removed since, and each field of the row is the last one reported |
| CatalogRows.RefusedIffUnparsable | internal/interfaces/http/session_catalog.go:206-274 | an event is refused exactly when it adds a session whose times cannot be parsed |
| CatalogService.SessionCatalogService.Apply | packages/workbench/src/contrib/sessions/session-catalog-service.ts:147-181 | sessions are grouped by workspace in item order, a session's title is that of its last item, and a workspace is offline exactly when one of its sessions says so |
| CatalogService.SessionCatalogService.FinishAll | packages/workbench/src/contrib/sessions/session-catalog-service.ts:107-115 | a full response is applied only if no newer full request and no newer provider request was made |
| CatalogService.SessionCatalogService.FinishProvider | packages/workbench/src/contrib/sessions/session-catalog-service.ts:125-144 | a provider's response replaces that provider's items only, and only if nothing newer covers it |
| RefreshRuns.RefreshesNeverGoBack | packages/workbench/src/contrib/sessions/session-catalog-service.ts:103-145 | whatever the order of completion, the serials applied to a provider strictly increase and it shows exactly what the last of them says about it |
| RefreshOrder.FilterTakes | packages/workbench/src/contrib/sessions/session-catalog-service.ts:140-145 | replacing a provider's items takes exactly the other providers' old items and its own new ones, in their order |
| RefreshOrder.DerivedSay | packages/workbench/src/contrib/sessions/session-catalog-service.ts:159-176 | the workspaces with sessions, the sessions of each, the title of each by its last item, and which workspaces are offline, each in terms of the items |
| RefreshOrder.AppliedIffNotOvertaken | packages/workbench/src/contrib/sessions/session-catalog-service.ts:103-144 | in every run a response is applied exactly when nothing that covers its request was asked for after it; a full response then is the catalog, and a provider's replaces that provider's items behind the others |
| Redaction.RedactingWriter.constructor | internal/infra/terraform/redacting_writer.go:18-37 | duplicates and empty values are dropped and longer secrets come first |
| Redaction.RedactingWriter.Write | internal/infra/terraform/redacting_writer.go:39-58 | complete lines leave redacted, the newline-free tail stays, and a failure is remembered |
| Redaction.RedactingWriter.Flush | internal/infra/terraform/redacting_writer.go:60-75 | the tail leaves redacted and the buffer is empty |
| Redaction.RedactingWriter.WriteRedacted | internal/infra/terraform/redacting_writer.go:77-84 | a line is written with every secret's pass applied in order |
| Redaction.ChunkingIsIrrelevant | internal/infra/terraform/redacting_writer.go:39-84 | however a stream is cut into writes, after one flush the destination has the per-line redaction of the whole stream |
| Redaction.PassCreatesNothing | internal/infra/terraform/redacting_writer.go:77-84 | a replacement pass creates no occurrence of a text that keeps apart from the marker |
| Redaction.PassReplacesOccurrences | internal/infra/terraform/redacting_writer.go:77-84 | a pass takes a line apart at the occurrences of the secret, each the first after the one before it, and puts the very same pieces together again with the marker between them |
| Redaction.RedactionIsComplete | internal/infra/terraform/redacting_writer.go:18-84 | no isolated secret occurs in the redacted stream, including across lines and after later passes |
| Redaction.WriterHidesSecrets | internal/infra/terraform/redacting_writer.go:18-84 | after any writes and a flush the destination, and every part of it, contains no isolated secret |
| Redaction.CleanStreamIsUnchanged | internal/infra/terraform/redacting_writer.go:39-84 | a stream without secrets passes through byte for byte |
| Redaction.InnerNewlineLeaks | internal/infra/terraform/redacting_writer.go:39-58 | a secret with an inner newline passes through the writer |
| Redaction.OverlapLeaks | internal/infra/terraform/redacting_writer.go:77-84 | a secret that can overlap the marker can be rebuilt by another secret's pass |
| Redaction.HiddenIffIsolated | internal/infra/terraform/redacting_writer.go:18-84 | a secret stays hidden beside every choice of other secrets exactly when it has no inner newline and cannot overlap the marker |
| Redaction.DisjointBytesAreIsolated | internal/infra/terraform/redacting_writer.go:18-84 | no newline and no byte of the marker is enough |
| ChatEvents.ChatSession.AppendEvent | packages/workbench/src/services/chat-session.ts:137-152 | a message with a known id is replaced in place, anything else goes to the end |
| ChatEvents.ChatSession.AppendMessageDelta | packages/workbench/src/services/chat-session.ts:154-181 | the first agent message with the id grows, or one is added |
| LiveProjection.Projection.ProjectTool | packages/workbench/src/contrib/sessions/ahp-projection-service.ts:190-285 | a tool action turns the tool's first event into the next one, or adds one |
| LiveProjection.Projection.UpsertToolEvent | packages/workbench/src/contrib/sessions/ahp-projection-service.ts:287-300 | the first event of the tool is replaced in place, or one is added |
| LiveProjection.Projection.Project | packages/workbench/src/contrib/sessions/ahp-projection-service.ts:60-149 | what one action does to the chat's events, the turn and the segment |
| LiveTurn.ScopedIdIsInjective | packages/workbench/src/contrib/sessions/ahp-projection-service.ts:132-144 | within a turn a message id determines part and segment, for part ids none of which reads like a segment of another |
| LiveTurn.ScopedIdsEqualIff | packages/workbench/src/contrib/sessions/ahp-projection-service.ts:132-144 | two message ids of a turn are equal exactly when part and segment agree or one has no segment and its part is the other part followed by the other's segment marker and number |
| LiveTurn.DistinguishedIffApart | packages/workbench/src/contrib/sessions/ahp-projection-service.ts:132-144 | message ids tell all parts and segments of a turn apart exactly when no part id reads like a segment of another |
| LiveTurn.TurnIsShown | packages/workbench/src/contrib/sessions/ahp-projection-service.ts:60-149 | the string-keyed event list is the earlier events followed by the turn's entries, keyed by part and segment |
| LiveTurn.LiveTurnConservesText | packages/workbench/src/contrib/sessions/ahp-projection-service.ts:60-149 | whatever tool actions come, every part's messages in list order add up to its deltas in arrival order, each message holding one segment in rising order; every tool named has one event, in the order of first actions; earlier events stay as they were |
| LiveOrder.FirstComesFirst | packages/workbench/src/contrib/sessions/ahp-projection-service.ts:60-149 | a message stands behind a tool call's event exactly when the tool was named before the message's first text |
| LiveOrder.LaterTextIffNew | packages/workbench/src/contrib/sessions/ahp-projection-service.ts:190-206 | text received after a new tool call is shown behind it exactly when its message is new as well |
| LiveOrder.ShownInOrderIff | packages/workbench/src/contrib/sessions/ahp-projection-service.ts:60-149 | over every turn, each text is shown behind exactly the tool calls named before it if and only if no tool call is named for the first time, unstarted, between two texts of a part |
| LiveOrder.OrderlyIsNeverInterrupted | packages/workbench/src/contrib/sessions/ahp-projection-service.ts:123-125 | starting each tool once before anything else about it is enough for that |
| LiveOrder.ToolsStandInOrder | packages/workbench/src/contrib/sessions/ahp-projection-service.ts:123-125 | when tools are started once before anything else is said about them, a tool has one event, in start order, behind all text received before it started and before all text received after |
| LiveOrder.UnknownToolBreaksOrder | packages/workbench/src/contrib/sessions/ahp-projection-service.ts:190-206 | a concrete interruption: an action for a tool that was never started makes later text join the message in front of it |
| LiveTools.ToolShowsItsActions | packages/workbench/src/contrib/sessions/ahp-projection-service.ts:190-300 | after a live turn the event of a tool call shows what the turn's actions say of it: approved or denied as last confirmed, failed or completed as it ended, with the title, summary and detail they add up to |
| LiveChat.ChatShowsTexts | packages/workbench/src/contrib/sessions/ahp-projection-service.ts:60-83 | after a live turn the chat has a message for a part and a segment exactly when text was received for them, and it shows exactly that text |
| LiveChat.ErrorsAreShown | packages/workbench/src/contrib/sessions/ahp-projection-service.ts:112-122 | whatever actions come, each failure adds one error with its text, in order, and none is lost or changed |
| LiveChat.WholeTurnIsShown | packages/workbench/src/contrib/sessions/ahp-projection-service.ts:84-126 | a whole turn adds to the chat the user's message, unless it is empty, and then the turn's entries; afterwards no turn is active |
| LiveChat.TextOutsideTurns | packages/workbench/src/contrib/sessions/ahp-projection-service.ts:132-144 | outside a turn text goes to the message with the part's own id |
| WorkspaceAttachment.WorkspaceAttachmentService.BeginAttach | packages/workbench/src/services/workspace-attachment.ts:40-48 | an open host of the workspace is used again, otherwise a new generation begins and the current host is closed |
| WorkspaceAttachment.WorkspaceAttachmentService.FinishAttach | packages/workbench/src/services/workspace-attachment.ts:49-54 | a host of an overtaken generation is closed and refused, otherwise it becomes current |
| WorkspaceAttachment.WorkspaceAttachmentService.OnHostClose | packages/workbench/src/services/workspace-attachment.ts:62-66 | listeners hear of a close only from the current host, which is then no longer current |
| AttachmentRuns.AttachmentIsSafe | packages/workbench/src/services/workspace-attachment.ts:40-103 | in every run the current host is of the latest generation, every other host ever connected is closed, and listeners hear of each close at most once |
| AttachmentRuns.OnlyTheCurrentHostIsHeard | packages/workbench/src/services/workspace-attachment.ts:55-66 | whatever listeners are told is about the host that was current, and never of a close the service made |
| AttachmentRuns.OvertakenIsRefused | packages/workbench/src/services/workspace-attachment.ts:47-53 | a connection that an attach or a detach overtook is closed at once and changes nothing else |
| AttachmentRuns.CurrentIffConnected | packages/workbench/src/services/workspace-attachment.ts:40-104 | in every run a host is current exactly when it was the last to be connected by an attach that nothing overtook, and neither a new attach, a detach nor its own close came since |
| AttachmentRuns.HeardIffCurrent | packages/workbench/src/services/workspace-attachment.ts:55-66 | listeners hear a host's action, and its close, exactly while it is the current host |
| VirtualList.VirtualList.FirstVisibleIndex | packages/ui/src/widgets/virtual-list.ts:157-166 | the binary search finds the first row that ends at or below the offset |
| VirtualList.StackedHeights | packages/ui/src/widgets/virtual-list.ts:81-92 | each row has its item's key and height and starts where the one above it ends, the first one at the top |
| VirtualList.VirtualList.ScanCovers | packages/ui/src/widgets/virtual-list.ts:120-155 | what the scan keeps covers the viewport and reaches no farther than the overscan |
| VirtualList.VirtualList.RenderVisible | packages/ui/src/widgets/virtual-list.ts:120-155 | the elements kept are exactly those a linear scan keeps; every row inside the viewport has one, none is for a row farther off than the overscan, and each has its row's place, height and focus |
| VirtualList.VirtualList.SetItems | packages/ui/src/widgets/virtual-list.ts:80-99 | rows stand on one another, the active key survives if its row does, and the window is rendered |
| VirtualList.VirtualList.Reveal | packages/ui/src/widgets/virtual-list.ts:106-114 | a row that fits is fully in view afterwards, having scrolled no more than needed |

## Left out

- Replication.ReplicaEqualsHost: says nothing of session channels and the root channel, because chat actions and session creation change them outside their own log (see ChatActionBypassesSessionLog).
- Replication: the protocol library's reducers are uninterpreted functions, envelope origins and the overflow of the 64-bit sequence are not modelled, and times are not part of a session's state.
- MuxRuns.ClientSeesItsPeer: assumes no more than 2^64 streams on one connection, beyond which ids repeat (see IdsAreFresh).
- MuxRuns.PeerHearsItsClient: covers client messages forwarded by the proxy; the catalog's own transport, whose failed sends do not end its stream, is not modelled.
- MuxRuns: frames are values, so JSON, invalid frames and messages that are not JSON are left out, as are time-outs, the heartbeat, and the reasons inside close frames; an opened frame is remembered without the error that can take its place. One connection of one host process is modelled, and a stream object is named by its place in the order of opening instead of by reference.
- PermissionRuns: the order in which one goroutine answers several requests of a session is left open, and the turn and chat states it looks at change freely.
- DeepSeek: response ids, usage and finish reasons are carried along unread and are left out, as are read errors of the connection and the aliasing of a call's snapshot with its later arguments.
- Anthropic.OrderlyBlocks: asks that blocks start once and deltas suit them, as the provider's protocol says; signatures and raw metadata are not modelled.
- ProviderToWire: the OpenAI provider's final items are flattened from multi-part items, so its ids are not claimed to agree; reasoning envelopes and usage are left out.
- AnthropicRequest: options of a request beside its messages are left out; JSON decoding of tool arguments is a parameter.
- ResponsesInput: the conversion of a single item is taken as given.
- SessionRepository: the database is a map with a total order on text; its collation, transactions and errors are reduced to writes that happen entirely or not at all.
- Pagination.ListAll: is watched for as many requests as versions of the table are given; the text of a cursor is a value, and the provider query parameter, which the server does not read, is left out.
- CatalogMirror: two loops writing the rows of one workspace at the same time are not modelled.
- CatalogService: the answer whether anything changed, local marks (pinned, archived, read) and sessions added by hand are left out.
- Redaction: bytes are 0..255 and the destination either stores a payload or fails after a part of it.
- LiveTurn.LiveTurnConservesText: asks that earlier events of the chat carry none of the turn's message ids and tool ids; a tool id used again in a later turn would change the earlier event in place.
- LiveProjection: one chat of one session is modelled, other chats having keys of their own; snapshots, terminal output and changeset files are left out, and the wording of tool input is uninterpreted.
- AttachmentRuns: telling several listeners is one step, so a listener that detaches while others wait is not modelled.
- VirtualList.VirtualList.FirstVisibleIndex: asks for at most 2^31 rows, beyond which the 32-bit sum of two row numbers wraps.
- VirtualList: heights are non-negative reals, and a browser's clamping of the scroll position is not modelled; keyboard navigation and rendering of elements are user interface.
- `emitAction` (internal/agenthost/terminal.go:429) has no callers and is left out.
- Terminals' processes, git, Terraform, authentication, updates, archives, secrets on disk, and the build and workspace life cycles are outside this model.
