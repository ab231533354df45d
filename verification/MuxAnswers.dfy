/** What the host answers, over every run of both ends. */
module MuxAnswers {
  import opened Collections
  import opened StreamId
  import opened MuxEnds
  import opened MuxRuns

  // ----- Which peers are added

  /** Step k reads an open frame for an id that is no peer, while there is room for one more. */
  ghost predicate AddsAt(states: seq<System>, steps: seq<Step>, k: int, id: string) {
    && 0 <= k < |steps| < |states| && steps[k].HostReads?
    && states[k].toHost != [] && states[k].toHost[0] == Open(id)
    && id !in states[k].host.peers && |states[k].host.peers| < 1 + MAX_LOGICAL_PEERS
  }

  ghost predicate AddedBefore(states: seq<System>, steps: seq<Step>, n: nat, id: string) {
    exists k :: 0 <= k < n && AddsAt(states, steps, k, id)
  }

  lemma HostStep(s: System, step: Step, s': System)
    requires Next(s, step, s') && !step.HostReads? && !step.HostReplies?
    ensures s'.host.members == s.host.members && s'.host.replies == s.host.replies
  {
    match step
    case SendsOpen(_, _) =>
    case Forwards(_, _, _) =>
    case SendsClose(_, _) =>
    case ActsOnControl =>
    case Routes(_) =>
    case _ =>
  }

  lemma AddsNext(states: seq<System>, steps: seq<Step>, n: nat, id: string)
    ensures AddedBefore(states, steps, n + 1, id) <==> AddedBefore(states, steps, n, id) || AddsAt(states, steps, n, id)
  {
  }

  lemma StepAdds(states: seq<System>, steps: seq<Step>, n: nat, id: string)
    requires IsRun(states, steps) && n < |steps|
    ensures id in states[n + 1].host.members <==> id in states[n].host.members || AddsAt(states, steps, n, id)
  {
    assert Next(states[n], steps[n], states[n + 1]);
    if !steps[n].HostReads? && !steps[n].HostReplies? {
      HostStep(states[n], steps[n], states[n + 1]);
    }
  }

  /** In every run a logical peer was added exactly when the host read an open frame for an id that was no peer while
      fewer than sixteen logical peers existed. */
  lemma {:induction false} AddedIffRoom(states: seq<System>, steps: seq<Step>, n: nat, id: string)
    requires IsRun(states, steps) && n <= |steps|
    ensures id in states[n].host.members <==> AddedBefore(states, steps, n, id)
  {
    if n > 0 {
      var m: nat := n - 1;
      AddedIffRoom(states, steps, m, id);
      StepAdds(states, steps, m, id);
      AddsNext(states, steps, m, id);
    }
  }

  // ----- Which answers are given

  /** The answers handed to the host's queue, whether or not it had room for them. */
  function Offered(states: seq<System>, steps: seq<Step>, n: nat): seq<Frame>
    requires n <= |steps| < |states|
  {
    if n == 0 then []
    else
      var k := n - 1;
      Offered(states, steps, k) + if steps[k].HostReplies? && states[k].host.replies != [] then [states[k].host.replies[0]] else []
  }

  ghost predicate IsAnswered(states: seq<System>, steps: seq<Step>, n: nat, frame: Frame)
    requires n <= |steps| < |states|
  {
    frame in Offered(states, steps, n) || frame in states[n].host.replies
  }

  lemma StepAnswers(states: seq<System>, steps: seq<Step>, n: nat, id: string)
    requires IsRun(states, steps) && n < |steps|
    requires IsAnswered(states, steps, n, Opened(id)) <==> id in states[n].host.members
    ensures IsAnswered(states, steps, n + 1, Opened(id)) <==> id in states[n + 1].host.members
  {
    var s, s' := states[n], states[n + 1];
    assert Next(s, steps[n], s');
    if steps[n].HostReads? {
      assert s'.host.replies == Answer(s.host.peers, s.toHost[0]);
    } else if steps[n].HostReplies? {
      assert s.host.replies == [s.host.replies[0]] + s.host.replies[1..];
    } else {
      HostStep(s, steps[n], s');
    }
  }

  /** In every run an acknowledgement is given for an id exactly when its peer was added. */
  lemma {:induction false} AcknowledgedIffAdded(states: seq<System>, steps: seq<Step>, n: nat, id: string)
    requires IsRun(states, steps) && n <= |steps|
    ensures IsAnswered(states, steps, n, Opened(id)) <==> id in states[n].host.members
  {
    if n > 0 {
      var m: nat := n - 1;
      AcknowledgedIffAdded(states, steps, m, id);
      StepAnswers(states, steps, m, id);
    }
  }

  /** A payload the host reads goes to its peer, or is answered by closing its stream, and never both: it goes to the
      peer exactly when that is a logical peer in the table. */
  lemma PayloadIsHandledOrRefused(s: System, s': System)
    requires HostReadsStep(s, s') && s.toHost[0].Data?
    ensures var frame := s.toHost[0];
            && s'.host.peers == s.host.peers
            && (frame.id in s.host.peers && frame.id != DIRECT ==> s'.host.handled == s.host.handled + [frame] && s'.host.replies == [])
            && (frame.id !in s.host.peers || frame.id == DIRECT ==> s'.host.handled == s.host.handled && s'.host.replies == [Close(frame.id)])
  {
  }

  /** What the host has to send, an answer or a payload of a peer, is queued exactly when its queue is open and has room,
      and otherwise lost. */
  lemma SentIffRoom(s: System, step: Step, s': System)
    requires Next(s, step, s') && (step.HostEmits? || step.HostReplies?)
    ensures var frame := if step.HostEmits? then Data(step.id, step.payload) else s.host.replies[0];
            if !s.host.closed && |s.host.outgoing| < OUTGOING
            then s'.host.outgoing == s.host.outgoing + [frame] && s'.host.accepted == s.host.accepted + [frame]
            else s'.host.outgoing == s.host.outgoing && s'.host.accepted == s.host.accepted
  {
  }

  lemma StepAccepts(s: System, step: Step, s': System, frame: Frame)
    requires Next(s, step, s') && !frame.Data? && frame in s'.host.accepted
    ensures frame in s.host.accepted || (step.HostReplies? && s.host.replies != [] && frame == s.host.replies[0])
  {
    match step
    case HostReplies =>
    case HostEmits(_, _) =>
    case SendsOpen(_, _) =>
    case Forwards(_, _, _) =>
    case SendsClose(_, _) =>
    case ActsOnControl =>
    case Routes(_) =>
    case _ =>
  }

  /** Every control frame in the host's queue, or taken from it, was given as an answer. */
  lemma {:induction false} AcceptedIsOffered(states: seq<System>, steps: seq<Step>, n: nat, frame: Frame)
    requires IsRun(states, steps) && n <= |steps| && !frame.Data? && frame in states[n].host.accepted
    ensures frame in Offered(states, steps, n)
  {
    if n > 0 {
      var m: nat := n - 1;
      assert Next(states[m], steps[m], states[m + 1]);
      StepAccepts(states[m], steps[m], states[n], frame);
      if frame in states[m].host.accepted {
        AcceptedIsOffered(states, steps, m, frame);
      }
    }
  }

  // ----- What the server takes for acknowledged

  /** A stream is acknowledged, and forwards its client's messages, only after an acknowledgement arrived. */
  ghost predicate AckOf(o: Stream, n: nat, arrived: seq<Frame>) {
    o.acknowledged || !o.forwarder.Idle? ==> Opened(Id(n)) in arrived
  }

  ghost predicate AcksArrived(s: System) {
    && (s.reader.Holding? ==> s.reader.frame in s.arrived)
    && (forall n :: 0 <= n < |s.server.objects| ==> AckOf(s.server.objects[n], n, s.arrived))
    && (forall frame :: frame in s.sent && frame.Data? ==> Opened(frame.id) in s.arrived)
  }

  /** Nothing becomes acknowledged or is sent to a peer. */
  ghost predicate SaysNoMore(s: System, s': System) {
    && s.arrived <= s'.arrived
    && (s'.reader.Holding? ==> s'.reader == s.reader || s'.reader.frame in s'.arrived)
    && (forall frame :: frame in s'.sent && frame.Data? ==> frame in s.sent)
    && |s.server.objects| <= |s'.server.objects|
    && (forall n :: 0 <= n < |s'.server.objects| ==>
                      var o := s'.server.objects[n];
                      o.acknowledged || !o.forwarder.Idle? ==> n < |s.server.objects| && (s.server.objects[n].acknowledged || !s.server.objects[n].forwarder.Idle?))
  }

  lemma QuietStep(s: System, s': System)
    requires AcksArrived(s) && SaysNoMore(s, s')
    ensures AcksArrived(s')
  {
    forall n | 0 <= n < |s'.server.objects|
      ensures AckOf(s'.server.objects[n], n, s'.arrived)
    {
      assert n < |s.server.objects| ==> AckOf(s.server.objects[n], n, s.arrived);
    }
  }

  lemma ActsOnControlAcks(s: System, s': System)
    requires AcksArrived(s) && ReaderKept(s.server, s.reader) && ActsOnControlStep(s, s')
    ensures AcksArrived(s')
  {
    forall n | 0 <= n < |s'.server.objects|
      ensures AckOf(s'.server.objects[n], n, s'.arrived)
    {
      assert AckOf(s.server.objects[n], n, s.arrived);
    }
  }

  lemma ForwardsAcks(s: System, n: nat, message: Payload, ok: bool, s': System)
    requires AcksArrived(s) && ForwardsStep(s, n, message, ok, s')
    ensures AcksArrived(s')
  {
    assert AckOf(s.server.objects[n], n, s.arrived);
    forall m | 0 <= m < |s'.server.objects|
      ensures AckOf(s'.server.objects[m], m, s'.arrived)
    {
      assert AckOf(s.server.objects[m], m, s.arrived);
    }
  }

  predicate IsHostStep(step: Step) {
    step.HostReads? || step.HostReplies? || step.HostEmits? || step.HostWrites? || step.DropsPeers? || step.HostCloses?
  }

  lemma HostIsQuiet(s: System, step: Step, s': System)
    requires Next(s, step, s') && IsHostStep(step)
    ensures SaysNoMore(s, s')
  {
  }

  predicate IsSend(step: Step) {
    step.Opens? || step.SendsOpen? || step.SendsClose? || step.ServerWrites? || step.StartsForwarding? || step.StopsForwarding?
  }

  lemma SendIsQuiet(s: System, step: Step, s': System)
    requires Next(s, step, s') && IsSend(step)
    ensures SaysNoMore(s, s')
  {
  }

  lemma ReaderIsQuiet(s: System, step: Step, s': System)
    requires Next(s, step, s') && !IsHostStep(step) && !IsSend(step) && !step.ActsOnControl? && !step.Forwards?
    ensures SaysNoMore(s, s')
  {
  }

  lemma StepAcks(s: System, step: Step, s': System)
    requires AcksArrived(s) && ReaderKept(s.server, s.reader) && Next(s, step, s')
    ensures AcksArrived(s')
  {
    if step.ActsOnControl? {
      ActsOnControlAcks(s, s');
    } else if step.Forwards? {
      ForwardsAcks(s, step.n, step.message, step.ok, s');
    } else {
      if IsHostStep(step) {
        HostIsQuiet(s, step, s');
      } else if IsSend(step) {
        SendIsQuiet(s, step, s');
      } else {
        ReaderIsQuiet(s, step, s');
      }
      QuietStep(s, s');
    }
  }

  lemma {:induction false} RunAcks(states: seq<System>, steps: seq<Step>, n: nat)
    requires IsRun(states, steps) && n <= |steps| && |states[n].server.objects| <= UINT64
    ensures AcksArrived(states[n])
  {
    if n > 0 {
      var m: nat := n - 1;
      assert Next(states[m], steps[m], states[m + 1]);
      StreamsOnlyGrow(states[m], steps[m], states[n]);
      RunAcks(states, steps, m);
      RunKeeps(states, steps, m);
      StepAcks(states[m], steps[m], states[n]);
    }
  }

  /** Step k acts on an arrived acknowledgement of a stream. */
  ghost predicate AcksAt(states: seq<System>, steps: seq<Step>, k: int, n: nat) {
    0 <= k < |steps| < |states| && steps[k].ActsOnControl? && states[k].reader.Holding? && states[k].reader.n == n && states[k].reader.frame.Opened?
  }

  ghost predicate AckedBefore(states: seq<System>, steps: seq<Step>, m: nat, n: nat) {
    exists k :: 0 <= k < m && AcksAt(states, steps, k, n)
  }

  predicate IsAcknowledged(s: System, n: nat) {
    n < |s.server.objects| && s.server.objects[n].acknowledged
  }

  lemma AckedNext(states: seq<System>, steps: seq<Step>, m: nat, n: nat)
    ensures AckedBefore(states, steps, m + 1, n) <==> AckedBefore(states, steps, m, n) || AcksAt(states, steps, m, n)
  {
  }

  lemma HostKeepsAcks(s: System, step: Step, s': System, n: nat)
    requires Next(s, step, s') && IsHostStep(step)
    ensures IsAcknowledged(s', n) <==> IsAcknowledged(s, n)
  {
  }

  lemma SendKeepsAcks(s: System, step: Step, s': System, n: nat)
    requires Next(s, step, s') && IsSend(step)
    ensures IsAcknowledged(s', n) <==> IsAcknowledged(s, n)
  {
  }

  lemma OtherKeepsAcks(s: System, step: Step, s': System, n: nat)
    requires Next(s, step, s') && !IsHostStep(step) && !IsSend(step)
    ensures IsAcknowledged(s', n)
       <==> IsAcknowledged(s, n) || (step.ActsOnControl? && s.reader.Holding? && s.reader.n == n && s.reader.frame.Opened?)
  {
  }

  /** In every run a stream is taken for acknowledged exactly when the server acted on an acknowledgement for it. */
  lemma {:induction false} AcknowledgedIffActedOn(states: seq<System>, steps: seq<Step>, m: nat, n: nat)
    requires IsRun(states, steps) && m <= |steps|
    ensures IsAcknowledged(states[m], n) <==> AckedBefore(states, steps, m, n)
  {
    if m > 0 {
      var k: nat := m - 1;
      AcknowledgedIffActedOn(states, steps, k, n);
      assert Next(states[k], steps[k], states[k + 1]);
      if IsHostStep(steps[k]) {
        HostKeepsAcks(states[k], steps[k], states[m], n);
      } else if IsSend(steps[k]) {
        SendKeepsAcks(states[k], steps[k], states[m], n);
      } else {
        OtherKeepsAcks(states[k], steps[k], states[m], n);
      }
      AckedNext(states, steps, k, n);
    }
  }

  lemma ArrivedIsAdded(states: seq<System>, steps: seq<Step>, k: nat, id: string)
    requires IsRun(states, steps) && k <= |steps| && |states[k].server.objects| <= UINT64
    requires Opened(id) in states[k].arrived
    ensures id in states[k].host.members
  {
    RunKeeps(states, steps, k);
    Associative(states[k].arrived, states[k].toServer, states[k].host.outgoing);
    AcceptedIsOffered(states, steps, k, Opened(id));
    AcknowledgedIffAdded(states, steps, k, id);
  }

  /** In every run every acknowledgement in the host's queue or on the wire is for a peer that was added; a stream the
      server takes for acknowledged has had its peer added, and so has every stream it sends a client's message on. */
  lemma AcknowledgedMeansAdded(states: seq<System>, steps: seq<Step>, k: nat)
    requires IsRun(states, steps) && k <= |steps| && |states[k].server.objects| <= UINT64
    ensures var s := states[k];
            && (forall frame :: frame in s.host.accepted && frame.Opened? ==> frame.id in s.host.members)
            && (forall n :: 0 <= n < |s.server.objects| && s.server.objects[n].acknowledged ==> Id(n) in s.host.members)
            && (forall frame :: frame in s.sent && frame.Data? ==> frame.id in s.host.members)
  {
    var s := states[k];
    RunAcks(states, steps, k);
    forall frame | frame in s.host.accepted && frame.Opened?
      ensures frame.id in s.host.members
    {
      AcceptedIsOffered(states, steps, k, frame);
      AcknowledgedIffAdded(states, steps, k, frame.id);
    }
    forall n | 0 <= n < |s.server.objects| && s.server.objects[n].acknowledged
      ensures Id(n) in s.host.members
    {
      assert AckOf(s.server.objects[n], n, s.arrived);
      ArrivedIsAdded(states, steps, k, Id(n));
    }
    forall frame | frame in s.sent && frame.Data?
      ensures frame.id in s.host.members
    {
      ArrivedIsAdded(states, steps, k, frame.id);
    }
  }
}
