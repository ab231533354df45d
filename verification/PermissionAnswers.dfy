/** Which answer a permission request gets, over every run. */
module PermissionAnswers {
  import opened PermissionDesk
  import opened PermissionRuns
  import opened Wrappers

  // ----- How a request starts

  /** What a request is told at once, and what it waits for otherwise, by the session it is about. */
  predicate AskedRightly(sessions: map<string, Session>, resource: string, asked: Asked) {
    match asked
    case Decided(AllowOnce) =>
      resource in sessions && sessions[resource].activeTurn.Some? && sessions[resource].approvalMode in ["allow", "autopilot"]
    case Decided(Deny) => false
    case Decided(Cancel) => resource in sessions ==> sessions[resource].activeTurn.None?
    case Waits(p) =>
      resource in sessions && sessions[resource].approvalMode !in ["allow", "autopilot"]
      && p.resource == sessions[resource].resource && p.chat == sessions[resource].chat && Some(p.turnId) == sessions[resource].activeTurn
  }

  /** In every run a request is cancelled at once exactly when its session has no turn, allowed at once exactly when
      the session's mode allows everything, and waits otherwise, for the chat and the turn of that moment. */
  lemma RequestsAreAskedRightly(states: seq<System>, steps: seq<Step>, n: nat, r: nat) returns (k: nat)
    requires IsRun(states, steps) && n <= |steps| && r < |states[n].requests|
    ensures k < n && steps[k].Asks? && |states[k].requests| == r
    ensures AskedRightly(states[k].sessions, steps[k].resource, states[n].requests[r].asked)
  {
    k := RequestsAreSteps(states, steps, n, r);
  }

  // ----- How it is answered

  /** The step takes the request that waits with these words away, to answer it so. */
  predicate Takes(s: System, step: Step, p: Pending, d: Decision) {
    p.toolCallId in s.permissions && s.permissions[p.toolCallId] == p
    && match step
       case Confirms(_, c, key) =>
         key == p.toolCallId == c.toolCallId && c.chat == p.chat && c.turnId == p.turnId && d == if c.approved then AllowOnce else Deny
       case CancelsAll(resource) => p.resource == resource && d.Cancel?
       case Closes => d.Cancel?
       case _ => false
  }

  ghost predicate TakenAt(states: seq<System>, steps: seq<Step>, k: int, p: Pending, d: Decision) {
    0 <= k < |steps| < |states| && Takes(states[k], steps[k], p, d)
  }

  ghost predicate TakenBefore(states: seq<System>, steps: seq<Step>, n: nat, p: Pending, d: Decision) {
    exists k :: 0 <= k < n && TakenAt(states, steps, k, p, d)
  }

  ghost predicate HasTaskWith(s: System, p: Pending, d: Decision) {
    exists task :: task in s.tasks && task.pending == p && task.decision == d
  }

  /** A goroutine is about to send the decision, or the channel holds it, or the request has taken it out. */
  ghost predicate Decides(s: System, r: nat, p: Pending, d: Decision)
    requires r < |s.requests|
  {
    var q := s.requests[r];
    HasTaskWith(s, p, d) || q.channel == [d] || (q.answers == 1 && q.channel == [] && q.returned == Some(d))
  }

  ghost predicate Waiter(s: System, r: nat, p: Pending) {
    r < |s.requests| && s.requests[r].asked == Waits(p)
  }

  ghost predicate Follows(s: System, step: Step, s': System, r: nat, p: Pending, d: Decision)
    requires r < |s.requests| && r < |s'.requests|
  {
    Decides(s', r, p, d) <==> Decides(s, r, p, d) || Takes(s, step, p, d)
  }

  lemma SameTasks(s: System, s': System, p: Pending, d: Decision)
    requires s'.tasks == s.tasks
    ensures HasTaskWith(s', p, d) <==> HasTaskWith(s, p, d)
  {
  }

  lemma WaiterOwns(s: System, r: nat, p: Pending)
    requires Inv(s) && Waiter(s, r, p)
    ensures p.request == r && Staged(s, r)
    ensures forall task :: task in s.tasks && task.pending.request == r ==> task.pending == p
    ensures p.toolCallId in s.permissions ==> s.permissions[p.toolCallId] == p
    ensures forall key :: key in s.permissions && s.permissions[key] == p ==> key == p.toolCallId
  {
    forall task | task in s.tasks && task.pending.request == r
      ensures task.pending == p
    {
      assert IsRequest(s, task.pending);
    }
    if p.toolCallId in s.permissions {
      var q := s.permissions[p.toolCallId];
      assert IsRequest(s, q) && q.toolCallId == p.toolCallId;
      assert HasKey(s.requests[q.request], p.toolCallId) && HasKey(s.requests[r], p.toolCallId);
    }
  }

  lemma ReturnsDecides(s: System, at: nat, s': System, r: nat, p: Pending, d: Decision)
    requires Inv(s) && Waiter(s, r, p) && (ReturnsStep(s, at, s') || ContextEndsStep(s, at, s'))
    ensures Waiter(s', r, p) && (Decides(s', r, p, d) <==> Decides(s, r, p, d))
  {
    WaiterOwns(s, r, p);
    SameTasks(s, s', p, d);
    assert HasTaskWith(s, p, d) ==> HasTask(s, r);
  }

  lemma TakesDecides(s: System, keys: set<string>, decision: Decision, s': System, r: nat, p: Pending, d: Decision)
    requires Inv(s) && Waiter(s, r, p) && Taken(s, keys, decision, s')
    ensures Waiter(s', r, p)
    ensures Decides(s', r, p, d) <==> Decides(s, r, p, d) || (p.toolCallId in keys && d == decision)
  {
    WaiterOwns(s, r, p);
    if task :| task in s.tasks && task.pending == p && task.decision == d {
      assert task in s'.tasks;
    }
    if p.toolCallId in keys {
      assert Task(p, decision, false) in s'.tasks;
    }
    if task :| task in s'.tasks && task.pending == p && task.decision == d {
      assert task in s.tasks || IsTaken(s, keys, decision, task);
    }
  }

  lemma AnnouncesDecides(s: System, task: Task, s': System, r: nat, p: Pending, d: Decision)
    requires Waiter(s, r, p) && AnnouncesStep(s, task, s')
    ensures Waiter(s', r, p) && (Decides(s', r, p, d) <==> Decides(s, r, p, d))
  {
    var done := task.(announced := true);
    if other :| other in s.tasks && other.pending == p && other.decision == d {
      assert if other == task then done in s'.tasks else other in s'.tasks;
    }
    if other :| other in s'.tasks && other.pending == p && other.decision == d {
      assert if other == done then task in s.tasks else other in s.tasks;
    }
  }

  lemma AnswersDecides(s: System, task: Task, s': System, r: nat, p: Pending, d: Decision)
    requires Inv(s) && Waiter(s, r, p) && AnswersStep(s, task, s')
    ensures Waiter(s', r, p) && (Decides(s', r, p, d) <==> Decides(s, r, p, d))
  {
    WaiterOwns(s, r, p);
    if other :| other in s.tasks && other.pending == p && other.decision == d {
      assert other != task ==> other in s'.tasks;
    }
    if task.pending.request == r {
      assert HasTask(s, r);
      assert s'.requests[r].channel == [task.decision];
      assert forall other :: other in s'.tasks ==> other.pending.request != r;
    }
  }

  lemma TakingStepDecides(s: System, step: Step, s': System, r: nat, p: Pending, d: Decision)
    requires Inv(s) && Waiter(s, r, p) && Next(s, step, s') && (step.Confirms? || step.CancelsAll? || step.Closes?)
    ensures Waiter(s', r, p) && Follows(s, step, s', r, p, d)
  {
    WaiterOwns(s, r, p);
    match step
    case Confirms(peer, c, key) =>
      ConfirmedIsTaken(s, peer, c, key, s');
      TakesDecides(s, {key}, Decide(c.approved), s', r, p, d);
    case CancelsAll(resource) =>
      TasksAreTaken(s, Of(s.permissions, resource), Cancel, s');
      TakesDecides(s, Of(s.permissions, resource), Cancel, s', r, p, d);
    case Closes =>
      TasksAreTaken(s, s.permissions.Keys, Cancel, s');
      TakesDecides(s, s.permissions.Keys, Cancel, s', r, p, d);
  }

  lemma StepDecides(s: System, step: Step, s': System, r: nat, p: Pending, d: Decision)
    requires Inv(s) && Waiter(s, r, p) && Next(s, step, s')
    ensures Waiter(s', r, p) && Follows(s, step, s', r, p, d)
  {
    match step
    case Returns(at) => ReturnsDecides(s, at, s', r, p, d);
    case ContextEnds(at) => ReturnsDecides(s, at, s', r, p, d);
    case Announces(task) => AnnouncesDecides(s, task, s', r, p, d);
    case Answers(task) => AnswersDecides(s, task, s', r, p, d);
    case Confirms(_, _, _) => TakingStepDecides(s, step, s', r, p, d);
    case CancelsAll(_) => TakingStepDecides(s, step, s', r, p, d);
    case Closes => TakingStepDecides(s, step, s', r, p, d);
    case _ => SameTasks(s, s', p, d);
  }

  lemma {:induction false} RequestsGrow(states: seq<System>, steps: seq<Step>, k: nat, n: nat)
    requires IsRun(states, steps) && k <= n <= |steps|
    ensures |states[k].requests| <= |states[n].requests|
  {
    if k < n {
      var m: nat := n - 1;
      assert Next(states[m], steps[m], states[m + 1]);
      RequestsGrow(states, steps, k, m);
    }
  }

  /** Nobody takes a request away that was not made yet. */
  lemma NotTakenYet(states: seq<System>, steps: seq<Step>, k: nat, n: nat, p: Pending, d: Decision)
    requires IsRun(states, steps) && k <= n < |steps| && |states[n].requests| <= p.request
    ensures !TakenAt(states, steps, k, p, d)
  {
    RunKeeps(states, steps, k);
    RequestsGrow(states, steps, k, n);
    assert p.toolCallId in states[k].permissions ==> IsRequest(states[k], states[k].permissions[p.toolCallId]);
  }

  lemma NewIsUndecided(states: seq<System>, steps: seq<Step>, n: nat, p: Pending, d: Decision)
    requires IsRun(states, steps) && n < |steps| && |states[n].requests| == p.request && Waiter(states[n + 1], p.request, p)
    ensures !Decides(states[n + 1], p.request, p, d) && !TakenBefore(states, steps, n + 1, p, d)
  {
    assert Next(states[n], steps[n], states[n + 1]);
    RunKeeps(states, steps, n);
    forall task | task in states[n + 1].tasks
      ensures task.pending.request < p.request
    {
      assert IsRequest(states[n], task.pending);
    }
    forall k | 0 <= k < n + 1
      ensures !TakenAt(states, steps, k, p, d)
    {
      NotTakenYet(states, steps, k, n, p, d);
    }
  }

  lemma TakenNext(states: seq<System>, steps: seq<Step>, n: nat, p: Pending, d: Decision)
    ensures TakenBefore(states, steps, n + 1, p, d) <==> TakenBefore(states, steps, n, p, d) || TakenAt(states, steps, n, p, d)
  {
  }

  lemma WaiterWas(states: seq<System>, steps: seq<Step>, n: nat, r: nat, p: Pending)
    requires IsRun(states, steps) && n < |steps| && Waiter(states[n + 1], r, p)
    ensures p.request == r && (Waiter(states[n], r, p) || |states[n].requests| == r)
  {
    assert Next(states[n], steps[n], states[n + 1]);
    RunKeeps(states, steps, n + 1);
    WaiterOwns(states[n + 1], r, p);
    StepKeepsQuestions(states[n], steps[n], states[n + 1], r);
  }

  /** In every run: the one answer of a request, on its way, in its channel or taken out of it, is AllowOnce exactly
      when a confirmation that approved took the request away, Deny exactly when one that did not approve did, and
      Cancel exactly when the cancellation of its session or the end of the host did. */
  lemma {:induction false} AnsweredAsTaken(states: seq<System>, steps: seq<Step>, n: nat, r: nat, p: Pending, d: Decision)
    requires IsRun(states, steps) && n <= |steps| && Waiter(states[n], r, p)
    ensures Decides(states[n], r, p, d) <==> TakenBefore(states, steps, n, p, d)
  {
    var m: nat := n - 1;
    WaiterWas(states, steps, m, r, p);
    if Waiter(states[m], r, p) {
      AnsweredAsTaken(states, steps, m, r, p, d);
      RunKeeps(states, steps, m);
      assert Next(states[m], steps[m], states[m + 1]);
      StepDecides(states[m], steps[m], states[n], r, p, d);
      TakenNext(states, steps, m, p, d);
    } else {
      NewIsUndecided(states, steps, m, p, d);
    }
  }

  // ----- What a request returns

  ghost predicate ContextEndedBefore(steps: seq<Step>, n: nat, r: nat) {
    exists k :: 0 <= k < n <= |steps| && steps[k] == ContextEnds(r)
  }

  /** A request that waited has returned what it took from its channel, unless its context ended. */
  ghost predicate ReturnedRightly(s: System, r: nat, ended: bool) {
    r < |s.requests| && s.requests[r].asked.Waits? && s.requests[r].returned.Some? ==>
      if ended then s.requests[r].returned == Some(Cancel)
      else s.requests[r].answers == 1 && s.requests[r].channel == []
  }

  lemma StepReturns(s: System, step: Step, s': System, r: nat, ended: bool)
    requires Inv(s) && Next(s, step, s') && ReturnedRightly(s, r, ended)
    requires ended ==> r < |s.requests| && s.requests[r].returned.Some?
    ensures ReturnedRightly(s', r, ended || step == ContextEnds(r))
    ensures ended || step == ContextEnds(r) ==> r < |s'.requests| && s'.requests[r].returned.Some?
  {
    assert r < |s.requests| ==> Staged(s, r);
    if step.Answers? {
      var task := step.task;
      assert IsRequest(s, task.pending) && HasTask(s, task.pending.request);
    }
  }

  lemma EndedNext(steps: seq<Step>, n: nat, r: nat)
    requires n < |steps|
    ensures ContextEndedBefore(steps, n + 1, r) <==> ContextEndedBefore(steps, n, r) || steps[n] == ContextEnds(r)
  {
    assert steps[n] == ContextEnds(r) ==> ContextEndedBefore(steps, n + 1, r);
  }

  lemma {:induction false} RunReturns(states: seq<System>, steps: seq<Step>, n: nat, r: nat)
    requires IsRun(states, steps) && n <= |steps|
    ensures ReturnedRightly(states[n], r, ContextEndedBefore(steps, n, r))
    ensures ContextEndedBefore(steps, n, r) ==> r < |states[n].requests| && states[n].requests[r].returned.Some?
  {
    if n > 0 {
      var m: nat := n - 1;
      RunReturns(states, steps, m, r);
      RunKeeps(states, steps, m);
      assert Next(states[m], steps[m], states[m + 1]);
      StepReturns(states[m], steps[m], states[n], r, ContextEndedBefore(steps, m, r));
      EndedNext(steps, m, r);
    }
  }

  /** In every run: when a request that waited has returned, it returned Cancel if its context ended first, and otherwise
      exactly the answer of the step that took it away. */
  lemma ReturnsAsTaken(states: seq<System>, steps: seq<Step>, n: nat, r: nat, p: Pending, d: Decision)
    requires IsRun(states, steps) && n <= |steps| && Waiter(states[n], r, p) && states[n].requests[r].returned.Some?
    ensures states[n].requests[r].returned == Some(d)
       <==> if ContextEndedBefore(steps, n, r) then d.Cancel? else TakenBefore(states, steps, n, p, d)
  {
    RunReturns(states, steps, n, r);
    AnsweredAsTaken(states, steps, n, r, p, d);
    RunKeeps(states, steps, n);
    WaiterOwns(states[n], r, p);
    assert HasTaskWith(states[n], p, d) ==> HasTask(states[n], r);
  }
}
