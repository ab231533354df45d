/** Tool permission requests and the goroutines that can answer them (internal/agenthost/host.go,
    terminal.go). */
module PermissionDesk {
  import opened StreamId
  import opened Wrappers

  datatype Decision = AllowOnce | Deny | Cancel

  datatype Session = Session(resource: string, chat: string, activeTurn: Option<string>, approvalMode: string)

  /** A request waiting for an answer; `request` stands for its reply channel. */
  datatype Pending = Pending(resource: string, chat: string, turnId: string, toolCallId: string, request: nat)

  type Permissions = map<string, Pending>

  datatype Asked = Decided(decision: Decision) | Waits(pending: Pending)

  datatype Confirmation = Confirmation(chat: string, turnId: string, toolCallId: string, approved: bool)

  function Key(sequence: nat): string {
    "permission-" + Decimal(sequence)
  }

  lemma KeyIsInjective(m: nat, n: nat)
    ensures Key(m) == Key(n) ==> m == n
  {
    assert Key(m)[11..] == Decimal(m) && Key(n)[11..] == Decimal(n);
    DecimalIsInjective(m, n);
  }

  predicate AllowsAll(mode: string) {
    mode == "allow" || mode == "autopilot"
  }

  function Ask(sessions: map<string, Session>, sequence: nat, resource: string, request: nat): Asked {
    if resource !in sessions || sessions[resource].activeTurn.None? then Decided(Cancel)
    else
      var s := sessions[resource];
      if AllowsAll(s.approvalMode) then Decided(AllowOnce)
      else Waits(Pending(s.resource, s.chat, s.activeTurn.value, Key(sequence + 1), request))
  }

  predicate Matches(p: Pending, c: Confirmation) {
    p.chat == c.chat && p.turnId == c.turnId && p.toolCallId == c.toolCallId
  }

  function Decide(approved: bool): Decision {
    if approved then AllowOnce else Deny
  }

  function Of(permissions: Permissions, resource: string): set<string> {
    set key | key in permissions && permissions[key].resource == resource
  }

  class Desk {
    var sequence: nat
    var sessions: map<string, Session>
    var permissions: Permissions
    var subscriptions: map<nat, set<string>>

    constructor ()
      ensures sequence == 0 && sessions == map[] && permissions == map[] && subscriptions == map[]
    {
      sequence, sessions, permissions, subscriptions := 0, map[], map[], map[];
    }

    /** The critical section of a request. */
    method Open(resource: string, request: nat) returns (asked: Asked)
      modifies this`sequence, this`permissions
      ensures asked == Ask(sessions, old(sequence), resource, request)
      ensures asked == Decided(Cancel) <==> resource !in sessions || sessions[resource].activeTurn.None?
      ensures asked == Decided(AllowOnce) <==>
              resource in sessions && sessions[resource].activeTurn.Some? && sessions[resource].approvalMode in ["allow", "autopilot"]
      ensures asked.Waits? ==> asked.pending.chat == sessions[resource].chat && Some(asked.pending.turnId) == sessions[resource].activeTurn
      ensures sequence == old(sequence) + if asked.Waits? then 1 else 0
      ensures permissions == if asked.Waits? then old(permissions)[asked.pending.toolCallId := asked.pending] else old(permissions)
    {
      if resource !in sessions || sessions[resource].activeTurn.None? {
        return Decided(Cancel);
      }
      var session := sessions[resource];
      if session.approvalMode == "allow" || session.approvalMode == "autopilot" {
        return Decided(AllowOnce);
      }
      sequence := sequence + 1;
      var key := Key(sequence);
      var pending := Pending(session.resource, session.chat, session.activeTurn.value, key, request);
      permissions := permissions[key := pending];
      return Waits(pending);
    }

    method Forget(key: string)
      modifies this`permissions
      ensures permissions == old(permissions) - {key}
    {
      permissions := permissions - {key};
    }

    /** Takes the confirmed request away if the peer is subscribed to the chat. */
    method Confirm(peer: nat, c: Confirmation) returns (taken: Option<Pending>)
      requires peer in subscriptions
      modifies this`permissions
      ensures taken.None? ==> permissions == old(permissions)
                              && (c.chat !in subscriptions[peer] || forall key :: key in permissions ==> !Matches(permissions[key], c))
      ensures taken.Some? ==> c.chat in subscriptions[peer] && Matches(taken.value, c)
                              && exists key :: key in old(permissions) && old(permissions)[key] == taken.value && permissions == old(permissions) - {key}
      ensures taken.Some? ==> taken.value.chat == c.chat && taken.value.turnId == c.turnId && taken.value.toolCallId == c.toolCallId
    {
      taken := None;
      var id := "";
      var keys := permissions.Keys;
      while keys != {} && taken.None?
        invariant keys <= permissions.Keys && permissions == old(permissions)
        invariant taken.None? ==> forall key :: key in permissions && key !in keys ==> !Matches(permissions[key], c)
        invariant taken.Some? ==> id in permissions && permissions[id] == taken.value && Matches(taken.value, c)
        decreases keys, taken.None?
      {
        var key :| key in keys;
        if Matches(permissions[key], c) {
          taken := Some(permissions[key]);
          id := key;
        }
        keys := keys - {key};
      }
      var subscribed := c.chat in subscriptions[peer];
      if taken.None? || !subscribed {
        return None;
      }
      permissions := permissions - {id};
    }

    /** Takes every request of a session away. */
    method CancelAll(resource: string) returns (taken: set<Pending>)
      modifies this`permissions
      ensures taken == set key | key in Of(old(permissions), resource) :: old(permissions)[key]
      ensures permissions == old(permissions) - Of(old(permissions), resource)
      ensures forall key :: key in permissions <==> key in old(permissions) && old(permissions)[key].resource != resource
    {
      taken := {};
      var keys := permissions.Keys;
      ghost var seen: set<string> := {};
      while keys != {}
        invariant seen + keys == old(permissions).Keys && seen !! keys
        invariant permissions == old(permissions) - (seen * Of(old(permissions), resource))
        invariant taken == set key | key in seen && key in Of(old(permissions), resource) :: old(permissions)[key]
        decreases keys
      {
        var key :| key in keys;
        if permissions[key].resource == resource {
          taken := taken + {permissions[key]};
          permissions := permissions - {key};
        }
        seen, keys := seen + {key}, keys - {key};
      }
    }

    /** The end of the host takes every request away. */
    method Close() returns (taken: set<Pending>)
      modifies this`permissions
      ensures taken == old(permissions).Values && permissions == map[]
    {
      taken := permissions.Values;
      permissions := map[];
    }
  }
}

/** Every interleaving of requests, answers, cancellations and the end of the host. */
module PermissionRuns {
  import opened PermissionDesk
  import opened Wrappers

  /** A goroutine that has taken a request away: it announces the removal, then sends its decision. */
  datatype Task = Task(pending: Pending, decision: Decision, announced: bool)

  /** `channel` is the reply channel's buffer and `answers` counts the values ever sent to it. */
  datatype Request = Request(asked: Asked, returned: Option<Decision>, channel: seq<Decision>, answers: nat)

  /** A confirmation a peer made while subscribed to the chat. */
  datatype Approval = Approval(peer: nat, confirmation: Confirmation)

  datatype System = System(
    sequence: nat, sessions: map<string, Session>, permissions: Permissions, subscriptions: map<nat, set<string>>,
    requests: seq<Request>, tasks: set<Task>, announced: seq<string>, approvals: seq<Approval>)

  datatype Step =
    | Asks(resource: string)
    | Returns(r: nat)
    | ContextEnds(r: nat)
    | Forgets(r: nat)
    | Confirms(peer: nat, confirmation: Confirmation, key: string)
    | CancelsAll(resource: string)
    | Closes
    | Announces(task: Task)
    | Answers(task: Task)
    | Elsewhere(sequence: nat, sessions: map<string, Session>, subscriptions: map<nat, set<string>>)

  function TasksFor(taken: Permissions, decision: Decision): set<Task> {
    set key | key in taken :: Task(taken[key], decision, false)
  }

  ghost predicate AsksStep(s: System, resource: string, s': System) {
    var asked := Ask(s.sessions, s.sequence, resource, |s.requests|);
    var returned := if asked.Decided? then Some(asked.decision) else None;
    s' == s.(sequence := s.sequence + if asked.Waits? then 1 else 0,
    permissions := if asked.Waits? then s.permissions[asked.pending.toolCallId := asked.pending] else s.permissions,
    requests := s.requests + [Request(asked, returned, [], 0)])
  }

  predicate IsWaiting(s: System, r: nat) {
    r < |s.requests| && s.requests[r].asked.Waits? && s.requests[r].returned.None?
  }

  ghost predicate ReturnsStep(s: System, r: nat, s': System) {
    IsWaiting(s, r) && s.requests[r].channel != []
    && var q := s.requests[r];
    s' == s.(requests := s.requests[r := q.(returned := Some(q.channel[0]), channel := q.channel[1..])])
  }

  ghost predicate ContextEndsStep(s: System, r: nat, s': System) {
    IsWaiting(s, r) && s' == s.(requests := s.requests[r := s.requests[r].(returned := Some(Cancel))])
  }

  ghost predicate ForgetsStep(s: System, r: nat, s': System) {
    r < |s.requests| && s.requests[r].asked.Waits? && s.requests[r].returned.Some?
    && s' == s.(permissions := s.permissions - {s.requests[r].asked.pending.toolCallId})
  }

  ghost predicate ConfirmsStep(s: System, peer: nat, c: Confirmation, key: string, s': System) {
    && peer in s.subscriptions && c.chat in s.subscriptions[peer]
    && key in s.permissions && Matches(s.permissions[key], c)
    && s' == s.(permissions := s.permissions - {key},
             tasks := s.tasks + {Task(s.permissions[key], Decide(c.approved), false)},
             approvals := if c.approved then s.approvals + [Approval(peer, c)] else s.approvals)
  }

  ghost predicate TakesStep(s: System, keys: set<string>, s': System) {
    && keys <= s.permissions.Keys
    && s' == s.(permissions := s.permissions - keys,
             tasks := s.tasks + TasksFor(map key | key in keys && key in s.permissions :: s.permissions[key], Cancel))
  }

  ghost predicate AnnouncesStep(s: System, task: Task, s': System) {
    task in s.tasks && !task.announced
    && s' == s.(tasks := s.tasks - {task} + {task.(announced := true)}, announced := s.announced + [task.pending.toolCallId])
  }

  /** A send to a full channel would wait, so it is no step. */
  ghost predicate AnswersStep(s: System, task: Task, s': System) {
    task in s.tasks && task.announced && task.pending.request < |s.requests|
    && var r := task.pending.request;
    var q := s.requests[r];
    |q.channel| < 1
    && s' == s.(tasks := s.tasks - {task}, requests := s.requests[r := q.(channel := q.channel + [task.decision], answers := q.answers + 1)])
  }

  ghost predicate Next(s: System, step: Step, s': System) {
    match step
    case Asks(resource) => AsksStep(s, resource, s')
    case Returns(r) => ReturnsStep(s, r, s')
    case ContextEnds(r) => ContextEndsStep(s, r, s')
    case Forgets(r) => ForgetsStep(s, r, s')
    case Confirms(peer, c, key) => ConfirmsStep(s, peer, c, key, s')
    case CancelsAll(resource) => TakesStep(s, Of(s.permissions, resource), s')
    case Closes => TakesStep(s, s.permissions.Keys, s')
    case Announces(task) => AnnouncesStep(s, task, s')
    case Answers(task) => AnswersStep(s, task, s')
    case Elsewhere(sequence, sessions, subscriptions) =>
      s.sequence <= sequence && s' == s.(sequence := sequence, sessions := sessions, subscriptions := subscriptions)
  }

  const START := System(0, map[], map[], map[], [], {}, [], [])

  ghost predicate IsRun(states: seq<System>, steps: seq<Step>) {
    |states| == |steps| + 1 && states[0] == START
    && forall i :: 0 <= i < |steps| ==> Next(states[i], steps[i], states[i + 1])
  }

  // ----- What every step keeps

  ghost predicate HasTask(s: System, r: nat) {
    exists task :: task in s.tasks && task.pending.request == r
  }

  ghost predicate Numbered(sequence: nat, key: string) {
    exists n: nat :: 0 < n <= sequence && key == Key(n)
  }

  predicate HasKey(q: Request, key: string) {
    q.asked.Waits? && q.asked.pending.toolCallId == key
  }

  ghost predicate IsAsked(requests: seq<Request>, key: string) {
    exists r :: 0 <= r < |requests| && HasKey(requests[r], key)
  }

  /** A request is made with a key of its own. */
  ghost predicate KeysAreFresh(s: System) {
    && (forall r :: 0 <= r < |s.requests| && s.requests[r].asked.Waits? ==>
                      var p := s.requests[r].asked.pending;
                      p.request == r && Numbered(s.sequence, p.toolCallId))
    && (forall q, r :: 0 <= q < r < |s.requests| && s.requests[q].asked.Waits? && s.requests[r].asked.Waits?
                       ==> s.requests[q].asked.pending.toolCallId != s.requests[r].asked.pending.toolCallId)
  }

  /** Whatever is pending or being answered is some request's. */
  ghost predicate Owned(s: System) {
    && (forall key :: key in s.permissions ==> key == s.permissions[key].toolCallId && IsRequest(s, s.permissions[key]))
    && (forall task :: task in s.tasks ==> IsRequest(s, task.pending))
    && (forall key :: key in s.announced ==> IsAsked(s.requests, key))
  }

  predicate IsRequest(s: System, p: Pending) {
    p.request < |s.requests| && s.requests[p.request].asked == Waits(p)
  }

  /** A request is pending, then taken by one goroutine, then answered; it is announced removed once in
      between. While it waits it is in one of these stages, so it can still be answered. */
  ghost predicate Staged(s: System, r: nat)
    requires r < |s.requests|
  {
    var q := s.requests[r];
    q.asked.Waits? ==>
      var key := q.asked.pending.toolCallId;
      && q.answers <= 1 && |q.channel| <= q.answers
      && (key in s.permissions ==> !HasTask(s, r) && q.answers == 0 && key !in s.announced)
      && (HasTask(s, r) ==> q.answers == 0)
      && (forall task :: task in s.tasks && task.pending.request == r ==> (task.announced <==> key in s.announced))
      && (q.returned.None? ==> |q.channel| == q.answers && (key in s.permissions || HasTask(s, r) || q.answers == 1))
  }

  ghost predicate OneTaskEach(s: System) {
    && (forall a, b :: a in s.tasks && b in s.tasks && a.pending.request == b.pending.request ==> a == b)
    && (forall i, j :: 0 <= i < j < |s.announced| ==> s.announced[i] != s.announced[j])
  }

  /** Someone subscribed to the chat approved this very call. */
  ghost predicate Approved(approvals: seq<Approval>, p: Pending) {
    exists a :: a in approvals && a.confirmation.approved && Matches(p, a.confirmation)
  }

  ghost predicate AllowedRightly(s: System) {
    && (forall task :: task in s.tasks && task.decision.AllowOnce? ==> Approved(s.approvals, task.pending))
    && (forall r :: 0 <= r < |s.requests| ==> RequestRight(s, r))
  }

  ghost predicate RequestRight(s: System, r: nat)
    requires r < |s.requests|
  {
    var q := s.requests[r];
    match q.asked
    case Decided(decision) => q.returned == Some(decision) && q.channel == []
    case Waits(p) => AllowOnce in q.channel || q.returned == Some(AllowOnce) ==> Approved(s.approvals, p)
  }

  ghost predicate Inv(s: System) {
    && KeysAreFresh(s)
    && Owned(s)
    && OneTaskEach(s)
    && (forall r :: 0 <= r < |s.requests| ==> Staged(s, r))
    && AllowedRightly(s)
  }

  lemma ApprovedStays(approvals: seq<Approval>, more: seq<Approval>, p: Pending)
    requires Approved(approvals, p)
    ensures Approved(approvals + more, p)
  {
    var a :| a in approvals && a.confirmation.approved && Matches(p, a.confirmation);
    assert a in approvals + more;
  }

  // --- asking

  lemma FreshKey(s: System, key: string)
    requires Inv(s) && key == Key(s.sequence + 1)
    ensures forall r :: 0 <= r < |s.requests| ==> !HasKey(s.requests[r], key)
    ensures key !in s.permissions && key !in s.announced
  {
    forall r | 0 <= r < |s.requests| && s.requests[r].asked.Waits?
      ensures s.requests[r].asked.pending.toolCallId != key
    {
      var n: nat :| n <= s.sequence && s.requests[r].asked.pending.toolCallId == Key(n);
      KeyIsInjective(n, s.sequence + 1);
    }
  }

  lemma NumberedMore(sequence: nat, more: nat, key: string)
    requires sequence <= more
    ensures Numbered(sequence, key) ==> Numbered(more, key)
  {
    if n: nat :| 0 < n <= sequence && key == Key(n) {
      assert n <= more;
    }
  }

  lemma AskKeepsFresh(s: System, resource: string, s': System)
    requires Inv(s) && AsksStep(s, resource, s')
    ensures KeysAreFresh(s')
  {
    FreshKey(s, Key(s.sequence + 1));
    forall r | 0 <= r < |s'.requests| && s'.requests[r].asked.Waits?
      ensures s'.requests[r].asked.pending.request == r && Numbered(s'.sequence, s'.requests[r].asked.pending.toolCallId)
    {
      NumberedMore(s.sequence, s'.sequence, s'.requests[r].asked.pending.toolCallId);
      assert r < |s.requests| || s'.requests[r].asked.pending.toolCallId == Key(s'.sequence);
    }
    forall q, r | 0 <= q < r < |s'.requests| && s'.requests[q].asked.Waits? && s'.requests[r].asked.Waits?
      ensures s'.requests[q].asked.pending.toolCallId != s'.requests[r].asked.pending.toolCallId
    {
      assert !HasKey(s.requests[q], Key(s.sequence + 1));
    }
  }

  lemma AskKeepsStage(s: System, resource: string, s': System, r: nat)
    requires Inv(s) && AsksStep(s, resource, s') && r < |s'.requests|
    ensures Staged(s', r)
  {
    FreshKey(s, Key(s.sequence + 1));
    if r < |s.requests| {
      assert Staged(s, r) && !HasKey(s.requests[r], Key(s.sequence + 1));
      assert HasTask(s', r) <==> HasTask(s, r);
    } else {
      forall task | task in s'.tasks
        ensures task.pending.request != r
      {
        assert IsRequest(s, task.pending);
      }
    }
  }

  lemma AskKeepsOwners(s: System, resource: string, s': System)
    requires Inv(s) && AsksStep(s, resource, s')
    ensures Owned(s')
  {
    forall key | key in s'.permissions
      ensures key == s'.permissions[key].toolCallId && IsRequest(s', s'.permissions[key])
    {
      assert key in s.permissions ==> IsRequest(s, s.permissions[key]);
    }
    forall task | task in s'.tasks
      ensures IsRequest(s', task.pending)
    {
      assert IsRequest(s, task.pending);
    }
    forall key | key in s'.announced
      ensures IsAsked(s'.requests, key)
    {
      var r :| 0 <= r < |s.requests| && HasKey(s.requests[r], key);
      assert s'.requests[r] == s.requests[r];
    }
  }

  lemma AsksKeeps(s: System, resource: string, s': System)
    requires Inv(s) && AsksStep(s, resource, s')
    ensures Inv(s')
  {
    AskKeepsFresh(s, resource, s');
    AskKeepsOwners(s, resource, s');
    forall r | 0 <= r < |s'.requests|
      ensures Staged(s', r) && RequestRight(s', r)
    {
      AskKeepsStage(s, resource, s', r);
      assert r < |s.requests| ==> RequestRight(s, r);
    }
  }

  // --- steps that ask nothing

  ghost predicate SameQuestions(s: System, s': System) {
    |s'.requests| == |s.requests| && forall r :: 0 <= r < |s.requests| ==> s'.requests[r].asked == s.requests[r].asked
  }

  lemma FreshnessStays(s: System, s': System)
    requires KeysAreFresh(s) && s'.sequence >= s.sequence && SameQuestions(s, s')
    ensures KeysAreFresh(s')
  {
    forall r | 0 <= r < |s'.requests| && s'.requests[r].asked.Waits?
      ensures s'.requests[r].asked.pending.request == r && Numbered(s'.sequence, s'.requests[r].asked.pending.toolCallId)
    {
      assert s.requests[r].asked == s'.requests[r].asked;
      NumberedMore(s.sequence, s'.sequence, s.requests[r].asked.pending.toolCallId);
    }
    forall q, r | 0 <= q < r < |s'.requests| && s'.requests[q].asked.Waits? && s'.requests[r].asked.Waits?
      ensures s'.requests[q].asked.pending.toolCallId != s'.requests[r].asked.pending.toolCallId
    {
      assert s.requests[q].asked == s'.requests[q].asked && s.requests[r].asked == s'.requests[r].asked;
    }
  }

  lemma AskedStays(s: System, s': System, key: string)
    requires SameQuestions(s, s') && IsAsked(s.requests, key)
    ensures IsAsked(s'.requests, key)
  {
    var r :| 0 <= r < |s.requests| && HasKey(s.requests[r], key);
    assert s'.requests[r].asked == s.requests[r].asked && HasKey(s'.requests[r], key);
  }

  /** The questions stay what they were, and whatever is pending, taken or announced still belongs to one. */
  lemma QuestionsStay(s: System, s': System)
    requires KeysAreFresh(s) && Owned(s) && s'.sequence >= s.sequence && SameQuestions(s, s')
    requires forall key :: key in s'.permissions ==> key in s.permissions && s'.permissions[key] == s.permissions[key]
    requires forall task :: task in s'.tasks ==> IsRequest(s, task.pending)
    requires forall key :: key in s'.announced ==> IsAsked(s.requests, key)
    ensures KeysAreFresh(s') && Owned(s')
  {
    FreshnessStays(s, s');
    forall key | key in s'.announced
      ensures IsAsked(s'.requests, key)
    {
      AskedStays(s, s', key);
    }
    forall key | key in s'.permissions
      ensures key == s'.permissions[key].toolCallId && IsRequest(s', s'.permissions[key])
    {
      assert IsRequest(s, s.permissions[key]);
    }
  }

  lemma ReturnKeeps(s: System, r: nat, s': System)
    requires Inv(s) && (ReturnsStep(s, r, s') || ContextEndsStep(s, r, s'))
    ensures Inv(s')
  {
    QuestionsStay(s, s');
    forall q | 0 <= q < |s'.requests|
      ensures Staged(s', q) && RequestRight(s', q)
    {
      assert Staged(s, q) && RequestRight(s, q);
      assert HasTask(s', q) <==> HasTask(s, q);
    }
  }

  lemma ForgetsKeepsStage(s: System, r: nat, s': System, q: nat)
    requires Inv(s) && ForgetsStep(s, r, s') && q < |s.requests|
    ensures Staged(s', q)
  {
    assert Staged(s, q) && (HasTask(s', q) <==> HasTask(s, q));
    assert q != r ==> !HasKey(s.requests[q], s.requests[r].asked.pending.toolCallId);
  }

  lemma ForgetsKeeps(s: System, r: nat, s': System)
    requires Inv(s) && ForgetsStep(s, r, s')
    ensures Inv(s')
  {
    QuestionsStay(s, s');
    forall q | 0 <= q < |s'.requests|
      ensures Staged(s', q) && RequestRight(s', q)
    {
      ForgetsKeepsStage(s, r, s', q);
      assert RequestRight(s, q);
    }
  }

  lemma ElsewhereKeeps(s: System, sequence: nat, sessions: map<string, Session>, subscriptions: map<nat, set<string>>, s': System)
    requires Inv(s) && Next(s, Elsewhere(sequence, sessions, subscriptions), s')
    ensures Inv(s')
  {
    QuestionsStay(s, s');
    forall q | 0 <= q < |s'.requests|
      ensures Staged(s', q) && RequestRight(s', q)
    {
      assert Staged(s, q) && RequestRight(s, q);
      assert HasTask(s', q) <==> HasTask(s, q);
    }
  }

  // --- taking requests away

  predicate IsTaken(s: System, keys: set<string>, decision: Decision, task: Task) {
    var key := task.pending.toolCallId;
    key in keys && key in s.permissions && task == Task(s.permissions[key], decision, false)
  }

  /** Requests under some keys are taken, each by a goroutine of its own. */
  ghost predicate Taken(s: System, keys: set<string>, decision: Decision, s': System) {
    && keys <= s.permissions.Keys
    && s'.requests == s.requests && s'.announced == s.announced && s'.sequence == s.sequence
    && s'.permissions == s.permissions - keys
    && (forall task :: task in s.tasks ==> task in s'.tasks)
    && (forall task :: task in s'.tasks ==> task in s.tasks || IsTaken(s, keys, decision, task))
    && (forall key :: key in keys ==> Task(s.permissions[key], decision, false) in s'.tasks)
  }

  lemma TasksAreTaken(s: System, keys: set<string>, decision: Decision, s': System)
    requires Owned(s) && keys <= s.permissions.Keys
    requires s' == s.(permissions := s.permissions - keys, approvals := s'.approvals,
                   tasks := s.tasks + TasksFor(map key | key in keys && key in s.permissions :: s.permissions[key], decision))
    ensures Taken(s, keys, decision, s')
  {
    var taken := map key | key in keys && key in s.permissions :: s.permissions[key];
    forall key | key in keys
      ensures Task(s.permissions[key], decision, false) in TasksFor(taken, decision)
    {
      assert key in taken;
    }
  }

  lemma TakenIsNew(s: System, keys: set<string>, decision: Decision, task: Task)
    requires Inv(s) && keys <= s.permissions.Keys && IsTaken(s, keys, decision, task)
    ensures IsRequest(s, task.pending) && !HasTask(s, task.pending.request) && task.pending.toolCallId !in s.announced
  {
    assert IsRequest(s, s.permissions[task.pending.toolCallId]) && Staged(s, task.pending.request);
  }

  /** The request under a taken key is being answered. */
  lemma TakenRequest(s: System, keys: set<string>, decision: Decision, s': System, r: nat)
    requires Inv(s) && Taken(s, keys, decision, s') && r < |s.requests| && s.requests[r].asked.Waits?
    requires s.requests[r].asked.pending.toolCallId in keys
    ensures HasTask(s', r) && Staged(s', r)
  {
    var p := s.requests[r].asked.pending;
    assert Staged(s, r) && IsRequest(s, s.permissions[p.toolCallId]) && s.permissions[p.toolCallId].toolCallId == p.toolCallId;
    var owner := s.permissions[p.toolCallId].request;
    assert HasKey(s.requests[owner], p.toolCallId) && HasKey(s.requests[r], p.toolCallId);
    assert owner == r && s.permissions[p.toolCallId] == p;
    assert Task(p, decision, false) in s'.tasks;
    forall task | task in s'.tasks && task.pending.request == r
      ensures !task.announced
    {
      assert task !in s.tasks;
    }
  }

  lemma OtherRequest(s: System, keys: set<string>, decision: Decision, s': System, r: nat)
    requires Inv(s) && Taken(s, keys, decision, s') && r < |s.requests| && s.requests[r].asked.Waits?
    requires s.requests[r].asked.pending.toolCallId !in keys
    ensures Staged(s', r)
  {
    assert Staged(s, r);
    forall task | task in s'.tasks && task.pending.request == r
      ensures task in s.tasks
    {
      if IsTaken(s, keys, decision, task) {
        TakenIsNew(s, keys, decision, task);
      }
    }
    assert HasTask(s', r) <==> HasTask(s, r);
  }

  lemma TakenKeepsStage(s: System, keys: set<string>, decision: Decision, s': System, r: nat)
    requires Inv(s) && Taken(s, keys, decision, s') && r < |s.requests|
    ensures Staged(s', r)
  {
    if s.requests[r].asked.Waits? {
      if s.requests[r].asked.pending.toolCallId in keys {
        TakenRequest(s, keys, decision, s', r);
      } else {
        OtherRequest(s, keys, decision, s', r);
      }
    }
  }

  lemma TakenKeepsTasks(s: System, keys: set<string>, decision: Decision, s': System)
    requires Inv(s) && Taken(s, keys, decision, s')
    ensures OneTaskEach(s')
    ensures forall task :: task in s'.tasks ==> IsRequest(s, task.pending)
  {
    forall a, b | a in s'.tasks && b in s'.tasks && a.pending.request == b.pending.request
      ensures a == b
    {
      if a !in s.tasks {
        TakenIsNew(s, keys, decision, a);
      }
      if b !in s.tasks {
        TakenIsNew(s, keys, decision, b);
      }
    }
    forall task | task in s'.tasks
      ensures IsRequest(s, task.pending)
    {
      if task !in s.tasks {
        TakenIsNew(s, keys, decision, task);
      }
    }
  }

  lemma TakenKeeps(s: System, keys: set<string>, decision: Decision, s': System)
    requires Inv(s) && Taken(s, keys, decision, s')
    ensures KeysAreFresh(s') && Owned(s') && OneTaskEach(s') && forall r :: 0 <= r < |s'.requests| ==> Staged(s', r)
  {
    TakenKeepsTasks(s, keys, decision, s');
    QuestionsStay(s, s');
    forall r | 0 <= r < |s'.requests|
      ensures Staged(s', r)
    {
      TakenKeepsStage(s, keys, decision, s', r);
    }
  }

  lemma TakesKeeps(s: System, keys: set<string>, s': System)
    requires Inv(s) && TakesStep(s, keys, s')
    ensures Inv(s')
  {
    TasksAreTaken(s, keys, Cancel, s');
    TakenKeeps(s, keys, Cancel, s');
    forall r | 0 <= r < |s'.requests|
      ensures RequestRight(s', r)
    {
      assert RequestRight(s, r);
    }
  }

  lemma ConfirmedIsTaken(s: System, peer: nat, c: Confirmation, key: string, s': System)
    requires Inv(s) && ConfirmsStep(s, peer, c, key, s')
    ensures Taken(s, {key}, Decide(c.approved), s')
  {
  }

  lemma MoreApprovals(s: System, more: seq<Approval>, s': System)
    requires AllowedRightly(s) && s'.requests == s.requests && s'.approvals == s.approvals + more
    requires forall task :: task in s'.tasks && task !in s.tasks && task.decision.AllowOnce? ==> Approved(s'.approvals, task.pending)
    ensures AllowedRightly(s')
  {
    forall task | task in s'.tasks && task.decision.AllowOnce?
      ensures Approved(s'.approvals, task.pending)
    {
      if task in s.tasks {
        ApprovedStays(s.approvals, more, task.pending);
      }
    }
    forall r | 0 <= r < |s'.requests|
      ensures RequestRight(s', r)
    {
      assert RequestRight(s, r);
      if s.requests[r].asked.Waits? && Approved(s.approvals, s.requests[r].asked.pending) {
        ApprovedStays(s.approvals, more, s.requests[r].asked.pending);
      }
    }
  }

  lemma ConfirmsKeeps(s: System, peer: nat, c: Confirmation, key: string, s': System)
    requires Inv(s) && ConfirmsStep(s, peer, c, key, s')
    ensures Inv(s')
  {
    ConfirmedIsTaken(s, peer, c, key, s');
    TakenKeeps(s, {key}, Decide(c.approved), s');
    var more := if c.approved then [Approval(peer, c)] else [];
    assert s'.approvals == s.approvals + more;
    assert c.approved ==> Approval(peer, c) in s'.approvals;
    MoreApprovals(s, more, s');
  }

  // --- announcing and answering

  lemma AnnouncesKeepsStage(s: System, task: Task, s': System, r: nat)
    requires Inv(s) && AnnouncesStep(s, task, s') && r < |s.requests|
    ensures Staged(s', r)
  {
    assert IsRequest(s, task.pending) && Staged(s, r);
    AnnouncesKeepsTasks(s, task, s', r);
    if r != task.pending.request {
      assert !HasKey(s.requests[r], task.pending.toolCallId);
    } else {
      assert HasTask(s, r);
    }
  }

  lemma AnnouncedOnce(s: System, task: Task, s': System)
    requires Inv(s) && AnnouncesStep(s, task, s')
    ensures OneTaskEach(s') && IsAsked(s.requests, task.pending.toolCallId)
  {
    assert IsRequest(s, task.pending) && HasKey(s.requests[task.pending.request], task.pending.toolCallId);
    assert Staged(s, task.pending.request);
  }

  lemma AnnouncesKeeps(s: System, task: Task, s': System)
    requires Inv(s) && AnnouncesStep(s, task, s')
    ensures Inv(s')
  {
    AnnouncedOnce(s, task, s');
    QuestionsStay(s, s');
    forall r | 0 <= r < |s'.requests|
      ensures Staged(s', r) && RequestRight(s', r)
    {
      AnnouncesKeepsStage(s, task, s', r);
      assert RequestRight(s, r);
    }
  }

  lemma AnnouncesKeepsTasks(s: System, task: Task, s': System, r: nat)
    requires Inv(s) && AnnouncesStep(s, task, s') && r < |s.requests|
    ensures HasTask(s', r) <==> HasTask(s, r)
  {
    var done := task.(announced := true);
    if other :| other in s.tasks && other.pending.request == r {
      assert if other == task then done in s'.tasks else other in s'.tasks;
    }
    if other :| other in s'.tasks && other.pending.request == r {
      assert if other == done then task in s.tasks else other in s.tasks;
    }
  }

  lemma AnswersKeeps(s: System, task: Task, s': System)
    requires Inv(s) && AnswersStep(s, task, s')
    ensures Inv(s')
  {
    var at := task.pending.request;
    assert IsRequest(s, task.pending) && Staged(s, at) && HasTask(s, at);
    QuestionsStay(s, s');
    forall r | 0 <= r < |s'.requests|
      ensures Staged(s', r) && RequestRight(s', r)
    {
      assert Staged(s, r) && RequestRight(s, r);
      AnswersKeepsTasks(s, task, s', r);
    }
  }

  lemma AnswersKeepsTasks(s: System, task: Task, s': System, r: nat)
    requires Inv(s) && AnswersStep(s, task, s') && r < |s.requests|
    ensures HasTask(s', r) <==> HasTask(s, r) && r != task.pending.request
  {
    if other :| other in s.tasks && other.pending.request == r {
      assert r != task.pending.request ==> other in s'.tasks;
    }
  }

  lemma StepKeeps(s: System, step: Step, s': System)
    requires Inv(s) && Next(s, step, s')
    ensures Inv(s')
  {
    match step
    case Asks(resource) => AsksKeeps(s, resource, s');
    case Returns(r) => ReturnKeeps(s, r, s');
    case ContextEnds(r) => ReturnKeeps(s, r, s');
    case Forgets(r) => ForgetsKeeps(s, r, s');
    case Confirms(peer, c, key) => ConfirmsKeeps(s, peer, c, key, s');
    case CancelsAll(resource) => TakesKeeps(s, Of(s.permissions, resource), s');
    case Closes => TakesKeeps(s, s.permissions.Keys, s');
    case Announces(task) => AnnouncesKeeps(s, task, s');
    case Answers(task) => AnswersKeeps(s, task, s');
    case Elsewhere(sequence, sessions, subscriptions) => ElsewhereKeeps(s, sequence, sessions, subscriptions, s');
  }

  lemma {:induction false} RunKeeps(states: seq<System>, steps: seq<Step>, n: nat)
    requires IsRun(states, steps) && n <= |steps|
    ensures Inv(states[n])
  {
    if n > 0 {
      var k := n - 1;
      assert Next(states[k], steps[k], states[k + 1]);
      RunKeeps(states, steps, k);
      StepKeeps(states[k], steps[k], states[n]);
    }
  }

  // ----- What every run promises

  /** Two requests never share a key, and no key is announced removed twice. */
  lemma KeysAreNeverReused(states: seq<System>, steps: seq<Step>, n: nat, q: nat, r: nat)
    requires IsRun(states, steps) && n <= |steps| && q < r < |states[n].requests|
    requires states[n].requests[q].asked.Waits? && states[n].requests[r].asked.Waits?
    ensures states[n].requests[q].asked.pending.toolCallId != states[n].requests[r].asked.pending.toolCallId
    ensures forall i, j :: 0 <= i < j < |states[n].announced| ==> states[n].announced[i] != states[n].announced[j]
  {
    RunKeeps(states, steps, n);
  }

  /** A reply channel is sent at most one value, so the goroutine that sends it never has to wait. */
  lemma SendNeverWaits(states: seq<System>, steps: seq<Step>, n: nat, task: Task)
    requires IsRun(states, steps) && n <= |steps| && task in states[n].tasks
    ensures task.pending.request < |states[n].requests|
    ensures states[n].requests[task.pending.request].answers == 0 && states[n].requests[task.pending.request].channel == []
    ensures forall r :: 0 <= r < |states[n].requests| && states[n].requests[r].asked.Waits? ==> states[n].requests[r].answers <= 1
  {
    RunKeeps(states, steps, n);
    var s := states[n];
    assert IsRequest(s, task.pending) && HasTask(s, task.pending.request) && Staged(s, task.pending.request);
    forall r | 0 <= r < |s.requests| && s.requests[r].asked.Waits?
      ensures s.requests[r].answers <= 1
    {
      assert Staged(s, r);
    }
  }

  /** A request that still waits can still be answered: it is pending, or taken by a goroutine, or its answer
      is in the channel. */
  lemma WaitingIsNotForgotten(states: seq<System>, steps: seq<Step>, n: nat, r: nat)
    requires IsRun(states, steps) && n <= |steps| && IsWaiting(states[n], r)
    ensures var s := states[n];
            || s.requests[r].asked.pending.toolCallId in s.permissions
            || (exists task :: task in s.tasks && task.pending == s.requests[r].asked.pending)
            || s.requests[r].channel != []
  {
    RunKeeps(states, steps, n);
    var s := states[n];
    assert Staged(s, r);
    if task :| task in s.tasks && task.pending.request == r {
      assert IsRequest(s, task.pending);
    }
  }

  /** In a step of the run a peer subscribed to the chat confirmed with these words. */
  ghost predicate ConfirmedBy(states: seq<System>, steps: seq<Step>, k: nat, a: Approval) {
    && k < |steps| < |states| && steps[k].Confirms? && steps[k].peer == a.peer && steps[k].confirmation == a.confirmation
    && a.peer in states[k].subscriptions && a.confirmation.chat in states[k].subscriptions[a.peer]
  }

  /** Every approval on record is a step of the run. */
  lemma {:induction false} ApprovalsAreSteps(states: seq<System>, steps: seq<Step>, n: nat, a: Approval) returns (k: nat)
    requires IsRun(states, steps) && n <= |steps| && a in states[n].approvals
    ensures k < n && ConfirmedBy(states, steps, k, a)
  {
    var m := n - 1;
    assert Next(states[m], steps[m], states[m + 1]);
    if a in states[m].approvals {
      k := ApprovalsAreSteps(states, steps, m, a);
    } else {
      k := m;
    }
  }

  /** In a step of the run the request was made, with the answer or the question that the sessions of that
      moment give. */
  ghost predicate AskedBy(states: seq<System>, steps: seq<Step>, k: nat, r: nat, asked: Asked) {
    && k < |steps| < |states| && steps[k].Asks? && |states[k].requests| == r
    && asked == Ask(states[k].sessions, states[k].sequence, steps[k].resource, r)
  }

  lemma StepKeepsQuestions(s: System, step: Step, s': System, r: nat)
    requires Next(s, step, s') && r < |s'.requests|
    ensures r < |s.requests| ==> s'.requests[r].asked == s.requests[r].asked
    ensures r >= |s.requests| ==> step.Asks? && r == |s.requests| && s'.requests[r].asked == Ask(s.sessions, s.sequence, step.resource, r)
  {
    match step
    case Asks(_) =>
    case _ =>
  }

  /** Every request is a step of the run. */
  lemma {:induction false} RequestsAreSteps(states: seq<System>, steps: seq<Step>, n: nat, r: nat) returns (k: nat)
    requires IsRun(states, steps) && n <= |steps| && r < |states[n].requests|
    ensures k < n && AskedBy(states, steps, k, r, states[n].requests[r].asked)
  {
    var m := n - 1;
    assert Next(states[m], steps[m], states[m + 1]);
    StepKeepsQuestions(states[m], steps[m], states[n], r);
    if r < |states[m].requests| {
      k := RequestsAreSteps(states, steps, m, r);
    } else {
      k := m;
    }
  }

  /** The session allowed everything at the moment the request was made. */
  ghost predicate ModeAllowed(states: seq<System>, steps: seq<Step>, n: nat, r: nat) {
    exists k: nat :: k < n && IsAllowing(states, steps, k, r)
  }

  ghost predicate IsAllowing(states: seq<System>, steps: seq<Step>, k: nat, r: nat) {
    && k < |steps| < |states| && steps[k].Asks? && |states[k].requests| == r
    && steps[k].resource in states[k].sessions && AllowsAll(states[k].sessions[steps[k].resource].approvalMode)
  }

  /** Before a state of the run, a peer that was subscribed to the call's chat at that moment approved this call
      of this turn. */
  ghost predicate SubscriberApproved(states: seq<System>, steps: seq<Step>, n: nat, p: Pending) {
    exists k: nat :: k < n && IsApprovalOf(states, steps, k, p)
  }

  ghost predicate IsApprovalOf(states: seq<System>, steps: seq<Step>, k: nat, p: Pending) {
    k < |steps| < |states| && steps[k].Confirms?
    && var peer, c := steps[k].peer, steps[k].confirmation;
    && c.approved && c.chat == p.chat && c.turnId == p.turnId && c.toolCallId == p.toolCallId
    && peer in states[k].subscriptions && p.chat in states[k].subscriptions[peer]
  }

  /** A tool call is allowed only because the session allowed everything when it was asked, or because a peer
      that was subscribed to the chat approved that call of that turn of that chat. */
  lemma AllowedOnlyIfApproved(states: seq<System>, steps: seq<Step>, n: nat, r: nat)
    requires IsRun(states, steps) && n <= |steps| && r < |states[n].requests|
    requires states[n].requests[r].returned == Some(AllowOnce)
    ensures var q := states[n].requests[r];
            match q.asked
            case Decided(_) => ModeAllowed(states, steps, n, r)
            case Waits(p) => SubscriberApproved(states, steps, n, p)
  {
    RunKeeps(states, steps, n);
    assert RequestRight(states[n], r);
    if states[n].requests[r].asked.Waits? {
      var p := states[n].requests[r].asked.pending;
      var a :| a in states[n].approvals && a.confirmation.approved && Matches(p, a.confirmation);
      var k := ApprovalsAreSteps(states, steps, n, a);
      assert IsApprovalOf(states, steps, k, p);
    } else {
      var k := RequestsAreSteps(states, steps, n, r);
      assert IsAllowing(states, steps, k, r);
    }
  }
}
