/**
 The request loop of one server connection: active requests by id, two bounded task sets, cancellation, and
 results that are joined late.
 */
module RequestLoop {
  import opened Basics

  const WORK_REQUESTS: nat := 32
  const MANAGEMENT_REQUESTS: nat := 8

  datatype Operation = CancelNotification(requestId: Option<nat>) | Initialize | Management(restart: bool) | Work

  datatype Request = Request(id: Option<nat>, operation: Operation)

  /** A spawned task: the request id its response will carry, and whether that response asks for a restart. */
  datatype Task = Task(id: nat, restart: bool)

  datatype Reply =
    | Answer(task: nat, id: nat)
    | Initialized(id: nat)
    | InProgress(id: nat)
    | Busy(id: nat)

  /** `sent` says whether the response can be sent; a failed send ends the connection. */
  datatype Joined = Completed(sent: bool) | WasCancelled | Panicked

  /** `tasks` lists every task spawned so far; `calls` and `management` name the unjoined ones, `cancelled` the aborted
      ones and `lost` those whose response could not be sent. `replies` and `restarts` are the connection's output. */
  datatype Connection = Connection(
    active: map<nat, nat>,
    calls: set<nat>,
    management: set<nat>,
    tasks: seq<Task>,
    initialized: bool,
    closed: bool,
    replies: seq<Reply>,
    restarts: seq<nat>,
    cancelled: set<nat>,
    lost: set<nat>)
  {
    function Say(reply: Reply): Connection {
      this.(replies := replies + [reply])
    }

    function TrySay(reply: Reply, sent: bool): Connection {
      if sent then Say(reply) else this.(closed := true)
    }

    predicate Unjoined(t: nat) {
      t in calls || t in management
    }

    /** The entry goes at once; its task stays in its set until joined. */
    function Cancel(id: nat): Connection {
      if id in active then this.(active := active - {id}, cancelled := cancelled + {active[id]}) else this
    }

    function Spawn(task: Task, isManagement: bool): Connection {
      var s := this.(active := active[task.id := |tasks|], tasks := tasks + [task]);
      if isManagement then s.(management := management + {|tasks|}) else s.(calls := calls + {|tasks|})
    }

    function Receive(request: Request, sent: bool): Connection {
      match request.id
      case None =>
        if request.operation.CancelNotification? && request.operation.requestId.Some?
        then Cancel(request.operation.requestId.value) else this
      case Some(id) =>
        if id in active then TrySay(InProgress(id), sent)
        else if request.operation.Initialize? then TrySay(Initialized(id), sent).(initialized := initialized || sent)
        else
          var isManagement := request.operation.Management?;
          if Full(isManagement) then TrySay(Busy(id), sent)
          else Spawn(Task(id, isManagement && request.operation.restart), isManagement)
    }

    predicate Full(isManagement: bool) {
      if isManagement then |management| >= MANAGEMENT_REQUESTS else |calls| >= WORK_REQUESTS
    }

    predicate Current(t: nat)
      requires t < |tasks|
    {
      tasks[t].id in active && active[tasks[t].id] == t
    }

    /** A late result counts only while its own task is still the active one for that id. */
    function Join(t: nat, joined: Joined): Connection
      requires Unjoined(t) && t < |tasks|
    {
      var s := this.(management := management - {t}, calls := calls - {t});
      match joined
      case WasCancelled => s
      case Panicked => s.(closed := true)
      case Completed(sent) =>
        if !Current(t) then s
        else if !sent then s.(active := active - {tasks[t].id}, lost := lost + {t}, closed := true)
        else
          s.(active := active - {tasks[t].id},
             restarts := if t in management && tasks[t].restart then restarts + [t] else restarts)
          .Say(Answer(t, tasks[t].id))
    }
  }

  // ---------------------------------------------------------------- runs

  const Start := Connection(map[], {}, {}, [], false, false, [], [], {}, {})

  datatype Event = Arrives(request: Request, sent: bool) | Joins(task: nat, joined: Joined) | Disconnects

  /** A cancelled result is only reported for an aborted task; a completed one may still arrive after an abort. */
  predicate Enabled(s: Connection, ev: Event) {
    && !s.closed
    && (ev.Joins? ==>
        s.Unjoined(ev.task) && ev.task < |s.tasks| && (ev.joined.WasCancelled? ==> ev.task in s.cancelled))
  }

  function Apply(s: Connection, ev: Event): Connection
    requires Enabled(s, ev)
  {
    match ev
    case Arrives(request, sent) => s.Receive(request, sent)
    case Joins(t, joined) => s.Join(t, joined)
    case Disconnects => s.(closed := true)
  }

  ghost predicate IsActive(s: Connection, t: nat) {
    exists id :: id in s.active && s.active[id] == t
  }

  ghost predicate IsAnswered(s: Connection, t: nat) {
    exists i :: 0 <= i < |s.replies| && s.replies[i].Answer? && s.replies[i].task == t
  }

  /** Exactly one of: active, answered, cancelled, lost with the connection. */
  ghost predicate OneFate(s: Connection, t: nat) {
    && (IsActive(s, t) || IsAnswered(s, t) || t in s.cancelled || t in s.lost)
    && (t in s.lost ==> s.closed && !IsActive(s, t) && !IsAnswered(s, t) && t !in s.cancelled)
    && !(IsActive(s, t) && IsAnswered(s, t))
    && !(IsActive(s, t) && t in s.cancelled)
    && !(IsAnswered(s, t) && t in s.cancelled)
  }

  ghost predicate SetsInv(s: Connection) {
    && |s.calls| <= WORK_REQUESTS && |s.management| <= MANAGEMENT_REQUESTS
    && (forall t: nat :: t in s.calls ==> t < |s.tasks| && t !in s.management)
    && (forall t: nat :: t in s.management ==> t < |s.tasks|)
    && (forall t: nat :: t in s.cancelled || t in s.lost ==> t < |s.tasks|)
    && (!s.closed ==> s.lost == {})
    && (forall i :: 0 <= i < |s.replies| && s.replies[i].Answer? ==>
          s.replies[i].task < |s.tasks| && s.tasks[s.replies[i].task].id == s.replies[i].id)
  }

  /** An active entry names an unjoined task that carries the entry's id. */
  ghost predicate ActiveInv(s: Connection) {
    && (forall id :: id in s.active ==> s.active[id] < |s.tasks| && s.tasks[s.active[id]].id == id)
    && (!s.closed ==> forall id :: id in s.active ==> s.Unjoined(s.active[id]))
    && (forall t: nat :: s.Unjoined(t) ==> !IsAnswered(s, t))
  }

  ghost predicate AnswersInv(s: Connection) {
    && (forall i, j :: 0 <= i < j < |s.replies| && s.replies[i].Answer? && s.replies[j].Answer? ==>
          s.replies[i].task != s.replies[j].task)
    && (forall i :: 0 <= i < |s.restarts| ==> IsAnswered(s, s.restarts[i]))
  }

  ghost predicate Inv(s: Connection) {
    SetsInv(s) && ActiveInv(s) && AnswersInv(s) && forall t: nat :: t < |s.tasks| ==> OneFate(s, t)
  }

  // ---------------------------------------------------------------- preservation

  lemma AnsweredAfterSay(s: Connection, reply: Reply)
    ensures forall t: nat :: IsAnswered(s.Say(reply), t) <==> IsAnswered(s, t) || (reply.Answer? && reply.task == t)
  {
    var s' := s.Say(reply);
    forall t: nat ensures IsAnswered(s', t) <==> IsAnswered(s, t) || (reply.Answer? && reply.task == t) {
      if IsAnswered(s, t) {
        var i :| 0 <= i < |s.replies| && s.replies[i].Answer? && s.replies[i].task == t;
        assert s'.replies[i] == s.replies[i];
      }
      if reply.Answer? && reply.task == t {
        assert s'.replies[|s.replies|] == reply;
      }
    }
  }

  /** Whether a task is answered depends on the replies alone, whether it is active on the active map alone. */
  lemma SameAnswered(s: Connection, s': Connection)
    requires s'.replies == s.replies
    ensures forall t: nat :: IsAnswered(s', t) <==> IsAnswered(s, t)
  {
    forall t: nat ensures IsAnswered(s', t) <==> IsAnswered(s, t) {}
  }

  lemma SameActive(s: Connection, s': Connection)
    requires s'.active == s.active
    ensures forall t: nat :: IsActive(s', t) <==> IsActive(s, t)
  {
    forall t: nat ensures IsActive(s', t) <==> IsActive(s, t) {}
  }

  lemma InactiveWithout(s: Connection, s': Connection, id: nat)
    requires ActiveInv(s) && id in s.active && s'.active == s.active - {id}
    ensures forall t: nat :: IsActive(s', t) <==> IsActive(s, t) && t != s.active[id]
  {
    forall t: nat ensures IsActive(s', t) <==> IsActive(s, t) && t != s.active[id] {
      if IsActive(s, t) && t != s.active[id] {
        var jd :| jd in s.active && s.active[jd] == t;
        assert s'.active[jd] == t;
      }
    }
  }

  lemma TrySayKeepsInv(s: Connection, reply: Reply, initialized: bool, sent: bool)
    requires Inv(s) && !reply.Answer?
    ensures Inv(s.TrySay(reply, sent).(initialized := initialized))
  {
    if sent {
      SayKeepsInv(s, reply, initialized);
    } else {
      CloseKeepsInv(s, initialized);
    }
  }

  lemma CloseKeepsInv(s: Connection, initialized: bool)
    requires Inv(s)
    ensures Inv(s.(closed := true, initialized := initialized))
  {
    var s' := s.(closed := true, initialized := initialized);
    SameAnswered(s, s');
    SameActive(s, s');
    forall t: nat | t < |s'.tasks| ensures OneFate(s', t) {
      assert OneFate(s, t);
    }
  }

  lemma SayKeepsInv(s: Connection, reply: Reply, initialized: bool)
    requires Inv(s) && !reply.Answer?
    ensures Inv(s.Say(reply).(initialized := initialized))
  {
    var s' := s.Say(reply).(initialized := initialized);
    AnsweredAfterSay(s, reply);
    SameAnswered(s.Say(reply), s');
    SameActive(s, s');
    forall t: nat | t < |s'.tasks| ensures OneFate(s', t) {
      assert OneFate(s, t);
    }
    assert SetsInv(s');
    assert ActiveInv(s');
  }

  lemma CancelKeepsInv(s: Connection, id: nat)
    requires Inv(s) && !s.closed && id in s.active
    ensures Inv(s.Cancel(id))
  {
    var s' := s.Cancel(id);
    SameAnswered(s, s');
    InactiveWithout(s, s', id);
    assert IsActive(s, s.active[id]);
    forall t: nat | t < |s'.tasks| ensures OneFate(s', t) {
      assert OneFate(s, t);
    }
  }

  lemma SpawnActivatesOne(s: Connection, task: Task, isManagement: bool)
    requires task.id !in s.active
    ensures forall t: nat :: IsActive(s.Spawn(task, isManagement), t) <==> IsActive(s, t) || t == |s.tasks|
  {
    var s' := s.Spawn(task, isManagement);
    forall t: nat ensures IsActive(s', t) <==> IsActive(s, t) || t == |s.tasks| {
      if IsActive(s, t) {
        var jd :| jd in s.active && s.active[jd] == t;
        assert s'.active[jd] == t;
      }
      if t == |s.tasks| {
        assert s'.active[task.id] == t;
      }
    }
  }

  lemma SpawnKeepsSets(s: Connection, task: Task, isManagement: bool)
    requires SetsInv(s) && ActiveInv(s) && !s.closed && task.id !in s.active && !s.Full(isManagement)
    ensures SetsInv(s.Spawn(task, isManagement)) && ActiveInv(s.Spawn(task, isManagement))
  {
    var s' := s.Spawn(task, isManagement);
    SameAnswered(s, s');
    forall i | 0 <= i < |s'.replies| && s'.replies[i].Answer? ensures s'.replies[i].task < |s.tasks| {
      assert s'.replies[i] == s.replies[i];
    }
    assert forall t: nat :: IsAnswered(s', t) ==> t < |s.tasks|;
  }

  lemma SpawnKeepsInv(s: Connection, task: Task, isManagement: bool)
    requires Inv(s) && !s.closed && task.id !in s.active && !s.Full(isManagement)
    ensures Inv(s.Spawn(task, isManagement))
  {
    var s' := s.Spawn(task, isManagement);
    SameAnswered(s, s');
    SpawnActivatesOne(s, task, isManagement);
    SpawnKeepsSets(s, task, isManagement);
    forall t: nat | t < |s'.tasks| ensures OneFate(s', t) {
      if t < |s.tasks| {
        assert OneFate(s, t);
      }
    }
  }

  lemma AnswerKeepsInv(s: Connection, t: nat)
    requires Inv(s) && !s.closed && s.Unjoined(t) && t < |s.tasks| && s.Current(t)
    ensures Inv(s.Join(t, Completed(true)))
  {
    var id := s.tasks[t].id;
    var s' := s.Join(t, Completed(true));
    var reply := Answer(t, id);
    AnsweredAfterSay(s, reply);
    SameAnswered(s.Say(reply), s');
    InactiveWithout(s, s', id);
    assert IsActive(s, t);
    assert OneFate(s, t);
    forall u: nat | u < |s'.tasks| ensures OneFate(s', u) {
      assert OneFate(s, u);
    }
    assert SetsInv(s') by { RemoveKeepsLimits(s, t); }
    assert AnswersInv(s') by { AnswerKeepsReplies(s, t); }
  }

  lemma RemoveKeepsLimits(s: Connection, t: nat)
    requires SetsInv(s)
    ensures |s.calls - {t}| <= WORK_REQUESTS && |s.management - {t}| <= MANAGEMENT_REQUESTS
  {}

  lemma AnswerKeepsReplies(s: Connection, t: nat)
    requires AnswersInv(s) && s.Unjoined(t) && t < |s.tasks| && s.Current(t) && !IsAnswered(s, t)
    ensures AnswersInv(s.Join(t, Completed(true)))
  {
    var s' := s.Join(t, Completed(true));
    var reply := Answer(t, s.tasks[t].id);
    AnsweredAfterSay(s, reply);
    SameAnswered(s.Say(reply), s');
  }

  lemma LossKeepsInv(s: Connection, t: nat)
    requires Inv(s) && !s.closed && s.Unjoined(t) && t < |s.tasks| && s.Current(t)
    ensures Inv(s.Join(t, Completed(false)))
  {
    var s' := s.Join(t, Completed(false));
    SameAnswered(s, s');
    InactiveWithout(s, s', s.tasks[t].id);
    assert IsActive(s, t);
    RemoveKeepsLimits(s, t);
    forall u: nat | u < |s'.tasks| ensures OneFate(s', u) {
      assert OneFate(s, u);
    }
  }

  lemma DiscardKeepsInv(s: Connection, t: nat, joined: Joined)
    requires Inv(s) && Enabled(s, Joins(t, joined))
    requires joined.Completed? ==> !s.Current(t)
    ensures Inv(s.Join(t, joined))
  {
    var s' := s.Join(t, joined);
    RemoveKeepsLimits(s, t);
    DiscardKeepsFates(s, s', t);
    forall id | !s'.closed && id in s.active ensures s.active[id] != t {
      assert IsActive(s, s.active[id]) && OneFate(s, t);
    }
  }

  /** What a fate depends on is as it was. */
  lemma DiscardKeepsFates(s: Connection, s': Connection, t: nat)
    requires Inv(s) && !s.closed && t < |s.tasks|
    requires s' == s.(management := s.management - {t}, calls := s.calls - {t}, closed := s'.closed)
    ensures AnswersInv(s') && forall u: nat :: u < |s'.tasks| ==> OneFate(s', u)
    ensures forall u: nat :: IsAnswered(s', u) <==> IsAnswered(s, u)
  {
    SameAnswered(s, s');
    SameActive(s, s');
    forall u: nat | u < |s'.tasks| ensures OneFate(s', u) {
      assert OneFate(s, u);
    }
  }

  lemma ReceiveKeepsInv(s: Connection, request: Request, sent: bool)
    requires Inv(s) && !s.closed
    ensures Inv(s.Receive(request, sent))
  {
    match request.id
    case None =>
      if request.operation.CancelNotification? && request.operation.requestId.Some?
          && request.operation.requestId.value in s.active {
        CancelKeepsInv(s, request.operation.requestId.value);
      }
    case Some(id) =>
      var isManagement := request.operation.Management?;
      if id in s.active {
        TrySayKeepsInv(s, InProgress(id), s.initialized, sent);
      } else if request.operation.Initialize? {
        TrySayKeepsInv(s, Initialized(id), s.initialized || sent, sent);
      } else if s.Full(isManagement) {
        TrySayKeepsInv(s, Busy(id), s.initialized, sent);
      } else {
        SpawnKeepsInv(s, Task(id, isManagement && request.operation.restart), isManagement);
      }
  }

  lemma StepKeepsInv(s: Connection, ev: Event)
    requires Inv(s) && Enabled(s, ev)
    ensures Inv(Apply(s, ev))
  {
    match ev
    case Disconnects => CloseKeepsInv(s, s.initialized);
    case Joins(t, joined) =>
      if joined.Completed? && s.Current(t) {
        if joined.sent {
          AnswerKeepsInv(s, t);
        } else {
          LossKeepsInv(s, t);
        }
      } else {
        DiscardKeepsInv(s, t, joined);
      }
    case Arrives(request, sent) => ReceiveKeepsInv(s, request, sent);
  }

  ghost predicate RunOf(s: Connection, evs: seq<Event>)
    decreases |evs|
  {
    evs == [] || (Enabled(s, evs[0]) && RunOf(Apply(s, evs[0]), evs[1..]))
  }

  ghost function After(s: Connection, evs: seq<Event>): Connection
    requires RunOf(s, evs)
    decreases |evs|
  {
    if evs == [] then s else After(Apply(s, evs[0]), evs[1..])
  }

  lemma {:induction false} RunKeepsInv(s: Connection, evs: seq<Event>)
    requires Inv(s) && RunOf(s, evs)
    ensures Inv(After(s, evs))
    decreases |evs|
  {
    if evs != [] {
      StepKeepsInv(s, evs[0]);
      RunKeepsInv(Apply(s, evs[0]), evs[1..]);
    }
  }

  /** In every reachable state each accepted request has exactly one fate and at most one answer, active entries name
      unjoined tasks that carry their id, and the two task sets stay within their limits. */
  lemma EveryRunIsSound(evs: seq<Event>)
    requires RunOf(Start, evs)
    ensures var s := After(Start, evs);
            && (forall t: nat :: t < |s.tasks| ==> OneFate(s, t))
            && (forall i, j :: 0 <= i < j < |s.replies| && s.replies[i].Answer? && s.replies[j].Answer? ==>
                  s.replies[i].task != s.replies[j].task)
            && (forall id :: id in s.active ==> s.active[id] < |s.tasks| && s.tasks[s.active[id]].id == id)
            && (!s.closed ==> forall id :: id in s.active ==> s.Unjoined(s.active[id]))
            && (forall i :: 0 <= i < |s.replies| && s.replies[i].Answer? ==>
                  s.replies[i].task < |s.tasks| && s.tasks[s.replies[i].task].id == s.replies[i].id)
            && |s.calls| <= WORK_REQUESTS && |s.management| <= MANAGEMENT_REQUESTS
            && (forall i :: 0 <= i < |s.restarts| ==> IsAnswered(s, s.restarts[i]))
  {
    RunKeepsInv(Start, evs);
  }

  /** A cancelled request is never answered later, even when its id is reused while its task is still unjoined. */
  lemma {:induction false} CancelledStaysSilent(s: Connection, evs: seq<Event>, t: nat)
    requires Inv(s) && RunOf(s, evs) && t in s.cancelled
    ensures t in After(s, evs).cancelled && !IsAnswered(After(s, evs), t)
    decreases |evs|
  {
    if evs != [] {
      StepKeepsInv(s, evs[0]);
      CancelledStaysSilent(Apply(s, evs[0]), evs[1..], t);
    } else {
      assert OneFate(s, t);
    }
  }

  // ---------------------------------------------------------------- the loop's own state

  ghost predicate IsRun(evs: seq<Event>, s: Connection) {
    RunOf(Start, evs) && After(Start, evs) == s
  }

  ghost predicate Reachable(s: Connection) {
    exists evs :: IsRun(evs, s)
  }

  lemma StartIsReachable()
    ensures Reachable(Start)
  {
    assert IsRun([], Start);
  }

  lemma {:induction false} RunExtends(s: Connection, evs: seq<Event>, ev: Event)
    requires RunOf(s, evs) && Enabled(After(s, evs), ev)
    ensures RunOf(s, evs + [ev]) && After(s, evs + [ev]) == Apply(After(s, evs), ev)
    decreases |evs|
  {
    if evs == [] {
      assert [] + [ev] == [ev];
      assert RunOf(Apply(s, ev), []);
    } else {
      assert (evs + [ev])[1..] == evs[1..] + [ev];
      RunExtends(Apply(s, evs[0]), evs[1..], ev);
    }
  }

  lemma StepIsReachable(s: Connection, ev: Event)
    requires Reachable(s) && Enabled(s, ev)
    ensures Reachable(Apply(s, ev))
  {
    var evs :| IsRun(evs, s);
    RunExtends(Start, evs, ev);
    assert IsRun(evs + [ev], Apply(s, ev));
  }

  lemma ReachableSatisfiesInv(s: Connection)
    requires Reachable(s)
    ensures Inv(s)
  {
    var evs :| IsRun(evs, s);
    RunKeepsInv(Start, evs);
  }

  /** Room for one more: eight management requests at a time, and 32 others. */
  predicate HasRoom(s: Connection, request: Request) {
    if request.operation.Management? then |s.management| < 8 else |s.calls| < 32
  }

  /** Whether a request becomes a new task. */
  predicate Accepts(s: Connection, request: Request) {
    request.id.Some? && request.id.value !in s.active && !request.operation.Initialize? && HasRoom(s, request)
  }

  /** The new task carries the request's id, restarts Portal exactly if it is asked to, and counts in its own set. */
  predicate BecomesTask(s: Connection, request: Request, s': Connection)
    requires request.id.Some?
  {
    var t := |s.tasks|;
    && s'.tasks == s.tasks + [Task(request.id.value, request.operation == Management(true))]
    && s'.active == s.active[request.id.value := t]
    && s'.management == (if request.operation.Management? then s.management + {t} else s.management)
    && s'.calls == (if request.operation.Management? then s.calls else s.calls + {t})
    && s'.replies == s.replies && s'.closed == s.closed && s'.initialized == s.initialized
  }

  /** What a request is answered itself, when it does not become a task. */
  function OwnReply(s: Connection, request: Request): Option<Reply> {
    if request.id.None? then None
    else if request.id.value in s.active then Some(InProgress(request.id.value))
    else if request.operation.Initialize? then Some(Initialized(request.id.value))
    else Some(Busy(request.id.value))
  }

  /** No task comes or goes; the reply, if there is one, is sent or the connection ends. */
  predicate IsAnsweredItself(s: Connection, request: Request, sent: bool, s': Connection) {
    var reply := OwnReply(s, request);
    && s'.tasks == s.tasks && s'.calls == s.calls && s'.management == s.management
    && s'.replies == (if reply.Some? && sent then s.replies + [reply.value] else s.replies)
    && (s'.closed <==> s.closed || (reply.Some? && !sent))
    && (s'.initialized <==> s.initialized || (sent && reply.Some? && reply.value.Initialized?))
    && s'.active == map id | id in s.active && !IsCancelledBy(request, id) :: s.active[id]
  }

  predicate IsCancelledBy(request: Request, id: nat) {
    request.id.None? && request.operation == CancelNotification(Some(id))
  }

  /** No request, answered or not, takes away another one's answer or chance of one, but a cancellation. */
  lemma ReceiveMeans(s: Connection, request: Request, sent: bool)
    requires Reachable(s) && !s.closed
    ensures var s' := s.Receive(request, sent);
            && Reachable(s')
            && (forall t: nat :: IsAnswered(s', t) <==> IsAnswered(s, t))
            && |s'.calls| <= WORK_REQUESTS && |s'.management| <= MANAGEMENT_REQUESTS
            && s'.cancelled == s.cancelled + Addressed(s, request)
  {
    StepIsReachable(s, Arrives(request, sent));
    ReachableSatisfiesInv(s.Receive(request, sent));
    assert SetsInv(s.Receive(request, sent));
    ReceiveAnswersNobody(s, request, sent);
  }

  lemma ReceiveAnswersNobody(s: Connection, request: Request, sent: bool)
    ensures forall t: nat :: IsAnswered(s.Receive(request, sent), t) <==> IsAnswered(s, t)
  {
    var s' := s.Receive(request, sent);
    assert s'.replies == s.replies
        || (|s'.replies| == |s.replies| + 1 && s' == s.Say(s'.replies[|s.replies|]).(initialized := s'.initialized));
    if s'.replies == s.replies {
      SameAnswered(s, s');
    } else {
      AnsweredAfterSay(s, s'.replies[|s.replies|]);
      SameAnswered(s.Say(s'.replies[|s.replies|]), s');
    }
  }

  /** The task a cancellation names, if it is active. */
  function Addressed(s: Connection, request: Request): set<nat> {
    if request.id.None? && request.operation.CancelNotification? && request.operation.requestId.Some?
       && request.operation.requestId.value in s.active
    then {s.active[request.operation.requestId.value]} else {}
  }

  lemma AcceptanceMeans(s: Connection, request: Request, sent: bool)
    requires !s.closed
    ensures var s' := s.Receive(request, sent);
            if Accepts(s, request) then BecomesTask(s, request, s') else IsAnsweredItself(s, request, sent, s')
  {
    if !Accepts(s, request) {
      assert s.Receive(request, sent).active == map id | id in s.active && !IsCancelledBy(request, id) :: s.active[id];
    }
  }

  lemma UnjoinedIsActiveOrCancelled(s: Connection, t: nat)
    requires Reachable(s) && !s.closed && s.Unjoined(t)
    ensures t < |s.tasks| && !(t in s.calls && t in s.management)
    ensures !IsAnswered(s, t) && t !in s.restarts
    ensures s.Current(t) <==> t !in s.cancelled
    ensures forall id :: id in s.active && s.active[id] == t ==> id == s.tasks[t].id
  {
    ReachableSatisfiesInv(s);
    assert OneFate(s, t);
    assert s.Current(t) ==> IsActive(s, t);
  }

  lemma JoinLeavesOthersActive(s: Connection, t: nat, joined: Joined)
    requires s.Unjoined(t) && t < |s.tasks|
    requires forall id :: id in s.active && s.active[id] == t ==> id == s.tasks[t].id
    ensures s.Join(t, joined).active ==
            map id | id in s.active && (joined.Completed? ==> s.active[id] != t) :: s.active[id]
  {}

  lemma JoinMeans(s: Connection, t: nat, joined: Joined)
    requires Reachable(s) && Enabled(s, Joins(t, joined))
    ensures var s' := s.Join(t, joined);
            && Reachable(s') && !s'.Unjoined(t)
            && (IsAnswered(s', t) <==> joined == Completed(true) && t !in s.cancelled)
            && (forall u: nat :: u != t ==> (IsAnswered(s', u) <==> IsAnswered(s, u)))
            && (t in s'.restarts <==> t in s.management && s.tasks[t].restart && IsAnswered(s', t))
            && (s'.closed <==> joined.Panicked? || (joined == Completed(false) && t !in s.cancelled))
            && s'.active == map id | id in s.active && (joined.Completed? ==> s.active[id] != t) :: s.active[id]
  {
    StepIsReachable(s, Joins(t, joined));
    UnjoinedIsActiveOrCancelled(s, t);
    var s' := s.Join(t, joined);
    JoinLeavesOthersActive(s, t, joined);
    if joined == Completed(true) && s.Current(t) {
      var reply := Answer(t, s.tasks[t].id);
      AnsweredAfterSay(s, reply);
      SameAnswered(s.Say(reply), s');
    } else {
      SameAnswered(s, s');
    }
  }

  class ServerConnection {
    var active: map<nat, nat>
    var calls: set<nat>
    var management: set<nat>
    var tasks: seq<Task>
    var initialized: bool
    var closed: bool
    var replies: seq<Reply>
    var restarts: seq<nat>
    ghost var cancelled: set<nat>
    ghost var lost: set<nat>

    ghost function State(): Connection
      reads this
    {
      Connection(active, calls, management, tasks, initialized, closed, replies, restarts, cancelled, lost)
    }

    ghost predicate Valid()
      reads this
    {
      Reachable(State())
    }

    constructor ()
      ensures Valid() && State() == Start
    {
      active, calls, management, tasks := map[], {}, {}, [];
      initialized, closed, replies, restarts := false, false, [], [];
      cancelled, lost := {}, {};
      new;
      StartIsReachable();
    }

    method TrySay(reply: Reply, sent: bool)
      modifies this`replies, this`closed
      ensures State() == old(State()).TrySay(reply, sent)
    {
      if sent {
        replies := replies + [reply];
      } else {
        closed := true;
      }
    }

    /** A request becomes a new active task exactly when its id is free, it does not initialize and its set has room;
        otherwise it is answered itself, or the connection is over. No task is answered here, and only a cancellation
        takes one out of the active ones. */
    method HandleRequest(request: Request, sent: bool)
      requires Valid() && !closed
      modifies this
      ensures Valid() && State() == old(State()).Receive(request, sent)
      ensures Accepts(old(State()), request) ==> BecomesTask(old(State()), request, State())
      ensures !Accepts(old(State()), request) ==> IsAnsweredItself(old(State()), request, sent, State())
      ensures forall t: nat :: IsAnswered(State(), t) <==> old(IsAnswered(State(), t))
      ensures |calls| <= WORK_REQUESTS && |management| <= MANAGEMENT_REQUESTS
      ensures cancelled == old(cancelled) + Addressed(old(State()), request)
    {
      ReceiveMeans(State(), request, sent);
      AcceptanceMeans(State(), request, sent);
      if request.id.None? {
        HandleNotification(request.operation);
      } else if request.id.value in active {
        TrySay(InProgress(request.id.value), sent);
      } else if request.operation.Initialize? {
        TrySay(Initialized(request.id.value), sent);
        initialized := initialized || sent;
      } else {
        Dispatch(request.id.value, request.operation, sent);
      }
    }

    method HandleNotification(operation: Operation)
      modifies this`active, this`cancelled
      ensures State() == old(State()).Receive(Request(None, operation), true)
    {
      if operation.CancelNotification? && operation.requestId.Some? {
        var id := operation.requestId.value;
        if id in active {
          cancelled := cancelled + {active[id]};
          active := active - {id};
        }
      }
    }

    method Dispatch(id: nat, operation: Operation, sent: bool)
      requires id !in active && !operation.Initialize?
      modifies this`active, this`tasks, this`calls, this`management, this`replies, this`closed
      ensures State() == old(State()).Receive(Request(Some(id), operation), sent)
    {
      var isManagement := operation.Management?;
      var used := if isManagement then |management| else |calls|;
      var limit := if isManagement then MANAGEMENT_REQUESTS else WORK_REQUESTS;
      if used >= limit {
        TrySay(Busy(id), sent);
        return;
      }
      var t := |tasks|;
      tasks := tasks + [Task(id, isManagement && operation.restart)];
      if isManagement {
        management := management + {t};
      } else {
        calls := calls + {t};
      }
      active := active[id := t];
    }

    /** A result is sent exactly for a task that was not cancelled, whatever its id is used for by now; only a sent
        answer restarts Portal, and a failed send ends the connection. */
    method JoinManagement(t: nat, joined: Joined)
      requires Valid() && !closed && t in management && (joined.WasCancelled? ==> t in cancelled)
      modifies this
      ensures Valid() && t !in management && tasks == old(tasks) && t < |tasks|
      ensures replies == if IsAnswered(State(), t) then old(replies) + [Answer(t, tasks[t].id)] else old(replies)
      ensures active == map id | id in old(active) && (joined.Completed? ==> old(active)[id] != t) :: old(active)[id]
      ensures IsAnswered(State(), t) <==> joined == Completed(true) && t !in old(cancelled)
      ensures t in restarts <==> tasks[t].restart && IsAnswered(State(), t)
      ensures forall u: nat :: u != t ==> (IsAnswered(State(), u) <==> old(IsAnswered(State(), u)))
      ensures closed <==> joined.Panicked? || (joined == Completed(false) && t !in old(cancelled))
    {
      UnjoinedIsActiveOrCancelled(State(), t);
      JoinMeans(State(), t, joined);
      var task := tasks[t];
      management := management - {t};
      assert calls - {t} == calls;
      match joined
      case Completed(sent) =>
        if task.id in active && active[task.id] == t {
          active := active - {task.id};
          TrySay(Answer(t, task.id), sent);
          if !sent {
            lost := lost + {t};
            return;
          }
          if task.restart {
            restarts := restarts + [t];
          }
        }
      case WasCancelled =>
      case Panicked => closed := true;
    }

    method JoinCall(t: nat, joined: Joined)
      requires Valid() && !closed && t in calls && (joined.WasCancelled? ==> t in cancelled)
      modifies this
      ensures Valid() && t !in calls && tasks == old(tasks) && t < |tasks| && restarts == old(restarts)
      ensures replies == if IsAnswered(State(), t) then old(replies) + [Answer(t, tasks[t].id)] else old(replies)
      ensures active == map id | id in old(active) && (joined.Completed? ==> old(active)[id] != t) :: old(active)[id]
      ensures IsAnswered(State(), t) <==> joined == Completed(true) && t !in old(cancelled)
      ensures forall u: nat :: u != t ==> (IsAnswered(State(), u) <==> old(IsAnswered(State(), u)))
      ensures closed <==> joined.Panicked? || (joined == Completed(false) && t !in old(cancelled))
    {
      UnjoinedIsActiveOrCancelled(State(), t);
      JoinMeans(State(), t, joined);
      var task := tasks[t];
      calls := calls - {t};
      assert management - {t} == management;
      match joined
      case Completed(sent) =>
        if task.id in active && active[task.id] == t {
          active := active - {task.id};
          TrySay(Answer(t, task.id), sent);
          if !sent {
            lost := lost + {t};
          }
        }
      case WasCancelled =>
      case Panicked => closed := true;
    }
  }
}
