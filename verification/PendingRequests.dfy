/**
 The pending-request table of one MCP connection: requesters, the reader, timeouts, dropped futures and
 shutdown all meet in a map and an alive flag.
 */
module PendingRequests {
  import opened Basics

  const PENDING_REQUESTS: nat := 16

  datatype Response = Response(id: Option<nat>, body: int)

  /** The one-shot channel of a request, as its receiver sees it. */
  datatype Channel = Empty | Sent(response: Response) | Closed

  /** The shared part: the flag, the registered senders, and the receivers' ends. */
  datatype Table = Table(alive: bool, senders: set<nat>, channels: map<nat, Channel>)
  {
    function Abort(): Table {
      this.(alive := false)
    }

    function Register(id: nat): (Table, bool) {
      if !alive || |senders| >= PENDING_REQUESTS then (this, false)
      else (this.(senders := senders + {id}, channels := channels[id := Empty]), true)
    }

    /** Remove an entry without answering: its sender is dropped, so its receiver sees the channel close. */
    function Forget(id: nat): Table {
      if id in senders then this.(senders := senders - {id}, channels := channels[id := Closed]) else this
    }

    /** The guard's drop: free the slot; abort over a half-written line or an undeliverable cancellation. */
    function Release(id: nat, writing: bool, cancellable: bool, cancelSent: bool): Table {
      var t := Forget(id);
      if writing || (id in senders && cancellable && !cancelSent) then t.Abort() else t
    }

    function Deliver(response: Response): Table {
      if response.id.Some? && response.id.value in senders then
        this.(senders := senders - {response.id.value}, channels := channels[response.id.value := Sent(response)])
      else this
    }

    function Clear(): Table {
      this.(senders := {}, channels := map id | id in channels :: if id in senders then Closed else channels[id])
    }
  }

  // ---------------------------------------------------------------- the interleaving

  datatype Outcome = Refused | Failed | TimedOut | Dropped | Received(response: Response) | ChannelClosed

  /** Where the future of request `id` is. */
  datatype Phase =
    | Allocated
    | Registered(cancellable: bool)
    | Writing(cancellable: bool)
    | Waiting(cancellable: bool)
    | Done(outcome: Outcome)
  {
    predicate Live() {
      Registered? || Writing? || Waiting?
    }
  }

  datatype Reader = Reading | MarkedDead | Cleared

  /** `wire` is history: the responses taken off the wire, in order. */
  datatype Client = Client(table: Table, nextId: nat, phases: map<nat, Phase>, reader: Reader, wire: seq<Response>)
  {
    function Goto(id: nat, phase: Phase): Client {
      this.(phases := phases[id := phase])
    }

    predicate At(id: nat) {
      id in phases
    }
  }

  datatype Event =
    | Allocate
    | TryRegister(id: nat, cancellable: bool)
    | Oversize(id: nat)
    | BeginWrite(id: nat)
    | EndWrite(id: nat, ok: bool)
    | Take(id: nat)
    | TimeOut(id: nat, cancelSent: bool)
    | DropFuture(id: nat, cancelSent: bool)
    | Wire(response: Response)
    | ReaderStops
    | ReaderClears
    | AbortConnection
    | ShutdownConnection

  predicate Enabled(s: Client, ev: Event) {
    match ev
    case Allocate => true
    case TryRegister(id, _) => s.At(id) && s.phases[id].Allocated?
    case Oversize(id) => s.At(id) && s.phases[id].Registered?
    case BeginWrite(id) => s.At(id) && s.phases[id].Registered?
    // The time for writing can run out before the writer is free.
    case EndWrite(id, ok) => s.At(id) && (s.phases[id].Writing? || (s.phases[id].Registered? && !ok))
    case Take(id) => s.At(id) && s.phases[id].Waiting? && id in s.table.channels && !s.table.channels[id].Empty?
    case TimeOut(id, _) => s.At(id) && s.phases[id].Waiting?
    case DropFuture(id, _) => s.At(id) && !s.phases[id].Done?
    case Wire(_) => s.reader.Reading?
    case ReaderStops => s.reader.Reading?
    case ReaderClears => s.reader.MarkedDead?
    case AbortConnection => true
    case ShutdownConnection => true
  }

  function Apply(s: Client, ev: Event): Client
    requires Enabled(s, ev)
  {
    match ev
    case Allocate => s.(nextId := s.nextId + 1).Goto(s.nextId, Allocated)
    case TryRegister(id, cancellable) =>
      var (table, ok) := s.table.Register(id);
      s.(table := table).Goto(id, if ok then Registered(cancellable) else Done(Refused))
    case Oversize(id) =>
      s.(table := s.table.Forget(id).Release(id, false, s.phases[id].cancellable, true)).Goto(id, Done(Refused))
    case BeginWrite(id) => s.Goto(id, Writing(s.phases[id].cancellable))
    case EndWrite(id, ok) =>
      if ok then s.Goto(id, Waiting(s.phases[id].cancellable))
      else
        var c := s.phases[id].cancellable;
        s.(table := s.table.Forget(id).Abort().Release(id, true, c, false)).Goto(id, Done(Failed))
    case Take(id) =>
      var outcome := if s.table.channels[id].Sent? then Received(s.table.channels[id].response) else ChannelClosed;
      s.(table := s.table.Release(id, false, s.phases[id].cancellable, true)).Goto(id, Done(outcome))
    case TimeOut(id, cancelSent) =>
      s.(table := s.table.Release(id, false, s.phases[id].cancellable, cancelSent)).Goto(id, Done(TimedOut))
    case DropFuture(id, cancelSent) =>
      if s.phases[id].Allocated? then s.Goto(id, Done(Dropped))
      else
        var k := s.phases[id];
        s.(table := s.table.Release(id, k.Writing?, k.cancellable, cancelSent)).Goto(id, Done(Dropped))
    case Wire(response) => s.(table := s.table.Deliver(response), wire := s.wire + [response])
    case ReaderStops => s.(table := s.table.Abort(), reader := MarkedDead)
    case ReaderClears => s.(table := s.table.Clear(), reader := Cleared)
    case AbortConnection => s.(table := s.table.Abort())
    case ShutdownConnection => s.(table := s.table.Abort().Clear())
  }

  // ---------------------------------------------------------------- invariants

  ghost predicate Inv(s: Client) {
    TableInv(s) && WaitersInv(s)
  }

  ghost predicate TableInv(s: Client) {
    && |s.table.senders| <= PENDING_REQUESTS
    && (forall id :: id in s.phases ==> id < s.nextId)
    && (forall id :: id in s.table.senders ==> id in s.phases && s.phases[id].Live())
    && (forall id :: id in s.table.senders ==> id in s.table.channels && s.table.channels[id] == Empty)
    && (forall id :: id in s.table.channels ==> id in s.phases && !s.phases[id].Allocated?)
    && (!s.reader.Reading? ==> !s.table.alive)
    && (s.reader.Cleared? ==> s.table.senders == {})
  }

  ghost predicate WaitersInv(s: Client) {
    // No lost wake-up: a live request either still has its sender in the table or has something to receive.
    && (forall id :: id in s.phases && s.phases[id].Live() ==>
          && id in s.table.channels && (id in s.table.senders <==> s.table.channels[id] == Empty)
          && (s.table.channels[id].Closed? ==> !s.table.alive))
    && (forall id :: id in s.table.channels && s.table.channels[id].Sent? ==>
          s.table.channels[id].response.id == Some(id) && s.table.channels[id].response in s.wire)
    && (forall id :: id in s.phases && s.phases[id].Done? && s.phases[id].outcome.Received? ==>
          s.phases[id].outcome.response.id == Some(id) && s.phases[id].outcome.response in s.wire)
  }

  /** Request `id` ends with its sender out of the table, if it was still there. */
  ghost predicate Ends(s: Client, id: nat, table: Table, outcome: Outcome) {
    && s.At(id) && s.phases[id].Live()
    && table.senders == s.table.senders - {id} && (table.alive ==> s.table.alive)
    && table.channels == s.table.Forget(id).channels
    && (outcome.Received? ==> outcome.response.id == Some(id) && outcome.response in s.wire)
  }

  lemma EndingKeepsTable(s: Client, id: nat, table: Table, outcome: Outcome)
    requires TableInv(s) && Ends(s, id, table, outcome)
    ensures TableInv(s.(table := table).Goto(id, Done(outcome)))
  {
    assert |s.table.senders - {id}| <= |s.table.senders|;
  }

  lemma EndingKeepsWaiters(s: Client, id: nat, table: Table, outcome: Outcome)
    requires WaitersInv(s) && Ends(s, id, table, outcome)
    ensures WaitersInv(s.(table := table).Goto(id, Done(outcome)))
  {}

  /** Leaving the table and the phases consistent when request `id` ends, whether or not its sender is still there. */
  lemma EndingKeepsInv(s: Client, id: nat, table: Table, outcome: Outcome)
    requires Inv(s) && Ends(s, id, table, outcome)
    ensures Inv(s.(table := table).Goto(id, Done(outcome)))
  {
    EndingKeepsTable(s, id, table, outcome);
    EndingKeepsWaiters(s, id, table, outcome);
  }

  /** However a live request ends, it only takes its own sender out of the table. */
  lemma EndingShape(s: Client, ev: Event)
    requires Enabled(s, ev) && (ev.Oversize? || (ev.EndWrite? && !ev.ok) || ev.Take? || ev.TimeOut? || ev.DropFuture?)
    requires s.phases[ev.id].Live() && (ev.Take? ==> ev.id !in s.table.senders)
    ensures var s' := Apply(s, ev);
            && s'.phases[ev.id].Done? && s' == s.(table := s'.table).Goto(ev.id, s'.phases[ev.id])
            && s'.table.senders == s.table.senders - {ev.id} && (s'.table.alive ==> s.table.alive)
            && s'.table.channels == s.table.Forget(ev.id).channels
            && (s'.phases[ev.id].outcome.Received? ==>
                  ev.id in s.table.channels && s.table.channels[ev.id] == Sent(s'.phases[ev.id].outcome.response))
  {
  }

  lemma RequesterKeepsInv(s: Client, ev: Event)
    requires Inv(s) && Enabled(s, ev)
    requires ev.Oversize? || ev.EndWrite? || ev.Take? || ev.TimeOut? || ev.DropFuture?
    ensures Inv(Apply(s, ev))
  {
    var s' := Apply(s, ev);
    if s.phases[ev.id].Live() && !(ev.EndWrite? && ev.ok) {
      EndingShape(s, ev);
      EndingKeepsInv(s, ev.id, s'.table, s'.phases[ev.id].outcome);
    }
  }

  lemma RegisterKeepsInv(s: Client, id: nat, cancellable: bool)
    requires Inv(s) && Enabled(s, TryRegister(id, cancellable))
    ensures Inv(Apply(s, TryRegister(id, cancellable)))
  {
  }

  lemma WireKeepsInv(s: Client, response: Response)
    requires Inv(s) && Enabled(s, Wire(response))
    ensures Inv(Apply(s, Wire(response)))
  {
    if response.id.Some? {
      assert |s.table.senders - {response.id.value}| <= |s.table.senders|;
    }
  }

  lemma ConnectionKeepsInv(s: Client, ev: Event)
    requires Inv(s) && Enabled(s, ev)
    requires ev.ReaderStops? || ev.ReaderClears? || ev.AbortConnection? || ev.ShutdownConnection?
    ensures Inv(Apply(s, ev))
  {
  }

  lemma StepKeepsInv(s: Client, ev: Event)
    requires Inv(s) && Enabled(s, ev)
    ensures Inv(Apply(s, ev))
  {
    match ev
    case Allocate =>
    case BeginWrite(id) =>
    case TryRegister(id, cancellable) => RegisterKeepsInv(s, id, cancellable);
    case Wire(response) => WireKeepsInv(s, response);
    case Oversize(_) => RequesterKeepsInv(s, ev);
    case EndWrite(_, _) => RequesterKeepsInv(s, ev);
    case Take(_) => RequesterKeepsInv(s, ev);
    case TimeOut(_, _) => RequesterKeepsInv(s, ev);
    case DropFuture(_, _) => RequesterKeepsInv(s, ev);
    case _ => ConnectionKeepsInv(s, ev);
  }

  ghost predicate RunOf(s: Client, evs: seq<Event>)
    decreases |evs|
  {
    evs == [] || (Enabled(s, evs[0]) && RunOf(Apply(s, evs[0]), evs[1..]))
  }

  ghost function After(s: Client, evs: seq<Event>): Client
    requires RunOf(s, evs)
    decreases |evs|
  {
    if evs == [] then s else After(Apply(s, evs[0]), evs[1..])
  }

  const Fresh := Client(Table(true, {}, map[]), 1, map[], Reading, [])

  lemma {:induction false} RunKeepsInv(s: Client, evs: seq<Event>)
    requires Inv(s) && RunOf(s, evs)
    ensures Inv(After(s, evs))
    decreases |evs|
  {
    if evs != [] {
      StepKeepsInv(s, evs[0]);
      RunKeepsInv(Apply(s, evs[0]), evs[1..]);
    }
  }

  /** In every interleaving: at most 16 requests are pending; a response reaches only the request whose id it
      carries; a request that is done has no entry; and every live request can still be woken. */
  lemma EveryRunIsSound(evs: seq<Event>)
    requires RunOf(Fresh, evs)
    ensures var s := After(Fresh, evs);
            && |s.table.senders| <= PENDING_REQUESTS
            && (forall id :: id in s.phases && s.phases[id].Done? ==> id !in s.table.senders)
            && (forall id :: id in s.phases && s.phases[id].Done? && s.phases[id].outcome.Received? ==>
                  s.phases[id].outcome.response.id == Some(id) && s.phases[id].outcome.response in s.wire)
            && (forall id :: id in s.phases && s.phases[id].Waiting? && id !in s.table.senders ==> Enabled(s, Take(id)))
  {
    RunKeepsInv(Fresh, evs);
  }

  /** A connection whose table was cleared after its flag went down. */
  predicate Dead(s: Client) {
    !s.table.alive && s.table.senders == {}
  }

  lemma {:induction false} DeadStaysDead(s: Client, evs: seq<Event>)
    requires Inv(s) && RunOf(s, evs) && Dead(s)
    ensures Dead(After(s, evs))
    decreases |evs|
  {
    if evs != [] {
      StepKeepsInv(s, evs[0]);
      DeadStaysDead(Apply(s, evs[0]), evs[1..]);
    }
  }

  /** Once the reader has closed and cleared, or shutdown has, the table stays empty forever: no later call can
      register and then wait on the dead connection. */
  lemma ClosedTableStaysEmpty(before: seq<Event>, close: Event, later: seq<Event>)
    requires RunOf(Fresh, before) && (close.ReaderClears? || close.ShutdownConnection?)
    requires Enabled(After(Fresh, before), close) && RunOf(Apply(After(Fresh, before), close), later)
    ensures var s := After(Apply(After(Fresh, before), close), later);
            && s.table.senders == {} && !s.table.alive
            && (forall id, c ::
                Enabled(s, TryRegister(id, c)) ==> Apply(s, TryRegister(id, c)).phases[id] == Done(Refused))
  {
    RunKeepsInv(Fresh, before);
    StepKeepsInv(After(Fresh, before), close);
    DeadStaysDead(Apply(After(Fresh, before), close), later);
  }

  // ---------------------------------------------------------------- at most one answer

  /** Once a request is done its outcome never changes, and no response can reach it again. */
  lemma {:induction false} DoneIsFinal(s: Client, evs: seq<Event>, id: nat)
    requires Inv(s) && RunOf(s, evs) && id in s.phases && s.phases[id].Done?
    ensures id in After(s, evs).phases && After(s, evs).phases[id] == s.phases[id]
    decreases |evs|
  {
    if evs != [] {
      StepKeepsInv(s, evs[0]);
      DoneIsFinal(Apply(s, evs[0]), evs[1..], id);
    }
  }

  /** A request that was tried to be registered and has no sender in the table any more. */
  predicate Spent(s: Client, id: nat) {
    id in s.phases && !s.phases[id].Allocated? && id !in s.table.senders
  }

  lemma SpentStays(s: Client, ev: Event, id: nat)
    requires Inv(s) && Spent(s, id) && Enabled(s, ev)
    ensures Spent(Apply(s, ev), id)
  {}

  lemma {:induction false} SpentForever(s: Client, evs: seq<Event>, id: nat)
    requires Inv(s) && Spent(s, id) && RunOf(s, evs)
    ensures Spent(After(s, evs), id)
    decreases |evs|
  {
    if evs != [] {
      StepKeepsInv(s, evs[0]);
      SpentStays(s, evs[0], id);
      SpentForever(Apply(s, evs[0]), evs[1..], id);
    }
  }

  /** However much later a second response for the id of a request arrives, it changes nothing. */
  lemma SecondResponseIsIgnored(s: Client, first: Response, evs: seq<Event>, second: Response)
    requires Inv(s) && Enabled(s, Wire(first)) && first.id.Some? && second.id == first.id
    requires s.At(first.id.value) && !s.phases[first.id.value].Allocated?
    requires RunOf(Apply(s, Wire(first)), evs) && Enabled(After(Apply(s, Wire(first)), evs), Wire(second))
    ensures var e := After(Apply(s, Wire(first)), evs); Apply(e, Wire(second)).table == e.table
  {
    StepKeepsInv(s, Wire(first));
    SpentForever(Apply(s, Wire(first)), evs, first.id.value);
  }

  // ---------------------------------------------------------------- no answer is lost

  /** The response for `id` has arrived and waits to be taken, or was taken, or its caller did not wait for it. */
  predicate HasAnswer(s: Client, id: nat, response: Response) {
    && id in s.phases
    && if s.phases[id].Done? then
         s.phases[id].outcome == Received(response)
           || !(s.phases[id].outcome.Received? || s.phases[id].outcome.ChannelClosed?)
       else
         id in s.table.channels && s.table.channels[id] == Sent(response) && s.phases[id].Live()
           && id !in s.table.senders
  }

  lemma AnswerStays(s: Client, ev: Event, id: nat, response: Response)
    requires Inv(s) && HasAnswer(s, id, response) && Enabled(s, ev)
    ensures HasAnswer(Apply(s, ev), id, response)
  {}

  /** A live request whose response came off the wire can only end with that response, or because it gave up: whatever
      happens in between, also if the connection closes. */
  lemma AnswerIsNotLost(s: Client, response: Response, evs: seq<Event>)
    requires Inv(s) && Enabled(s, Wire(response)) && response.id.Some? && response.id.value in s.table.senders
    requires RunOf(Apply(s, Wire(response)), evs)
    ensures HasAnswer(After(Apply(s, Wire(response)), evs), response.id.value, response)
  {
    StepKeepsInv(s, Wire(response));
    AnswerIsKept(Apply(s, Wire(response)), evs, response.id.value, response);
  }

  lemma {:induction false} AnswerIsKept(s: Client, evs: seq<Event>, id: nat, response: Response)
    requires Inv(s) && HasAnswer(s, id, response) && RunOf(s, evs)
    ensures HasAnswer(After(s, evs), id, response)
    decreases |evs|
  {
    if evs != [] {
      StepKeepsInv(s, evs[0]);
      AnswerStays(s, evs[0], id, response);
      AnswerIsKept(Apply(s, evs[0]), evs[1..], id, response);
    }
  }

  // ---------------------------------------------------------------- the connection itself

  ghost predicate IsRun(evs: seq<Event>, s: Client) {
    RunOf(Fresh, evs) && After(Fresh, evs) == s
  }

  ghost predicate Reachable(s: Client) {
    exists evs :: IsRun(evs, s)
  }

  lemma FreshIsReachable()
    ensures Reachable(Fresh)
  {
    assert IsRun([], Fresh);
  }

  lemma {:induction false} RunExtends(s: Client, evs: seq<Event>, ev: Event)
    requires RunOf(s, evs) && Enabled(After(s, evs), ev)
    ensures RunOf(s, evs + [ev]) && After(s, evs + [ev]) == Apply(After(s, evs), ev)
    decreases |evs|
  {
    if evs == [] {
      assert [] + [ev] == [ev];
      assert RunOf(Apply(s, ev), []);
    } else {
      assert (evs + [ev])[1..] == evs[1..] + [ev];
      RunExtends(Apply(s, evs[0]), evs[1..], ev);
    }
  }

  lemma StepIsReachable(s: Client, ev: Event)
    requires Reachable(s) && Enabled(s, ev)
    ensures Reachable(Apply(s, ev))
  {
    var evs :| IsRun(evs, s);
    RunExtends(Fresh, evs, ev);
    assert IsRun(evs + [ev], Apply(s, ev));
  }

  lemma ReachableSatisfiesInv(s: Client)
    requires Reachable(s)
    ensures Inv(s)
  {
    var evs :| IsRun(evs, s);
    RunKeepsInv(Fresh, evs);
  }

  /** No request but `id` is touched. */
  ghost predicate SparesOthers(s: Client, s': Client, id: nat) {
    && s'.table.senders - {id} == s.table.senders - {id}
    && forall u :: u in s.phases && u != id ==>
         u in s'.phases && s'.phases[u] == s.phases[u]
         && (u in s.table.channels <==> u in s'.table.channels)
         && (u in s.table.channels ==> s'.table.channels[u] == s.table.channels[u])
  }

  /** Every request that waits has something to receive. */
  ghost predicate AllWoken(s: Client) {
    s.table.senders == {} && forall id :: id in s.phases && s.phases[id].Waiting? ==> Enabled(s, Take(id))
  }

  lemma RegisterMeans(s: Client, id: nat, cancellable: bool)
    requires Reachable(s) && Enabled(s, TryRegister(id, cancellable))
    ensures var s' := Apply(s, TryRegister(id, cancellable));
            Reachable(s') && SparesOthers(s, s', id) && |s'.table.senders| <= PENDING_REQUESTS && id !in s.table.senders
  {
    StepIsReachable(s, TryRegister(id, cancellable));
    ReachableSatisfiesInv(s);
    ReachableSatisfiesInv(Apply(s, TryRegister(id, cancellable)));
    assert TableInv(s);
  }

  lemma EndMeans(s: Client, ev: Event)
    requires Reachable(s) && Enabled(s, ev)
    requires ev.Oversize? || (ev.EndWrite? && !ev.ok) || ev.Take? || ev.TimeOut?
             || (ev.DropFuture? && s.phases[ev.id].Live())
    ensures var s' := Apply(s, ev);
            && Reachable(s') && SparesOthers(s, s', ev.id) && ev.id !in s'.table.senders && s'.phases[ev.id].Done?
            && (s'.phases[ev.id].outcome.Received? ==>
                  s'.phases[ev.id].outcome.response.id == Some(ev.id) && s'.phases[ev.id].outcome.response in s.wire)
            && (ev.Take? && s.table.channels[ev.id].Closed? ==> !s'.table.alive)
  {
    StepIsReachable(s, ev);
    ReachableSatisfiesInv(s);
    assert TableInv(s) && WaitersInv(s);
    EndingShape(s, ev);
  }

  lemma ResponseMeans(s: Client, response: Response)
    requires Reachable(s) && Enabled(s, Wire(response))
    ensures var s' := Apply(s, Wire(response));
            && Reachable(s')
            && (response.id.None? ==> s'.table == s.table)
            && (response.id.Some? ==>
                  var id := response.id.value;
                  && SparesOthers(s, s', id) && id !in s'.table.senders
                  && (id in s.table.senders ==>
                      s.At(id) && s.phases[id].Live() && s'.table.channels[id] == Sent(response))
                  && (id !in s.table.senders ==> s'.table == s.table))
  {
    StepIsReachable(s, Wire(response));
    ReachableSatisfiesInv(s);
    assert TableInv(s);
  }

  lemma CloseMeans(s: Client, ev: Event)
    requires Reachable(s) && Enabled(s, ev) && (ev.ReaderClears? || ev.ShutdownConnection?)
    ensures var s' := Apply(s, ev); Reachable(s') && AllWoken(s') && Dead(s')
  {
    StepIsReachable(s, ev);
    var s' := Apply(s, ev);
    ReachableSatisfiesInv(s);
    ReachableSatisfiesInv(s');
    assert TableInv(s) && WaitersInv(s');
  }

  /** `phases` is where each request's future stands, the flags of its guard included. */
  class McpConnection {
    var alive: bool
    var responses: set<nat>
    var channels: map<nat, Channel>
    var nextId: nat
    var phases: map<nat, Phase>
    ghost var reader: Reader
    ghost var wire: seq<Response>

    ghost function State(): Client
      reads this
    {
      Client(Table(alive, responses, channels), nextId, phases, reader, wire)
    }

    ghost predicate Valid()
      reads this
    {
      Reachable(State())
    }

    constructor ()
      ensures Valid() && State() == Fresh
    {
      alive, responses, channels, nextId := true, {}, map[], 1;
      phases, reader, wire := map[], Reading, [];
      new;
      FreshIsReachable();
    }

    /** Under the table lock, which reader cleanup takes as well: either the request is refused or cleanup will see it.
        At most 16 are pending. */
    method Register(cancellable: bool) returns (id: nat, ok: bool)
      requires Valid()
      modifies this
      ensures Valid() && id !in old(phases) && id in phases
      ensures ok <==> old(alive) && |old(responses)| < 16
      ensures alive == old(alive)
      ensures phases[id] == if ok then Registered(cancellable) else Done(Refused)
      ensures responses == (if ok then old(responses) + {id} else old(responses)) && |responses| <= 16
      ensures SparesOthers(old(State()), State(), id)
    {
      id := AllocateId();
      RegisterMeans(State(), id, cancellable);
      ok := alive && |responses| < PENDING_REQUESTS;
      if ok {
        responses := responses + {id};
        channels := channels[id := Empty];
      }
      phases := phases[id := if ok then Registered(cancellable) else Done(Refused)];
    }

    method AllocateId() returns (id: nat)
      requires Valid()
      modifies this
      ensures Valid() && State() == Apply(old(State()), Allocate) && id == old(nextId) && id !in old(phases)
    {
      StepIsReachable(State(), Allocate);
      ReachableSatisfiesInv(State());
      id := nextId;
      nextId := nextId + 1;
      phases := phases[id := Allocated];
    }

    method Forget(id: nat)
      modifies this`responses, this`channels
      ensures State() == old(State()).(table := old(State()).table.Forget(id))
    {
      if id in responses {
        responses := responses - {id};
        channels := channels[id := Closed];
      }
    }

    method DropGuard(id: nat, writing: bool, cancellable: bool, cancelSent: bool)
      modifies this`alive, this`responses, this`channels
      ensures State() == old(State()).(table := old(State()).table.Release(id, writing, cancellable, cancelSent))
    {
      var pending := id in responses;
      Forget(id);
      if writing {
        alive := false;
      } else if pending && cancellable {
        if !cancelSent {
          alive := false;
        }
      }
    }

    /** The caller goes away or its time is up, at any point: its slot is free, nobody else is touched, and the
        connection is over exactly when a half-written line is left behind or a cancellation could not be queued. */
    method AbandonRequest(id: nat, timedOut: bool, cancelSent: bool)
      requires Valid() && State().At(id) && phases[id].Live() && (timedOut ==> phases[id].Waiting?)
      modifies this
      ensures Valid() && id !in responses && SparesOthers(old(State()), State(), id)
      ensures id in phases && phases[id] == Done(if timedOut then TimedOut else Dropped)
      ensures alive <==>
              && old(alive) && !old(phases[id].Writing?)
              && (id in old(responses) && old(phases[id].cancellable) ==> cancelSent)
    {
      EndMeans(State(), if timedOut then TimeOut(id, cancelSent) else DropFuture(id, cancelSent));
      DropGuard(id, phases[id].Writing?, phases[id].cancellable, cancelSent);
      phases := phases[id := Done(if timedOut then TimedOut else Dropped)];
    }

    /** The line was written, or the connection is over. */
    method FinishWrite(id: nat, ok: bool)
      requires Valid() && Enabled(State(), EndWrite(id, ok))
      modifies this
      ensures Valid() && SparesOthers(old(State()), State(), id)
      ensures id in phases
      ensures ok ==> phases[id] == Waiting(old(phases[id].cancellable)) && alive == old(alive)
      ensures !ok ==> phases[id] == Done(Failed) && !alive && id !in responses
    {
      if ok {
        StepIsReachable(State(), EndWrite(id, true));
        phases := phases[id := Waiting(phases[id].cancellable)];
        return;
      }
      EndMeans(State(), EndWrite(id, false));
      var cancellable := phases[id].cancellable;
      Forget(id);
      alive := false;
      DropGuard(id, true, cancellable, false);
      phases := phases[id := Done(Failed)];
    }

    /** What a woken caller gets is a response that carries its own id and came off the wire, or the news that none
        will. */
    method TakeResponse(id: nat) returns (outcome: Outcome)
      requires Valid() && Enabled(State(), Take(id))
      modifies this
      ensures Valid() && id in phases && phases[id] == Done(outcome) && id !in responses
              && SparesOthers(old(State()), State(), id)
      ensures alive == old(alive)
      ensures old(channels)[id].Sent? ==> outcome == Received(old(channels)[id].response)
      ensures old(channels)[id].Closed? ==> outcome == ChannelClosed && !alive
      ensures outcome.Received? ==> outcome.response.id == Some(id) && outcome.response in wire
    {
      EndMeans(State(), Take(id));
      outcome := if channels[id].Sent? then Received(channels[id].response) else ChannelClosed;
      DropGuard(id, false, phases[id].cancellable, true);
      phases := phases[id := Done(outcome)];
    }

    /** A response reaches the live request that is registered under its id, and nobody else. */
    method ReadResponse(response: Response)
      requires Valid() && reader.Reading?
      modifies this
      ensures Valid() && alive == old(alive) && phases == old(phases)
      ensures response.id.None? || response.id.value !in old(responses) ==>
                responses == old(responses) && channels == old(channels)
      ensures response.id.Some? && response.id.value in old(responses) ==>
              var id := response.id.value;
              && State().At(id) && phases[id].Live() && id in channels && channels[id] == Sent(response)
              && id !in responses && SparesOthers(old(State()), State(), id)
    {
      ResponseMeans(State(), response);
      wire := wire + [response];
      match response.id
      case None =>
      case Some(id) =>
        if id in responses {
          responses := responses - {id};
          channels := channels[id := Sent(response)];
        }
    }

    /** The reader's end: the flag goes down before the callers are woken, and then all of them are. */
    method StopReading()
      requires Valid() && reader.Reading?
      modifies this
      ensures Valid() && AllWoken(State()) && Dead(State()) && phases == old(phases)
    {
      StepIsReachable(State(), ReaderStops);
      alive := false;
      reader := MarkedDead;
      CloseMeans(State(), ReaderClears);
      DropPending();
      reader := Cleared;
    }

    method DropPending()
      modifies this`responses, this`channels
      ensures State() == old(State()).(table := old(State()).table.Clear())
    {
      channels := map id | id in channels :: if id in responses then Closed else channels[id];
      responses := {};
    }

    /** Afterwards nobody is left waiting, and, as the connection is dead, nobody will. */
    method Shutdown()
      requires Valid()
      modifies this
      ensures Valid() && AllWoken(State()) && Dead(State()) && phases == old(phases)
    {
      CloseMeans(State(), ShutdownConnection);
      alive := false;
      DropPending();
    }
  }
}
