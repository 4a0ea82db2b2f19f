/**
 The matchmaking service as the API server uses it: a deterministic in-memory queue that is
 called, exported and restored, and that reports every session it resolves.

 The queue itself is abstract. `Lawful` lists what the server relies on: a resolved session that
 warrants a terminal decision is reported by the call that resolves it, only a join adds a queued
 ticket, closing the queue leaves none, and the fingerprint tells states apart.
 */
module MatchmakingService {
  import opened Wrappers

  /** Tickets and sessions of the in-memory queue service. */
  type Queue(==, !new)
  type Request(==, !new)
  type SessionId(==, !new)
  type Decision(==, !new)
  type TicketId(==, !new)
  /** The projection of a snapshot into the session-access index. */
  type AccessRows(==, !new)
  type Fingerprint(==, !new)

  /** Calls into the queue service. Every call first cleans up at its own clock reading. */
  datatype Call =
    | Cleanup(nowMs: int)
    | Restore(nowMs: int)
    | CloseQueued(nowMs: int)
    | Enqueue(request: Request, nowMs: int)
    | Handle(request: Request, nowMs: int)

  /** What one process keeps in memory and what a snapshot holds. */
  datatype State = State(queue: Queue, draining: bool)

  datatype Service = Service(
    empty: Queue,
    step: (Queue, Call) -> Queue,
    reported: (Queue, Call) -> map<SessionId, Decision>,
    warranted: Queue -> map<SessionId, Decision>,
    queued: Queue -> set<TicketId>,
    access: Queue -> AccessRows,
    fingerprint: State -> Fingerprint)

  /** `m` holds `d` for `id`. */
  predicate Holds<K, V(==)>(m: map<K, V>, id: K, d: V) { id in m && m[id] == d }

  /** A decision that is warranted after a call was reported by it or already warranted before. */
  ghost predicate ReportsResolutions(svc: Service) {
    forall q, c, id :: id in svc.warranted(svc.step(q, c)) ==>
      var d := svc.warranted(svc.step(q, c))[id];
      if id in svc.reported(q, c) then svc.reported(q, c)[id] == d else Holds(svc.warranted(q), id, d)
  }

  ghost predicate QueuesOnlyOnJoin(svc: Service) {
    && (forall q, c: Call :: !c.Enqueue? ==> svc.queued(svc.step(q, c)) <= svc.queued(q))
    && (forall q, nowMs :: svc.queued(svc.step(q, CloseQueued(nowMs))) == {})
  }

  ghost predicate StartsEmpty(svc: Service) {
    svc.warranted(svc.empty) == map[] && svc.queued(svc.empty) == {}
  }

  ghost predicate TellsApart(svc: Service) {
    forall s, t {:trigger svc.fingerprint(s), svc.fingerprint(t)} :: svc.fingerprint(s) == svc.fingerprint(t) ==> s == t
  }

  // ---------------------------------------------------------------- server operations

  /** What a request handler, a timer or a refresh does to the in-memory state. */
  datatype Operation =
    | Tick(nowMs: int)
    | Restored(nowMs: int)
    | Join(request: Request, nowMs: int)
    | Other(request: Request, nowMs: int)
    | SetDraining(draining: bool, nowMs: int)

  datatype Outcome = Outcome(state: State, reported: map<SessionId, Decision>)

  function Called(svc: Service, s: State, c: Call): Outcome {
    Outcome(State(svc.step(s.queue, c), s.draining), svc.reported(s.queue, c))
  }

  /** The join route refuses while draining; the drain route closes every queued ticket. */
  function Perform(svc: Service, s: State, op: Operation): Outcome {
    match op
    case Tick(nowMs) => Called(svc, s, Cleanup(nowMs))
    case Restored(nowMs) => Called(svc, s, Restore(nowMs))
    case Join(request, nowMs) => if s.draining then Outcome(s, map[]) else Called(svc, s, Enqueue(request, nowMs))
    case Other(request, nowMs) => Called(svc, s, Handle(request, nowMs))
    case SetDraining(draining, nowMs) =>
      if draining then Called(svc, State(s.queue, true), CloseQueued(nowMs)) else Outcome(State(s.queue, false), map[])
  }

  function Initial(svc: Service): State { State(svc.empty, false) }

  /** An operation with its place in the order in which operations were performed anywhere. */
  datatype Event = Event(serial: nat, who: Option<nat>, op: Operation)

  /** One sequential service that performs a list of operations. */
  function Run(svc: Service, events: seq<Event>): State {
    if events == [] then Initial(svc)
    else Perform(svc, Run(svc, events[..|events| - 1]), events[|events| - 1].op).state
  }

  lemma RunAppend(svc: Service, events: seq<Event>, e: Event)
    ensures Run(svc, events + [e]) == Perform(svc, Run(svc, events), e.op).state
  {
    assert (events + [e])[..|events|] == events;
  }

  /** Every decision warranted after an operation was reported by it or warranted before it. */
  lemma PerformReports(svc: Service, s: State, op: Operation, id: SessionId)
    requires ReportsResolutions(svc)
    requires id in svc.warranted(Perform(svc, s, op).state.queue)
    ensures
      var o := Perform(svc, s, op);
      var d := svc.warranted(o.state.queue)[id];
      if id in o.reported then o.reported[id] == d else Holds(svc.warranted(s.queue), id, d)
  {
  }

  /** While draining, no ticket waits in the queue. */
  predicate Drained(svc: Service, s: State) {
    s.draining ==> svc.queued(s.queue) == {}
  }

  lemma PerformDrained(svc: Service, s: State, op: Operation)
    requires QueuesOnlyOnJoin(svc) && Drained(svc, s)
    ensures Drained(svc, Perform(svc, s, op).state)
  {
  }

  /** No sequence of operations leaves a queued ticket behind while the service drains. */
  lemma {:induction false} RunDrained(svc: Service, events: seq<Event>)
    requires QueuesOnlyOnJoin(svc) && StartsEmpty(svc)
    ensures Drained(svc, Run(svc, events))
  {
    if events != [] {
      var n := |events| - 1;
      RunDrained(svc, events[..n]);
      PerformDrained(svc, Run(svc, events[..n]), events[n].op);
    }
  }

  // ---------------------------------------------------------------- what a list of operations amounts to

  /** The last drain or resume of the list. */
  predicate LastSet(events: seq<Event>, i: int) {
    && 0 <= i < |events| && events[i].op.SetDraining?
    && forall j :: i < j < |events| ==> !events[j].op.SetDraining?
  }

  /** The last word is a drain. */
  ghost predicate Closed(events: seq<Event>) {
    exists i :: LastSet(events, i) && events[i].op.draining
  }

  lemma LastSetIsUnique(events: seq<Event>, i: int, j: int)
    requires LastSet(events, i) && LastSet(events, j)
    ensures i == j
  {
  }

  /** What one more operation does to the last word. */
  lemma ClosedAppend(events: seq<Event>, e: Event)
    ensures Closed(events + [e]) <==> if e.op.SetDraining? then e.op.draining else Closed(events)
  {
    var longer, n := events + [e], |events|;
    if e.op.SetDraining? {
      assert LastSet(longer, n);
      forall i | LastSet(longer, i) ensures i == n { LastSetIsUnique(longer, i, n); }
    } else {
      forall i ensures LastSet(longer, i) <==> LastSet(events, i) {
        if LastSet(longer, i) { assert forall j :: i < j < n ==> events[j] == longer[j]; }
      }
      assert forall i :: LastSet(events, i) ==> longer[i] == events[i];
    }
  }

  /** After any operations the service drains exactly when the last drain or resume among them is a drain. */
  lemma {:induction false} DrainingIsLastWord(svc: Service, events: seq<Event>)
    ensures Run(svc, events).draining <==> Closed(events)
  {
    if events != [] {
      var n := |events| - 1;
      DrainingIsLastWord(svc, events[..n]);
      ClosedAppend(events[..n], events[n]);
      assert events[..n] + [events[n]] == events;
      hide Closed;
    } else {
      assert !Closed(events);
    }
  }

  /**
   What the queue is asked after any operations: a join is enqueued exactly when the last word is not
   a drain, a drain closes the queued tickets, a resume asks nothing, and the rest is passed on.
   */
  lemma QueueIsAsked(svc: Service, events: seq<Event>, e: Event)
    ensures
      var before, after := Run(svc, events).queue, Run(svc, events + [e]).queue;
      match e.op
      case Tick(at) => after == svc.step(before, Cleanup(at))
      case Restored(at) => after == svc.step(before, Restore(at))
      case Join(request, at) => after == if Closed(events) then before else svc.step(before, Enqueue(request, at))
      case Other(request, at) => after == svc.step(before, Handle(request, at))
      case SetDraining(draining, at) => after == if draining then svc.step(before, CloseQueued(at)) else before
  {
    RunAppend(svc, events, e);
    DrainingIsLastWord(svc, events);
    hide Closed, Run;
  }

  /** Once a drain is the last word, no ticket is queued. */
  lemma ClosedIsEmpty(svc: Service, events: seq<Event>)
    requires QueuesOnlyOnJoin(svc) && StartsEmpty(svc) && Closed(events)
    ensures svc.queued(Run(svc, events).queue) == {}
  {
    RunDrained(svc, events);
    DrainingIsLastWord(svc, events);
    hide Closed, Run, QueuesOnlyOnJoin;
  }

  /** A join after a resume reaches the queue. */
  lemma JoinAfterResume(svc: Service, events: seq<Event>, resume: Event, join: Event)
    requires resume.op.SetDraining? && !resume.op.draining && join.op.Join?
    ensures
      Run(svc, events + [resume] + [join]).queue ==
        svc.step(Run(svc, events).queue, Enqueue(join.op.request, join.op.nowMs))
  {
    QueueIsAsked(svc, events, resume);
    ClosedAppend(events, resume);
    QueueIsAsked(svc, events + [resume], join);
    hide Closed, Run;
  }
}
