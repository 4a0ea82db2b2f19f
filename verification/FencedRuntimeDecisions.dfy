/**
 No terminal decision is lost, in any run: not by rollbacks, crashes, superseded leases or late
 replies. A decision a stored snapshot warrants is in the outbox; one that only a process knows
 is pending there, and leaves the pending map only once a checkpoint that captured it committed.
 */
module FencedRuntimeDecisions {
  import opened Wrappers
  import opened MatchmakingService
  import opened FencedRuntime

  /** Every warranted decision is queued or already durable, with equal content. */
  ghost predicate Covered(warranted: map<SessionId, Decision>, queued: map<SessionId, Tagged>,
                          durable: map<SessionId, Decision>) {
    forall id :: id in warranted ==>
      (id in queued && queued[id].decision == warranted[id]) || Holds(durable, id, warranted[id])
  }

  ghost predicate AllDurable(warranted: map<SessionId, Decision>, durable: map<SessionId, Decision>) {
    forall id :: id in warranted ==> Holds(durable, id, warranted[id])
  }

  ghost predicate TagsBelow(queued: map<SessionId, Tagged>, bound: nat) {
    forall id :: id in queued ==> queued[id].tag < bound
  }

  ghost predicate CaptureOk(svc: Service, durable: map<SessionId, Decision>, nextTag: nat, c: Checkpoint) {
    && Covered(svc.warranted(c.snapshot.queue), c.decisions, durable)
    && TagsBelow(c.decisions, nextTag)
    && (c.committed ==> forall id :: id in c.decisions ==> Holds(durable, id, c.decisions[id].decision))
  }

  ghost predicate CapturesOk(svc: Service, durable: map<SessionId, Decision>, nextTag: nat, chain: seq<Checkpoint>) {
    forall k :: 0 <= k < |chain| ==> CaptureOk(svc, durable, nextTag, chain[k])
  }

  ghost predicate InstanceOk(svc: Service, durable: map<SessionId, Decision>, inst: Instance) {
    && Covered(svc.warranted(inst.memory.queue), inst.pending, durable)
    && TagsBelow(inst.pending, inst.nextTag)
    && CapturesOk(svc, durable, inst.nextTag, inst.chain)
  }

  ghost predicate NoneLost(svc: Service, w: World) {
    && (w.store.saved.Some? ==> AllDurable(svc.warranted(w.store.saved.value.snapshot.queue), w.store.decisions))
    && forall i :: Live(w, i) ==> InstanceOk(svc, w.store.decisions, At(w, i))
  }

  // ---------------------------------------------------------------- the outbox only grows

  ghost predicate Grows(durable: map<SessionId, Decision>, after: map<SessionId, Decision>) {
    forall id :: id in durable ==> Holds(after, id, durable[id])
  }

  lemma InstanceOkGrows(svc: Service, durable: map<SessionId, Decision>, after: map<SessionId, Decision>,
                        inst: Instance)
    requires InstanceOk(svc, durable, inst) && Grows(durable, after)
    ensures InstanceOk(svc, after, inst)
  {
    forall k | 0 <= k < |inst.chain| ensures CaptureOk(svc, after, inst.nextTag, inst.chain[k]) {
      assert CaptureOk(svc, durable, inst.nextTag, inst.chain[k]);
    }
  }

  lemma WrittenGrows(durable: map<SessionId, Decision>, queued: map<SessionId, Tagged>)
    requires !Conflicts(durable, queued)
    ensures Grows(durable, Written(durable, queued))
    ensures forall id :: id in queued ==> Holds(Written(durable, queued), id, queued[id].decision)
  {
  }

  // ---------------------------------------------------------------- inside one process

  lemma CapturesOkLater(svc: Service, durable: map<SessionId, Decision>, tag: nat, later: nat, chain: seq<Checkpoint>)
    requires CapturesOk(svc, durable, tag, chain) && tag <= later
    ensures CapturesOk(svc, durable, later, chain)
  {
    forall k | 0 <= k < |chain| ensures CaptureOk(svc, durable, later, chain[k]) {
      assert CaptureOk(svc, durable, tag, chain[k]);
    }
  }

  /** Queueing decisions covers whatever is reported or was covered and is still warranted. */
  lemma EnlistCovers(svc: Service, durable: map<SessionId, Decision>, inst: Instance, memory: State,
                     reported: map<SessionId, Decision>)
    requires InstanceOk(svc, durable, inst)
    requires
      var warranted := svc.warranted(memory.queue);
      forall id :: id in warranted ==>
        if id in reported then reported[id] == warranted[id]
        else Holds(svc.warranted(inst.memory.queue), id, warranted[id])
    ensures InstanceOk(svc, durable, Enlist(inst.(memory := memory), reported))
  {
    CapturesOkLater(svc, durable, inst.nextTag, inst.nextTag + 1, inst.chain);
    hide CapturesOk;
  }

  lemma EnlistTrail(inst: Instance, trail: seq<Event>, reported: map<SessionId, Decision>)
    ensures Enlist(inst.(trail := trail), reported) == Enlist(inst, reported).(trail := trail)
  {
  }

  lemma PerformedIsOk(svc: Service, durable: map<SessionId, Decision>, inst: Instance, e: Event)
    requires ReportsResolutions(svc) && InstanceOk(svc, durable, inst)
    ensures InstanceOk(svc, durable, Performed(svc, inst, e))
  {
    var o := Perform(svc, inst.memory, e.op);
    forall id | id in svc.warranted(o.state.queue)
      ensures
        var d := svc.warranted(o.state.queue)[id];
        if id in o.reported then o.reported[id] == d else Holds(svc.warranted(inst.memory.queue), id, d)
    {
      PerformReports(svc, inst.memory, e.op, id);
    }
    hide Perform, ReportsResolutions, InstanceOk;
    EnlistCovers(svc, durable, inst, o.state, o.reported);
    EnlistTrail(inst.(memory := o.state), inst.trail + [e], o.reported);
    SameDecisions(svc, durable, Enlist(inst.(memory := o.state), o.reported), Performed(svc, inst, e));
  }

  lemma SameDecisions(svc: Service, durable: map<SessionId, Decision>, inst: Instance, same: Instance)
    requires InstanceOk(svc, durable, inst)
    requires same.memory == inst.memory && same.pending == inst.pending
    requires same.nextTag == inst.nextTag && same.chain == inst.chain
    ensures InstanceOk(svc, durable, same)
  {
  }

  /** Taking over a snapshot queues every decision the snapshot warrants. */
  lemma InstalledIsOk(svc: Service, durable: map<SessionId, Decision>, inst: Instance, stored: Option<Stored>)
    requires InstanceOk(svc, durable, inst)
    ensures InstanceOk(svc, durable, Installed(svc, inst, stored))
  {
    if stored.Some? {
      var s := stored.value;
      EnlistCovers(svc, durable, inst, s.snapshot, svc.warranted(s.snapshot.queue));
      hide InstanceOk;
      SameDecisions(svc, durable, Enlist(inst.(memory := s.snapshot), svc.warranted(s.snapshot.queue)),
                    Installed(svc, inst, stored));
    }
  }

  lemma RequeuedIsOk(svc: Service, durable: map<SessionId, Decision>, inst: Instance)
    requires InstanceOk(svc, durable, inst)
    ensures InstanceOk(svc, durable, Enlist(inst, svc.warranted(inst.memory.queue)))
  {
    EnlistCovers(svc, durable, inst, inst.memory, svc.warranted(inst.memory.queue));
  }

  lemma PushedIsOk(svc: Service, durable: map<SessionId, Decision>, inst: Instance, f: nat, final: bool)
    requires InstanceOk(svc, durable, inst)
    ensures InstanceOk(svc, durable, inst.(chain := inst.chain + [Captured(inst, f, final)]))
  {
  }

  lemma PoppedIsOk(svc: Service, durable: map<SessionId, Decision>, inst: Instance)
    requires InstanceOk(svc, durable, inst) && inst.chain != []
    ensures InstanceOk(svc, durable, inst.(chain := inst.chain[1..]))
  {
  }

  /** Forgetting the written objects is safe, because their content is durable. */
  lemma AcknowledgedIsOk(svc: Service, durable: map<SessionId, Decision>, inst: Instance)
    requires InstanceOk(svc, durable, inst) && inst.chain != [] && inst.chain[0].committed
    ensures InstanceOk(svc, durable, Acknowledged(svc, inst))
  {
    assert CaptureOk(svc, durable, inst.nextTag, inst.chain[0]);
    PoppedIsOk(svc, durable, inst);
    hide CapturesOk;
  }

  lemma MarkedIsOk(svc: Service, durable: map<SessionId, Decision>, inst: Instance)
    requires InstanceOk(svc, durable, inst) && inst.chain != []
    requires var c := inst.chain[0]; forall id :: id in c.decisions ==> Holds(durable, id, c.decisions[id].decision)
    ensures InstanceOk(svc, durable, inst.(chain := inst.chain[0 := inst.chain[0].(committed := true)]))
  {
    var chain := inst.chain[0 := inst.chain[0].(committed := true)];
    forall k | 0 <= k < |chain| ensures CaptureOk(svc, durable, inst.nextTag, chain[k]) {
      assert CaptureOk(svc, durable, inst.nextTag, inst.chain[k]);
    }
  }

  // ---------------------------------------------------------------- every move

  lemma PutKeepsDecisions(svc: Service, w: World, w': World, i: nat, inst: Instance)
    requires NoneLost(svc, w) && Live(w, i) && InstanceOk(svc, w.store.decisions, inst)
    requires w'.instances == w.instances[i := Some(inst)] && w'.store.decisions == w.store.decisions
    requires w'.store.saved == w.store.saved || (w.store.saved.Some? && w'.store.saved.Some?
             && w'.store.saved.value.snapshot == w.store.saved.value.snapshot)
    ensures NoneLost(svc, w')
  {
    hide InstanceOk, AllDurable;
    forall j | Live(w', j) ensures InstanceOk(svc, w'.store.decisions, At(w', j)) {
      if j != i { assert Live(w, j); }
    }
  }

  lemma CommitKeepsDecisions(svc: Service, w: World, i: nat)
    requires NoneLost(svc, w) && Live(w, i) && At(w, i).chain != [] && Accepts(w.store, At(w, i).chain[0])
    ensures NoneLost(svc, Committed(svc, w, i))
  {
    var c := At(w, i).chain[0];
    var after := Written(w.store.decisions, c.decisions);
    var w' := Committed(svc, w, i);
    WrittenGrows(w.store.decisions, c.decisions);
    assert AllDurable(svc.warranted(c.snapshot.queue), after) by {
      assert InstanceOk(svc, w.store.decisions, At(w, i));
      assert CaptureOk(svc, w.store.decisions, At(w, i).nextTag, c);
    }
    hide Written, Conflicts, Grows, Covered, AllDurable, CapturesOk, TagsBelow;
    forall j | Live(w', j) ensures InstanceOk(svc, after, At(w', j)) {
      hide InstanceOk;
      assert Live(w, j);
      InstanceOkGrows(svc, w.store.decisions, after, At(w, j));
      if j == i { MarkedIsOk(svc, after, At(w, i)); }
    }
  }

  lemma BootCrashKeepDecisions(svc: Service, w: World, m: Move)
    requires StartsEmpty(svc) && NoneLost(svc, w) && Enabled(svc, w, m) && (m.Boot? || m.Crash?)
    ensures NoneLost(svc, Next(svc, w, m))
  {
    var w' := Next(svc, w, m);
    forall j: nat | Live(w', j) ensures InstanceOk(svc, w'.store.decisions, At(w', j)) {
      if j < |w.instances| { assert Live(w, j); }
    }
  }

  lemma LeaseKeepsDecisions(svc: Service, w: World, w': World)
    requires NoneLost(svc, w) && w'.instances == w.instances
    requires w'.store.decisions == w.store.decisions
    requires w'.store.saved == w.store.saved || (w.store.saved.Some? && w'.store.saved.Some?
             && w'.store.saved.value.snapshot == w.store.saved.value.snapshot)
    ensures NoneLost(svc, w')
  {
    hide InstanceOk, AllDurable;
    forall j | Live(w', j) ensures InstanceOk(svc, w'.store.decisions, At(w', j)) { assert Live(w, j); }
  }

  lemma RejectedKeepsDecisions(svc: Service, w: World, i: nat)
    requires NoneLost(svc, w) && Live(w, i) && At(w, i).chain != []
    ensures NoneLost(svc, Rejected(w, i))
  {
    var inst' := At(w, i).(chain := At(w, i).chain[1..]);
    PoppedIsOk(svc, w.store.decisions, At(w, i));
    hide InstanceOk, AllDurable;
    PutKeepsDecisions(svc, w, Rejected(w, i), i, inst');
  }

  lemma ProcessKeepsDecisions(svc: Service, w: World, m: Move)
    requires ReportsResolutions(svc) && NoneLost(svc, w) && Enabled(svc, w, m)
    requires m.Install? || m.Work? || m.Requeue? || m.Persist? || m.PersistFinal? || m.EarlyFinal? || m.Acknowledge?
    ensures NoneLost(svc, Next(svc, w, m))
  {
    var durable := w.store.decisions;
    hide InstanceOk, AllDurable, ReportsResolutions, Unchanged, NoneOf;
    match m
    case Install(f) =>
      InstalledIsOk(svc, durable, Of(w, f), w.leases[f].stage.stored);
      var installed := Installed(svc, Of(w, f), w.leases[f].stage.stored);
      PutKeepsDecisions(svc, w, Next(svc, w, m), w.leases[f].instance, installed);
    case Work(i, who, op) =>
      var e := Event(|w.issued|, who, op);
      PerformedIsOk(svc, durable, At(w, i), e);
      PutKeepsDecisions(svc, w, Next(svc, w, m), i, Performed(svc, At(w, i), e));
    case Requeue(i) =>
      RequeuedIsOk(svc, durable, At(w, i));
      PutKeepsDecisions(svc, w, Next(svc, w, m), i, Enlist(At(w, i), svc.warranted(At(w, i).memory.queue)));
    case Persist(f) =>
      PushedIsOk(svc, durable, Of(w, f), f, false);
      PutKeepsDecisions(svc, w, Next(svc, w, m), w.leases[f].instance,
                        Of(w, f).(chain := Of(w, f).chain + [Captured(Of(w, f), f, false)]));
    case PersistFinal(f) =>
      PushedIsOk(svc, durable, Of(w, f), f, true);
      PutKeepsDecisions(svc, w, Next(svc, w, m), w.leases[f].instance,
                        Of(w, f).(chain := Of(w, f).chain + [Captured(Of(w, f), f, true)]));
    case EarlyFinal(f) =>
      PushedIsOk(svc, durable, Of(w, f), f, true);
      PutKeepsDecisions(svc, w, Next(svc, w, m), w.leases[f].instance,
                        Of(w, f).(chain := Of(w, f).chain + [Captured(Of(w, f), f, true)]));
    case Acknowledge(i) =>
      AcknowledgedIsOk(svc, durable, At(w, i));
      PutKeepsDecisions(svc, w, Next(svc, w, m), i, Acknowledged(svc, At(w, i)));
  }

  lemma NextKeepsDecisions(svc: Service, w: World, m: Move)
    requires ReportsResolutions(svc) && StartsEmpty(svc) && NoneLost(svc, w) && Enabled(svc, w, m)
    ensures NoneLost(svc, Next(svc, w, m))
  {
    hide NoneLost, ReportsResolutions, StartsEmpty;
    match m
    case Boot => BootCrashKeepDecisions(svc, w, m);
    case Crash(i) => BootCrashKeepDecisions(svc, w, m);
    case Acquire(i) => LeaseKeepsDecisions(svc, w, Next(svc, w, m));
    case Load(f) => LeaseKeepsDecisions(svc, w, Next(svc, w, m));
    case ClearAccess(f) => LeaseKeepsDecisions(svc, w, Next(svc, w, m));
    case Skip(f) => LeaseKeepsDecisions(svc, w, Next(svc, w, m));
    case Transact(i) =>
      if Accepts(w.store, At(w, i).chain[0]) { CommitKeepsDecisions(svc, w, i); }
      else { RejectedKeepsDecisions(svc, w, i); }
    case RollBack(i) => RejectedKeepsDecisions(svc, w, i);
    case LoseReply(i) => RejectedKeepsDecisions(svc, w, i);
    case _ => ProcessKeepsDecisions(svc, w, m);
  }

  /** In every run, late replies included, no terminal decision is lost. */
  lemma {:induction false} RunLosesNone(svc: Service, moves: seq<Move>, worlds: seq<World>, k: nat)
    requires ReportsResolutions(svc) && StartsEmpty(svc) && IsRun(svc, moves, worlds) && k <= |moves|
    ensures NoneLost(svc, worlds[k])
    decreases k
  {
    if k == 0 {
      hide Next, Enabled;
    } else {
      hide NoneLost, Next, Enabled, ReportsResolutions, StartsEmpty;
      RunLosesNone(svc, moves, worlds, k - 1);
      assert worlds[k - 1 + 1] == Next(svc, worlds[k - 1], moves[k - 1]);
      NextKeepsDecisions(svc, worlds[k - 1], moves[k - 1]);
    }
  }

  // ---------------------------------------------------------------- leaving the pending map

  /**
   A pending decision leaves a live process only when a commit that captured that very object
   has made it durable; otherwise it can only be replaced by a newer decision for the session.
   */
  lemma PendingLeavesWhenDurable(svc: Service, w: World, m: Move, i: nat, id: SessionId)
    requires NoneLost(svc, w) && Enabled(svc, w, m) && Live(w, i) && id in At(w, i).pending
    requires Live(Next(svc, w, m), i)
    ensures
      var before, after := At(w, i).pending[id], At(Next(svc, w, m), i).pending;
      || (id in after && after[id] == before)
      || (id in after && after[id].tag > before.tag)
      || (m == Acknowledge(i) && At(w, i).chain[0].committed && Holds(At(w, i).chain[0].decisions, id, before)
          && Holds(w.store.decisions, id, before.decision))
  {
    assert InstanceOk(svc, w.store.decisions, At(w, i));
    if m == Acknowledge(i) {
      assert CaptureOk(svc, w.store.decisions, At(w, i).nextTag, At(w, i).chain[0]);
    }
    hide NoneLost, InstanceOk, CaptureOk, CapturesOk, Covered, Perform, Unchanged, NoneOf, Conflicts, Written;
  }

  /** The session has a pending decision at least as new as the tag, or a durable one. */
  ghost predicate Kept(w: World, i: nat, id: SessionId, tag: nat)
    requires Live(w, i)
  {
    (id in At(w, i).pending && At(w, i).pending[id].tag >= tag) || id in w.store.decisions
  }

  /** No move takes a row out of the outbox. */
  lemma NextGrows(svc: Service, w: World, m: Move)
    requires Enabled(svc, w, m)
    ensures Grows(w.store.decisions, Next(svc, w, m).store.decisions)
  {
    if m.Transact? && Accepts(w.store, At(w, m.i).chain[0]) {
      WrittenGrows(w.store.decisions, At(w, m.i).chain[0].decisions);
    } else {
      hide NoneOf, Unchanged, Perform, Acknowledged, Installed, Written, Conflicts;
    }
  }

  lemma NextKeepsPending(svc: Service, w: World, m: Move, i: nat, id: SessionId, tag: nat)
    requires NoneLost(svc, w) && Enabled(svc, w, m) && Live(w, i) && Live(Next(svc, w, m), i) && Kept(w, i, id, tag)
    ensures Kept(Next(svc, w, m), i, id, tag)
  {
    NextGrows(svc, w, m);
    if id in At(w, i).pending { PendingLeavesWhenDurable(svc, w, m, i, id); }
    hide Next, Enabled, NoneLost;
  }

  lemma RunStep(svc: Service, moves: seq<Move>, worlds: seq<World>, k: nat)
    requires IsRun(svc, moves, worlds) && k < |moves|
    ensures Enabled(svc, worlds[k], moves[k]) && worlds[k + 1] == Next(svc, worlds[k], moves[k])
  {
    hide Next, Enabled;
  }

  /**
   Over a whole run, while a process lives: whatever it has queued for a session stays pending there,
   in its own or a newer object, until a decision for the session is durable, and for good.
   */
  lemma {:induction false} PendingUntilDurable(svc: Service, moves: seq<Move>, worlds: seq<World>, k: nat, n: nat,
                                               i: nat, id: SessionId)
    requires ReportsResolutions(svc) && StartsEmpty(svc) && IsRun(svc, moves, worlds) && k <= n <= |moves|
    requires forall j :: k <= j <= n ==> Live(worlds[j], i)
    requires id in At(worlds[k], i).pending
    ensures Kept(worlds[n], i, id, At(worlds[k], i).pending[id].tag)
    decreases n
  {
    if k == n {
      hide Next, Enabled, IsRun, NoneLost, ReportsResolutions, StartsEmpty;
    } else {
      hide Next, Enabled, NoneLost, ReportsResolutions, StartsEmpty, Kept;
      assert Live(worlds[n - 1], i) && Live(worlds[n], i) && Live(worlds[k], i);
      RunStep(svc, moves, worlds, n - 1);
      hide IsRun;
      PendingUntilDurable(svc, moves, worlds, k, n - 1, i, id);
      RunLosesNone(svc, moves, worlds, n - 1);
      NextKeepsPending(svc, worlds[n - 1], moves[n - 1], i, id, At(worlds[k], i).pending[id].tag);
    }
  }

  /** A decision queued again while checkpoints are in flight is none of the objects they captured. */
  lemma RequeuedIsNew(svc: Service, w: World, i: nat, who: Option<nat>, op: Operation, id: SessionId, k: nat)
    requires NoneLost(svc, w) && Live(w, i) && k < |At(w, i).chain|
    requires id in Perform(svc, At(w, i).memory, op).reported
    ensures
      var after := At(Worked(svc, w, i, who, op), i);
      && id in after.pending && after.pending[id].decision == Perform(svc, At(w, i).memory, op).reported[id]
      && after.chain == At(w, i).chain
      && !Holds(after.chain[k].decisions, id, after.pending[id])
  {
    assert InstanceOk(svc, w.store.decisions, At(w, i));
    assert CaptureOk(svc, w.store.decisions, At(w, i).nextTag, At(w, i).chain[k]);
    hide NoneLost, CapturesOk, Covered, Perform;
  }
}
