/**
 Nothing is in the outbox without a reason: in every run, each decision that is stored, pending or
 captured was reported by an operation that was performed, or is warranted by a state that came about.
 */
module FencedRuntimeOutbox {
  import opened Wrappers
  import opened MatchmakingService
  import opened FencedRuntime
  import opened FencedRuntimeHistory

  /** What the last of these operations reported. */
  function ReportedLast(svc: Service, trail: seq<Event>): map<SessionId, Decision> {
    if trail == [] then map[]
    else Perform(svc, Run(svc, trail[..|trail| - 1]), trail[|trail| - 1].op).reported
  }

  /** These operations, issued in this order, are the reason for the decision. */
  ghost predicate Reason(svc: Service, issued: seq<Event>, trail: seq<Event>, id: SessionId, d: Decision) {
    && Ordered(issued, trail)
    && (Holds(svc.warranted(Run(svc, trail).queue), id, d) || Holds(ReportedLast(svc, trail), id, d))
  }

  ghost predicate Founded(svc: Service, issued: seq<Event>, id: SessionId, d: Decision) {
    exists trail :: Reason(svc, issued, trail, id, d)
  }

  ghost predicate AllFounded(svc: Service, issued: seq<Event>, decisions: map<SessionId, Decision>) {
    forall id :: id in decisions ==> Founded(svc, issued, id, decisions[id])
  }

  ghost predicate QueueFounded(svc: Service, issued: seq<Event>, queued: map<SessionId, Tagged>) {
    forall id :: id in queued ==> Founded(svc, issued, id, queued[id].decision)
  }

  ghost predicate InstanceFounded(svc: Service, issued: seq<Event>, inst: Instance) {
    && QueueFounded(svc, issued, inst.pending)
    && forall k :: 0 <= k < |inst.chain| ==> QueueFounded(svc, issued, inst.chain[k].decisions)
  }

  ghost predicate WorldFounded(svc: Service, w: World) {
    && AllFounded(svc, w.issued, w.store.decisions)
    && forall i :: Live(w, i) ==> InstanceFounded(svc, w.issued, At(w, i))
  }

  // ---------------------------------------------------------------- more operations are issued

  lemma FoundedGrows(svc: Service, issued: seq<Event>, e: Event, id: SessionId, d: Decision)
    requires Founded(svc, issued, id, d)
    ensures Founded(svc, issued + [e], id, d)
  {
    hide Run, ReportedLast, Ordered;
    var trail :| Reason(svc, issued, trail, id, d);
    OrderedGrows(issued, e, trail);
    assert Reason(svc, issued + [e], trail, id, d);
  }

  lemma QueueGrows(svc: Service, issued: seq<Event>, e: Event, queued: map<SessionId, Tagged>)
    requires QueueFounded(svc, issued, queued)
    ensures QueueFounded(svc, issued + [e], queued)
  {
    hide Founded;
    forall id | id in queued ensures Founded(svc, issued + [e], id, queued[id].decision) {
      FoundedGrows(svc, issued, e, id, queued[id].decision);
    }
  }

  lemma InstanceGrowsFounded(svc: Service, issued: seq<Event>, e: Event, inst: Instance)
    requires InstanceFounded(svc, issued, inst)
    ensures InstanceFounded(svc, issued + [e], inst)
  {
    hide QueueFounded;
    QueueGrows(svc, issued, e, inst.pending);
    forall k | 0 <= k < |inst.chain| ensures QueueFounded(svc, issued + [e], inst.chain[k].decisions) {
      QueueGrows(svc, issued, e, inst.chain[k].decisions);
    }
  }

  lemma StoreGrowsFounded(svc: Service, issued: seq<Event>, e: Event, decisions: map<SessionId, Decision>)
    requires AllFounded(svc, issued, decisions)
    ensures AllFounded(svc, issued + [e], decisions)
  {
    hide Founded;
    forall id | id in decisions ensures Founded(svc, issued + [e], id, decisions[id]) {
      FoundedGrows(svc, issued, e, id, decisions[id]);
    }
  }

  // ---------------------------------------------------------------- queueing

  lemma EnlistFounded(svc: Service, issued: seq<Event>, inst: Instance, reported: map<SessionId, Decision>)
    requires InstanceFounded(svc, issued, inst) && AllFounded(svc, issued, reported)
    ensures InstanceFounded(svc, issued, Enlist(inst, reported))
  {
    hide Founded;
  }

  /** What a genuine state warrants is founded. */
  lemma WarrantedFounded(svc: Service, issued: seq<Event>, s: State, trail: seq<Event>)
    requires Genuine(svc, issued, s, trail)
    ensures AllFounded(svc, issued, svc.warranted(s.queue))
  {
    hide Run, ReportedLast, Ordered;
    forall id | id in svc.warranted(s.queue) ensures Founded(svc, issued, id, svc.warranted(s.queue)[id]) {
      assert Reason(svc, issued, trail, id, svc.warranted(s.queue)[id]);
    }
  }

  /** What an operation reports is founded. */
  lemma ReportedFounded(svc: Service, issued: seq<Event>, s: State, trail: seq<Event>, e: Event)
    requires Genuine(svc, issued, s, trail) && e.serial == |issued|
    ensures AllFounded(svc, issued + [e], Perform(svc, s, e.op).reported)
  {
    TrailExtends(issued, trail, e);
    assert (trail + [e])[..|trail|] == trail;
    var reported := Perform(svc, s, e.op).reported;
    assert ReportedLast(svc, trail + [e]) == reported;
    hide Run, ReportedLast, Ordered, Perform;
    forall id | id in reported ensures Founded(svc, issued + [e], id, reported[id]) {
      assert Reason(svc, issued + [e], trail + [e], id, reported[id]);
    }
  }

  lemma PerformedFounded(svc: Service, issued: seq<Event>, inst: Instance, e: Event)
    requires InstanceFounded(svc, issued, inst) && GenuineInstance(svc, issued, inst) && e.serial == |issued|
    ensures InstanceFounded(svc, issued + [e], Performed(svc, inst, e))
  {
    ReportedFounded(svc, issued, inst.memory, inst.trail, e);
    InstanceGrowsFounded(svc, issued, e, inst);
    hide Perform, QueueFounded, AllFounded, Genuine, GenuineChain;
    var o := Perform(svc, inst.memory, e.op);
    assert InstanceFounded(svc, issued + [e], inst.(memory := o.state, trail := inst.trail + [e]));
    hide InstanceFounded;
    EnlistFounded(svc, issued + [e], inst.(memory := o.state, trail := inst.trail + [e]), o.reported);
  }

  lemma InstalledFounded(svc: Service, issued: seq<Event>, inst: Instance, stored: Option<Stored>)
    requires InstanceFounded(svc, issued, inst) && GenuineStored(svc, issued, stored)
    ensures InstanceFounded(svc, issued, Installed(svc, inst, stored))
  {
    hide QueueFounded, AllFounded, Genuine;
    if stored.Some? {
      var s := stored.value;
      WarrantedFounded(svc, issued, s.snapshot, s.log);
      var loaded :=
        inst.(memory := s.snapshot, trail := s.log, lastFingerprint := Some(svc.fingerprint(s.snapshot)));
      EnlistFounded(svc, issued, loaded, svc.warranted(s.snapshot.queue));
    }
  }

  lemma PushedFounded(svc: Service, issued: seq<Event>, inst: Instance, f: nat, final: bool)
    requires InstanceFounded(svc, issued, inst)
    ensures InstanceFounded(svc, issued, inst.(chain := inst.chain + [Captured(inst, f, final)]))
  {
    hide QueueFounded;
  }

  lemma AcknowledgedFounded(svc: Service, issued: seq<Event>, inst: Instance)
    requires InstanceFounded(svc, issued, inst) && inst.chain != []
    ensures InstanceFounded(svc, issued, Acknowledged(svc, inst))
    ensures InstanceFounded(svc, issued, inst.(chain := inst.chain[1..]))
    ensures InstanceFounded(svc, issued, inst.(chain := inst.chain[0 := inst.chain[0].(committed := true)]))
  {
    hide Founded;
    assert forall k :: 0 <= k < |inst.chain| - 1 ==> inst.chain[1..][k] == inst.chain[k + 1];
  }

  // ---------------------------------------------------------------- moves

  /** One process changes and nothing is issued or stored. */
  lemma PutFounded(svc: Service, w: World, w': World, i: nat, inst: Instance)
    requires WorldFounded(svc, w) && Live(w, i) && InstanceFounded(svc, w.issued, inst)
    requires w'.instances == w.instances[i := Some(inst)] && w'.issued == w.issued
    requires w'.store.decisions == w.store.decisions
    ensures WorldFounded(svc, w')
  {
    hide InstanceFounded, AllFounded;
    forall j | Live(w', j) ensures InstanceFounded(svc, w'.issued, At(w', j)) {
      if j != i { assert Live(w, j) && At(w', j) == At(w, j); }
    }
  }

  lemma CommittedFounded(svc: Service, w: World, i: nat)
    requires WorldFounded(svc, w) && Enabled(svc, w, Transact(i))
    ensures WorldFounded(svc, Committed(svc, w, i))
  {
    var c := At(w, i).chain[0];
    assert QueueFounded(svc, w.issued, c.decisions) && AllFounded(svc, w.issued, w.store.decisions);
    AcknowledgedFounded(svc, w.issued, At(w, i));
    assert AllFounded(svc, w.issued, Written(w.store.decisions, c.decisions)) by { hide Founded, InstanceFounded; }
    hide InstanceFounded, AllFounded, Written;
    var w' := Committed(svc, w, i);
    forall j | Live(w', j) ensures InstanceFounded(svc, w'.issued, At(w', j)) {
      if j != i { assert Live(w, j) && At(w', j) == At(w, j); }
    }
  }

  lemma WorkedFounded(svc: Service, w: World, i: nat, who: Option<nat>, op: Operation)
    requires WorldFounded(svc, w) && GenuineWorld(svc, w) && Live(w, i)
    ensures WorldFounded(svc, Worked(svc, w, i, who, op))
  {
    hide InstanceFounded, AllFounded, GenuineInstance, GenuineStored, Performed;
    var e := Event(|w.issued|, who, op);
    var w' := Worked(svc, w, i, who, op);
    PerformedFounded(svc, w.issued, At(w, i), e);
    StoreGrowsFounded(svc, w.issued, e, w.store.decisions);
    forall j | Live(w', j) ensures InstanceFounded(svc, w'.issued, At(w', j)) {
      if j != i {
        assert Live(w, j) && At(w', j) == At(w, j);
        InstanceGrowsFounded(svc, w.issued, e, At(w, j));
      }
    }
  }

  /** Moves that leave every live process as it is, or bring up a fresh one. */
  lemma QuietFounded(svc: Service, w: World, m: Move)
    requires WorldFounded(svc, w) && Enabled(svc, w, m)
    requires m.Boot? || m.Crash? || m.Acquire? || m.Load? || m.ClearAccess? || m.Skip?
    ensures WorldFounded(svc, Next(svc, w, m))
  {
    hide AllFounded, Unchanged, NoneOf;
    var w' := Next(svc, w, m);
    assert w'.store.decisions == w.store.decisions && w'.issued == w.issued;
    forall j | Live(w', j) ensures InstanceFounded(svc, w'.issued, At(w', j)) {
      if At(w', j) != Fresh(svc) { assert Live(w, j) && At(w', j) == At(w, j); }
    }
  }

  lemma SettledFounded(svc: Service, w: World, i: nat, inst: Instance, failed: bool)
    requires WorldFounded(svc, w) && Live(w, i) && At(w, i).chain != [] && InstanceFounded(svc, w.issued, inst)
    ensures WorldFounded(svc, Settle(w, i, inst, failed))
  {
    hide WorldFounded, InstanceFounded;
    PutFounded(svc, w, Settle(w, i, inst, failed), i, inst);
  }

  lemma PersistFounded(svc: Service, w: World, w': World, f: nat, final: bool)
    requires WorldFounded(svc, w) && HasLease(w, f)
    requires w'.instances == Pushed(w, f, final).instances && w'.issued == w.issued && w'.store == w.store
    ensures WorldFounded(svc, w')
  {
    PushedFounded(svc, w.issued, Of(w, f), f, final);
    hide WorldFounded, InstanceFounded, Captured;
    PutFounded(svc, w, w', w.leases[f].instance,
               Of(w, f).(chain := Of(w, f).chain + [Captured(Of(w, f), f, final)]));
  }

  lemma ProcessFounded(svc: Service, w: World, m: Move)
    requires WorldFounded(svc, w) && GenuineWorld(svc, w) && Enabled(svc, w, m)
    requires m.Install? || m.Requeue? || m.Persist? || m.PersistFinal? || m.EarlyFinal?
    ensures WorldFounded(svc, Next(svc, w, m))
  {
    hide AllFounded, InstanceFounded, GenuineStored, Genuine, GenuineChain, Unchanged, NoneOf, Installed, Enlist,
         Captured;
    match m
    case Install(f) =>
      LoadIsGenuine(svc, w, f);
      var installed := Installed(svc, Of(w, f), w.leases[f].stage.stored);
      InstalledFounded(svc, w.issued, Of(w, f), w.leases[f].stage.stored);
      PutFounded(svc, w, Next(svc, w, m), w.leases[f].instance, installed);
    case Requeue(i) =>
      assert GenuineInstance(svc, w.issued, At(w, i));
      WarrantedFounded(svc, w.issued, At(w, i).memory, At(w, i).trail);
      EnlistFounded(svc, w.issued, At(w, i), svc.warranted(At(w, i).memory.queue));
      PutFounded(svc, w, Next(svc, w, m), i, Enlist(At(w, i), svc.warranted(At(w, i).memory.queue)));
    case Persist(f) => PersistFounded(svc, w, Next(svc, w, m), f, false);
    case PersistFinal(f) => PersistFounded(svc, w, Next(svc, w, m), f, true);
    case EarlyFinal(f) => PersistFounded(svc, w, Next(svc, w, m), f, true);
  }

  lemma NextFounded(svc: Service, w: World, m: Move)
    requires WorldFounded(svc, w) && GenuineWorld(svc, w) && Enabled(svc, w, m)
    ensures WorldFounded(svc, Next(svc, w, m))
  {
    if m.Transact? || m.RollBack? || m.Acknowledge? || m.LoseReply? {
      assert InstanceFounded(svc, w.issued, At(w, m.i));
      AcknowledgedFounded(svc, w.issued, At(w, m.i));
    }
    hide WorldFounded, GenuineWorld, InstanceFounded, Acknowledged, Settle, Committed, Worked;
    match m
    case Work(i, who, op) => WorkedFounded(svc, w, i, who, op);
    case Transact(i) =>
      CommittedFounded(svc, w, i);
      SettledFounded(svc, w, i, At(w, i).(chain := At(w, i).chain[1..]), true);
    case RollBack(i) => SettledFounded(svc, w, i, At(w, i).(chain := At(w, i).chain[1..]), true);
    case LoseReply(i) => SettledFounded(svc, w, i, At(w, i).(chain := At(w, i).chain[1..]), true);
    case Acknowledge(i) => SettledFounded(svc, w, i, Acknowledged(svc, At(w, i)), false);
    case Install(_) => ProcessFounded(svc, w, m);
    case Requeue(_) => ProcessFounded(svc, w, m);
    case Persist(_) => ProcessFounded(svc, w, m);
    case PersistFinal(_) => ProcessFounded(svc, w, m);
    case EarlyFinal(_) => ProcessFounded(svc, w, m);
    case _ => QuietFounded(svc, w, m);
  }

  /** In every run, late replies and early finalisers included, every queued or stored decision has a reason. */
  lemma {:induction false} RunIsFounded(svc: Service, moves: seq<Move>, worlds: seq<World>, k: nat)
    requires IsRun(svc, moves, worlds) && k <= |moves|
    ensures WorldFounded(svc, worlds[k])
    decreases k
  {
    if k == 0 {
      hide Next, Enabled;
    } else {
      hide WorldFounded, GenuineWorld, Next, Enabled;
      RunIsFounded(svc, moves, worlds, k - 1);
      RunIsGenuine(svc, moves, worlds, k - 1);
      assert worlds[k - 1 + 1] == Next(svc, worlds[k - 1], moves[k - 1]);
      NextFounded(svc, worlds[k - 1], moves[k - 1]);
    }
  }
}
