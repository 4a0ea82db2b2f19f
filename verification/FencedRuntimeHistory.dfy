/**
 Every state any process holds, captures, loads or stores is the outcome of one sequential
 service performing operations that really happened, in the order in which they happened.
 This holds in every run, also when replies arrive too late.
 */
module FencedRuntimeHistory {
  import opened Wrappers
  import opened MatchmakingService
  import opened FencedRuntime

  /** The events were issued, and appear in the order of issue without repetition. */
  ghost predicate Ordered(issued: seq<Event>, trail: seq<Event>) {
    && (forall k :: 0 <= k < |trail| ==> trail[k].serial < |issued| && issued[trail[k].serial] == trail[k])
    && (forall j, k :: 0 <= j < k < |trail| ==> trail[j].serial < trail[k].serial)
  }

  ghost predicate Genuine(svc: Service, issued: seq<Event>, s: State, trail: seq<Event>) {
    s == Run(svc, trail) && Ordered(issued, trail)
  }

  ghost predicate GenuineStored(svc: Service, issued: seq<Event>, stored: Option<Stored>) {
    stored.Some? ==> Genuine(svc, issued, stored.value.snapshot, stored.value.log)
  }

  ghost predicate GenuineChain(svc: Service, issued: seq<Event>, chain: seq<Checkpoint>) {
    forall k :: 0 <= k < |chain| ==> Genuine(svc, issued, chain[k].snapshot, chain[k].trail)
  }

  ghost predicate GenuineInstance(svc: Service, issued: seq<Event>, inst: Instance) {
    Genuine(svc, issued, inst.memory, inst.trail) && GenuineChain(svc, issued, inst.chain)
  }

  ghost predicate GenuineInstances(svc: Service, w: World) {
    forall i :: Live(w, i) ==> GenuineInstance(svc, w.issued, At(w, i))
  }

  ghost predicate GenuineLoads(svc: Service, w: World) {
    forall f :: f in w.leases && w.leases[f].stage.Loaded? ==> GenuineStored(svc, w.issued, w.leases[f].stage.stored)
  }

  ghost predicate GenuineHistory(svc: Service, w: World) {
    forall k :: 0 <= k < |w.history| ==> GenuineStored(svc, w.issued, Some(w.history[k].saved))
  }

  ghost predicate Numbered(issued: seq<Event>) {
    forall k :: 0 <= k < |issued| ==> issued[k].serial == k
  }

  ghost predicate GenuineWorld(svc: Service, w: World) {
    && Numbered(w.issued) && GenuineStored(svc, w.issued, w.store.saved)
    && GenuineInstances(svc, w) && GenuineLoads(svc, w) && GenuineHistory(svc, w)
  }

  // ---------------------------------------------------------------- issuing an operation

  lemma OrderedGrows(issued: seq<Event>, e: Event, trail: seq<Event>)
    requires Ordered(issued, trail)
    ensures Ordered(issued + [e], trail)
  {
  }

  lemma StoredGrows(svc: Service, issued: seq<Event>, e: Event, stored: Option<Stored>)
    requires GenuineStored(svc, issued, stored)
    ensures GenuineStored(svc, issued + [e], stored)
  {
    hide Run, Ordered;
    if stored.Some? { OrderedGrows(issued, e, stored.value.log); }
  }

  lemma ChainGrows(svc: Service, issued: seq<Event>, e: Event, chain: seq<Checkpoint>)
    requires GenuineChain(svc, issued, chain)
    ensures GenuineChain(svc, issued + [e], chain)
  {
    hide Run, Ordered;
    forall k | 0 <= k < |chain| ensures Genuine(svc, issued + [e], chain[k].snapshot, chain[k].trail) {
      OrderedGrows(issued, e, chain[k].trail);
    }
  }

  lemma InstanceGrows(svc: Service, issued: seq<Event>, e: Event, inst: Instance)
    requires GenuineInstance(svc, issued, inst)
    ensures GenuineInstance(svc, issued + [e], inst)
  {
    hide Run, Ordered, GenuineChain;
    OrderedGrows(issued, e, inst.trail);
    ChainGrows(svc, issued, e, inst.chain);
  }

  lemma TrailExtends(issued: seq<Event>, trail: seq<Event>, e: Event)
    requires Ordered(issued, trail) && e.serial == |issued|
    ensures Ordered(issued + [e], trail + [e])
  {
    var longer := trail + [e];
    forall k | 0 <= k < |longer|
      ensures longer[k].serial < |issued| + 1 && (issued + [e])[longer[k].serial] == longer[k]
    {
      if k < |trail| { assert longer[k] == trail[k]; }
    }
  }

  lemma PerformedIsGenuine(svc: Service, issued: seq<Event>, inst: Instance, e: Event)
    requires GenuineInstance(svc, issued, inst) && e.serial == |issued|
    ensures GenuineInstance(svc, issued + [e], Performed(svc, inst, e))
  {
    hide Run, Ordered, GenuineChain, Perform;
    TrailExtends(issued, inst.trail, e);
    RunAppend(svc, inst.trail, e);
    ChainGrows(svc, issued, e, inst.chain);
  }

  lemma WorkedIsGenuine(svc: Service, w: World, i: nat, who: Option<nat>, op: Operation)
    requires GenuineWorld(svc, w) && Live(w, i)
    ensures GenuineWorld(svc, Worked(svc, w, i, who, op))
  {
    hide GenuineInstance, GenuineStored, Performed;
    var e := Event(|w.issued|, who, op);
    var w' := Worked(svc, w, i, who, op);
    PerformedIsGenuine(svc, w.issued, At(w, i), e);
    StoredGrows(svc, w.issued, e, w.store.saved);
    forall j | Live(w', j) ensures GenuineInstance(svc, w'.issued, At(w', j)) {
      if j != i { InstanceGrows(svc, w.issued, e, At(w, j)); }
    }
    forall f | f in w'.leases && w'.leases[f].stage.Loaded?
      ensures GenuineStored(svc, w'.issued, w'.leases[f].stage.stored)
    {
      StoredGrows(svc, w.issued, e, w.leases[f].stage.stored);
    }
    forall k | 0 <= k < |w'.history| ensures GenuineStored(svc, w'.issued, Some(w'.history[k].saved)) {
      StoredGrows(svc, w.issued, e, Some(w.history[k].saved));
    }
  }

  // ---------------------------------------------------------------- the other moves

  lemma PutIsGenuine(svc: Service, w: World, i: nat, inst: Instance)
    requires GenuineWorld(svc, w) && Live(w, i) && GenuineInstance(svc, w.issued, inst)
    ensures GenuineWorld(svc, Put(w, i, inst))
  {
    hide GenuineInstance, GenuineStored;
    forall j | Live(Put(w, i, inst), j) ensures GenuineInstance(svc, w.issued, At(Put(w, i, inst), j)) {
      if j != i { assert Live(w, j); }
    }
  }

  lemma SetLeaseIsGenuine(svc: Service, w: World, f: nat, stage: Stage, failed: bool)
    requires GenuineWorld(svc, w) && f in w.leases
    requires stage.Loaded? ==> GenuineStored(svc, w.issued, stage.stored)
    ensures GenuineWorld(svc, SetLease(w, f, stage, failed))
  {
    hide GenuineInstance, GenuineStored;
    var w' := SetLease(w, f, stage, failed);
    forall j | Live(w', j) ensures GenuineInstance(svc, w.issued, At(w', j)) { assert Live(w, j); }
  }

  lemma SettleIsGenuine(svc: Service, w: World, i: nat, inst: Instance, failed: bool)
    requires GenuineWorld(svc, w) && Live(w, i) && At(w, i).chain != []
    requires inst.memory == At(w, i).memory && inst.trail == At(w, i).trail && inst.chain == At(w, i).chain[1..]
    ensures GenuineWorld(svc, Settle(w, i, inst, failed))
  {
    var c := At(w, i).chain[0];
    assert GenuineInstance(svc, w.issued, inst) by { hide Genuine; }
    PutIsGenuine(svc, w, i, inst);
    hide GenuineWorld, GenuineInstance, SetLease, Put;
    if c.fence in w.leases {
      var stage := EndedStage(w.leases[c.fence].stage, c.final);
      if stage.Loaded? { LoadIsGenuine(svc, w, c.fence); }
      PutKeeps(w, i, inst);
      SetLeaseIsGenuine(svc, Put(w, i, inst), c.fence, stage, failed || w.leases[c.fence].failed);
    }
  }

  lemma PutKeeps(w: World, i: nat, inst: Instance)
    requires Live(w, i)
    ensures Put(w, i, inst).leases == w.leases && Put(w, i, inst).issued == w.issued
  {
  }

  lemma LoadIsGenuine(svc: Service, w: World, f: nat)
    requires GenuineWorld(svc, w) && f in w.leases && w.leases[f].stage.Loaded?
    ensures GenuineStored(svc, w.issued, w.leases[f].stage.stored)
  {
    hide GenuineStored;
  }

  lemma CommittedIsGenuine(svc: Service, w: World, i: nat)
    requires GenuineWorld(svc, w) && Live(w, i) && At(w, i).chain != []
    ensures GenuineWorld(svc, Committed(svc, w, i))
  {
    var inst := At(w, i);
    var c := inst.chain[0];
    var inst' := inst.(chain := inst.chain[0 := c.(committed := true)]);
    assert GenuineInstance(svc, w.issued, inst') && Genuine(svc, w.issued, c.snapshot, c.trail) by { hide Genuine; }
    PutIsGenuine(svc, w, i, inst');
    var w1 := Put(w, i, inst');
    var w' := Committed(svc, w, i);
    hide Genuine, GenuineInstance;
    assert w'.instances == w1.instances;
    forall j | Live(w', j) ensures GenuineInstance(svc, w.issued, At(w', j)) { assert Live(w1, j); }
  }

  lemma InstallIsGenuine(svc: Service, w: World, f: nat)
    requires GenuineWorld(svc, w) && Enabled(svc, w, Install(f))
    ensures GenuineWorld(svc, Next(svc, w, Install(f)))
  {
    var i, stored := w.leases[f].instance, w.leases[f].stage.stored;
    var inst' := Installed(svc, Of(w, f), stored);
    LoadIsGenuine(svc, w, f);
    assert GenuineInstance(svc, w.issued, inst') by { hide Genuine; }
    PutIsGenuine(svc, w, i, inst');
    SetLeaseIsGenuine(svc, Put(w, i, inst'), f, Ready, w.leases[f].failed);
  }

  lemma PushedIsGenuine(svc: Service, w: World, f: nat, final: bool)
    requires GenuineWorld(svc, w) && HasLease(w, f)
    ensures GenuineWorld(svc, Pushed(w, f, final))
  {
    var inst := Of(w, f);
    var inst' := inst.(chain := inst.chain + [Captured(inst, f, final)]);
    assert GenuineInstance(svc, w.issued, inst') by { hide Genuine; }
    PutIsGenuine(svc, w, w.leases[f].instance, inst');
  }

  lemma SkippedIsGenuine(svc: Service, w: World, f: nat)
    requires GenuineWorld(svc, w) && HasLease(w, f)
    ensures GenuineWorld(svc, Skipped(w, f))
  {
    var w1 := SetLease(w, f, Done, w.leases[f].failed);
    SetLeaseIsGenuine(svc, w, f, Done, w.leases[f].failed);
    var w' := Skipped(w, f);
    assert GenuineStored(svc, w.issued, w'.store.saved) by { hide Genuine; }
    hide Genuine, GenuineInstance;
    forall j | Live(w', j) ensures GenuineInstance(svc, w.issued, At(w', j)) { assert Live(w1, j); }
  }

  lemma InstancesIsGenuine(svc: Service, w: World, instances: seq<Option<Instance>>)
    requires GenuineWorld(svc, w)
    requires forall i :: 0 <= i < |instances| && instances[i].Some? ==>
      instances[i].value == Fresh(svc) || (i < |w.instances| && instances[i] == w.instances[i])
    ensures GenuineWorld(svc, w.(instances := instances))
  {
    var w' := w.(instances := instances);
    forall i | Live(w', i) ensures GenuineInstance(svc, w.issued, At(w', i)) {
      if At(w', i) != Fresh(svc) { assert Live(w, i); }
    }
  }

  lemma AcquireIsGenuine(svc: Service, w: World, i: nat)
    requires GenuineWorld(svc, w) && Live(w, i)
    ensures GenuineWorld(svc, Next(svc, w, Acquire(i)))
  {
    hide GenuineInstance, Genuine;
    var w' := Next(svc, w, Acquire(i));
    forall j | Live(w', j) ensures GenuineInstance(svc, w.issued, At(w', j)) { assert Live(w, j); }
  }

  lemma ClearIsGenuine(svc: Service, w: World, f: nat)
    requires GenuineWorld(svc, w) && Enabled(svc, w, ClearAccess(f))
    ensures GenuineWorld(svc, Next(svc, w, ClearAccess(f)))
  {
    hide GenuineInstance, Genuine;
    var w' := Next(svc, w, ClearAccess(f));
    forall j | Live(w', j) ensures GenuineInstance(svc, w.issued, At(w', j)) { assert Live(w, j); }
  }

  lemma RequeueIsGenuine(svc: Service, w: World, i: nat)
    requires GenuineWorld(svc, w) && Live(w, i)
    ensures GenuineWorld(svc, Next(svc, w, Requeue(i)))
  {
    var inst' := Enlist(At(w, i), svc.warranted(At(w, i).memory.queue));
    assert GenuineInstance(svc, w.issued, inst') by { hide Genuine; }
    PutIsGenuine(svc, w, i, inst');
  }

  lemma NextIsGenuine(svc: Service, w: World, m: Move)
    requires GenuineWorld(svc, w) && Enabled(svc, w, m)
    ensures GenuineWorld(svc, Next(svc, w, m))
  {
    hide GenuineWorld, Worked, Pushed, Skipped, Committed, Unchanged, NoneOf, Conflicts;
    match m
    case Boot => InstancesIsGenuine(svc, w, w.instances + [Some(Fresh(svc))]);
    case Crash(i) => InstancesIsGenuine(svc, w, w.instances[i := None]);
    case Acquire(i) => AcquireIsGenuine(svc, w, i);
    case Load(f) => LoadedIsGenuine(svc, w, f);
    case ClearAccess(f) => ClearIsGenuine(svc, w, f);
    case Install(f) => InstallIsGenuine(svc, w, f);
    case Work(i, who, op) => WorkedIsGenuine(svc, w, i, who, op);
    case Requeue(i) => RequeueIsGenuine(svc, w, i);
    case Persist(f) => PushedIsGenuine(svc, w, f, false);
    case PersistFinal(f) => FinalIsGenuine(svc, w, f);
    case EarlyFinal(f) => PushedIsGenuine(svc, w, f, true);
    case Skip(f) => SkippedIsGenuine(svc, w, f);
    case Transact(i) => TransactIsGenuine(svc, w, i);
    case RollBack(i) => RejectedIsGenuine(svc, w, i);
    case Acknowledge(i) => SettleIsGenuine(svc, w, i, Acknowledged(svc, At(w, i)), false);
    case LoseReply(i) => RejectedIsGenuine(svc, w, i);
  }

  lemma LoadedIsGenuine(svc: Service, w: World, f: nat)
    requires GenuineWorld(svc, w) && f in w.leases
    ensures GenuineWorld(svc, SetLease(w, f, Loaded(w.store.saved), w.leases[f].failed))
  {
    hide GenuineStored, GenuineInstances, GenuineLoads, GenuineHistory;
    SetLeaseIsGenuine(svc, w, f, Loaded(w.store.saved), w.leases[f].failed);
  }

  lemma FinalIsGenuine(svc: Service, w: World, f: nat)
    requires GenuineWorld(svc, w) && HasLease(w, f)
    ensures GenuineWorld(svc, SetLease(Pushed(w, f, true), f, Finalizing, w.leases[f].failed))
  {
    hide GenuineWorld;
    PushedIsGenuine(svc, w, f, true);
    SetLeaseIsGenuine(svc, Pushed(w, f, true), f, Finalizing, w.leases[f].failed);
  }

  lemma RejectedIsGenuine(svc: Service, w: World, i: nat)
    requires GenuineWorld(svc, w) && Live(w, i) && At(w, i).chain != []
    ensures GenuineWorld(svc, Rejected(w, i))
  {
    hide GenuineWorld;
    SettleIsGenuine(svc, w, i, At(w, i).(chain := At(w, i).chain[1..]), true);
  }

  lemma TransactIsGenuine(svc: Service, w: World, i: nat)
    requires GenuineWorld(svc, w) && Live(w, i) && At(w, i).chain != []
    ensures GenuineWorld(svc, if Accepts(w.store, At(w, i).chain[0]) then Committed(svc, w, i) else Rejected(w, i))
  {
    hide GenuineWorld, Committed, Rejected, Accepts;
    CommittedIsGenuine(svc, w, i);
    RejectedIsGenuine(svc, w, i);
  }

  /** In every run, stored and cached states are outcomes of the operations performed. */
  lemma {:induction false} RunIsGenuine(svc: Service, moves: seq<Move>, worlds: seq<World>, k: nat)
    requires IsRun(svc, moves, worlds) && k <= |moves|
    ensures GenuineWorld(svc, worlds[k])
    decreases k
  {
    if k == 0 {
      hide Next, Enabled;
    } else {
      hide GenuineWorld, Next, Enabled;
      RunIsGenuine(svc, moves, worlds, k - 1);
      assert worlds[k - 1 + 1] == Next(svc, worlds[k - 1], moves[k - 1]);
      NextIsGenuine(svc, worlds[k - 1], moves[k - 1]);
    }
  }

  /** A drained service has no queued ticket, in storage and in every process. */
  lemma DrainedEverywhere(svc: Service, w: World)
    requires QueuesOnlyOnJoin(svc) && StartsEmpty(svc) && GenuineWorld(svc, w)
    ensures w.store.saved.Some? ==> Drained(svc, w.store.saved.value.snapshot)
    ensures forall i :: Live(w, i) ==> Drained(svc, At(w, i).memory)
    ensures forall k :: 0 <= k < |w.history| ==> Drained(svc, w.history[k].saved.snapshot)
  {
    hide Ordered, Drained, QueuesOnlyOnJoin, StartsEmpty;
    if w.store.saved.Some? { RunDrained(svc, w.store.saved.value.log); }
    forall i | Live(w, i) ensures Drained(svc, At(w, i).memory) {
      assert GenuineInstance(svc, w.issued, At(w, i));
      RunDrained(svc, At(w, i).trail);
    }
    forall k | 0 <= k < |w.history| ensures Drained(svc, w.history[k].saved.snapshot) {
      assert GenuineStored(svc, w.issued, Some(w.history[k].saved));
      RunDrained(svc, w.history[k].saved.log);
    }
  }
}
