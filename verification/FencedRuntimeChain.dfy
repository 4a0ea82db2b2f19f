/**
 Fencing: while superseded leases neither install nor end without writing, and finalisers wait for
 the refresh, the committed snapshots form one chain. Each commit extends the operations of the
 commit before it, whichever process makes it, so the cached instances together refine one
 sequential service.
 */
module FencedRuntimeChain {
  import opened Wrappers
  import opened MatchmakingService
  import opened FencedRuntime

  function LogOf(store: Store): seq<Event> {
    if store.saved.None? then [] else store.saved.value.log
  }

  /** The lease has read the store into its process. */
  predicate Started(stage: Stage) { stage.Ready? || stage.Finalizing? || stage.Done? }

  /** Every lease carries an issued token and belongs to a process that was booted. */
  ghost predicate LeasesKnown(w: World) {
    forall f :: f in w.leases ==> 0 < f <= w.store.fence && w.leases[f].instance < |w.instances|
  }

  /** A queued checkpoint belongs to a started lease of its process; only the head may be committed. */
  ghost predicate LinkOk(leases: map<nat, Lease>, i: nat, c: Checkpoint, head: bool) {
    && c.fence in leases && leases[c.fence].instance == i && Started(leases[c.fence].stage)
    && (c.final ==> !leases[c.fence].stage.Ready?)
    && (c.committed ==> head)
  }

  ghost predicate ChainOk(leases: map<nat, Lease>, i: nat, chain: seq<Checkpoint>) {
    forall k :: 0 <= k < |chain| ==> LinkOk(leases, i, chain[k], k == 0)
  }

  ghost predicate ChainsOk(w: World) {
    forall i :: Live(w, i) ==> ChainOk(w.leases, i, At(w, i).chain)
  }

  /** The checkpoint still waits and carries this token. */
  predicate Waits(c: Checkpoint, f: nat) { c.fence == f && !c.committed }

  /** Memory and waiting checkpoints of the newest lease extend the stored operations, in order. */
  ghost predicate Tethered(log: seq<Event>, inst: Instance, f: nat) {
    && log <= inst.trail
    && (forall k :: 0 <= k < |inst.chain| && Waits(inst.chain[k], f) ==>
          log <= inst.chain[k].trail <= inst.trail)
    && (forall j, k :: 0 <= j < k < |inst.chain| && Waits(inst.chain[j], f) && Waits(inst.chain[k], f) ==>
          inst.chain[j].trail <= inst.chain[k].trail)
  }

  /** The newest lease has loaded the stored snapshot, and works on top of it. */
  ghost predicate NewestOk(w: World) {
    var f := w.store.fence;
    HasLease(w, f) ==>
      && (w.leases[f].stage.Loaded? ==> w.leases[f].stage.stored == w.store.saved)
      && (Started(w.leases[f].stage) ==> Tethered(LogOf(w.store), Of(w, f), f))
  }

  /** A committed checkpoint of the newest lease is what the store holds. */
  ghost predicate HeadOk(store: Store, chain: seq<Checkpoint>) {
    chain != [] && chain[0].committed && chain[0].fence == store.fence ==>
      store.saved == Some(Stored(chain[0].snapshot, chain[0].trail))
  }

  ghost predicate HeadsOk(w: World) {
    forall i :: Live(w, i) ==> HeadOk(w.store, At(w, i).chain)
  }

  /** The commits so far form one chain that ends in the stored snapshot. */
  ghost predicate HistoryOk(w: World) {
    var n := |w.history|;
    && (n == 0 <==> w.store.saved.None?)
    && (n > 0 ==> w.history[n - 1].saved.snapshot == w.store.saved.value.snapshot)
    && (forall k :: 0 <= k < n ==> w.history[k].saved.log <= LogOf(w.store) && w.history[k].fence <= w.store.fence)
    && (forall j, k :: 0 <= j < k < n ==>
          w.history[j].saved.log <= w.history[k].saved.log && w.history[j].fence <= w.history[k].fence)
  }

  ghost predicate Chained(w: World) {
    LeasesKnown(w) && ChainsOk(w) && NewestOk(w) && HeadsOk(w) && HistoryOk(w)
  }

  // ---------------------------------------------------------------- changing one process

  /** What a change of one process must respect, given that store and leases stay the same. */
  ghost predicate Fits(w: World, i: nat, inst: Instance) {
    && ChainOk(w.leases, i, inst.chain) && HeadOk(w.store, inst.chain)
    && (HasLease(w, w.store.fence) && w.leases[w.store.fence].instance == i && Started(w.leases[w.store.fence].stage)
        ==> Tethered(LogOf(w.store), inst, w.store.fence))
  }

  lemma PutKeepsChain(w: World, i: nat, inst: Instance)
    requires Chained(w) && Live(w, i) && Fits(w, i, inst)
    ensures Chained(Put(w, i, inst))
  {
    hide Tethered, ChainOk, HeadOk;
    var w' := Put(w, i, inst);
    forall j | Live(w', j) ensures ChainOk(w'.leases, j, At(w', j).chain) && HeadOk(w'.store, At(w', j).chain) {
      assert Live(w, j);
    }
  }

  lemma FitsNow(w: World, i: nat)
    requires Chained(w) && Live(w, i)
    ensures Fits(w, i, At(w, i))
  {
    hide Tethered, ChainOk, HeadOk;
  }

  /** Working and requeueing only lengthen the trail. */
  lemma LongerTrailFits(w: World, i: nat, inst: Instance)
    requires Chained(w) && Live(w, i)
    requires inst.chain == At(w, i).chain && At(w, i).trail <= inst.trail
    ensures Fits(w, i, inst)
  {
    FitsNow(w, i);
    hide Chained, ChainOk, HeadOk;
  }

  lemma PushFits(w: World, f: nat, final: bool, c: Checkpoint)
    requires Chained(w) && HasLease(w, f) && Started(w.leases[f].stage) && (final ==> !w.leases[f].stage.Ready?)
    requires c == Captured(Of(w, f), f, final)
    ensures Fits(w, w.leases[f].instance, Of(w, f).(chain := Of(w, f).chain + [c]))
  {
    var i, inst := w.leases[f].instance, Of(w, f);
    FitsNow(w, i);
    hide Chained;
    var chain := inst.chain + [c];
    forall k | 0 <= k < |chain| ensures LinkOk(w.leases, i, chain[k], k == 0) {
      if k < |inst.chain| { assert LinkOk(w.leases, i, inst.chain[k], k == 0); }
    }
  }

  lemma PopFits(w: World, i: nat, inst: Instance)
    requires Chained(w) && Live(w, i) && At(w, i).chain != []
    requires inst.trail == At(w, i).trail && inst.chain == At(w, i).chain[1..]
    ensures Fits(w, i, inst)
  {
    FitsNow(w, i);
    hide Chained;
    var old' := At(w, i).chain;
    forall k | 0 <= k < |inst.chain| ensures LinkOk(w.leases, i, inst.chain[k], false) {
      assert LinkOk(w.leases, i, old'[k + 1], false);
    }
    PopTethered(LogOf(w.store), At(w, i), inst, w.store.fence);
  }

  lemma PopTethered(log: seq<Event>, inst: Instance, popped: Instance, f: nat)
    requires inst.chain != [] && popped.trail == inst.trail && popped.chain == inst.chain[1..]
    ensures Tethered(log, inst, f) ==> Tethered(log, popped, f)
  {
    assert forall k :: 0 <= k < |popped.chain| ==> popped.chain[k] == inst.chain[k + 1];
  }

  // ---------------------------------------------------------------- changing one lease

  /** Moving a lease on keeps the chain when a started lease stays started. */
  lemma SetLeaseKeepsChain(w: World, f: nat, stage: Stage, failed: bool)
    requires Chained(w) && HasLease(w, f)
    requires Started(w.leases[f].stage) ==> stage == w.leases[f].stage || (Started(stage) && !stage.Ready?)
    requires stage.Loaded? && f == w.store.fence ==> stage.stored == w.store.saved
    requires Started(stage) && f == w.store.fence ==> Tethered(LogOf(w.store), Of(w, f), f)
    ensures Chained(SetLease(w, f, stage, failed))
  {
    hide Tethered, HeadOk;
    var w' := SetLease(w, f, stage, failed);
    forall j | Live(w', j) ensures ChainOk(w'.leases, j, At(w', j).chain) && HeadOk(w'.store, At(w', j).chain) {
      assert Live(w, j) && ChainOk(w.leases, j, At(w, j).chain);
      SetLeaseKeepsLinks(w.leases, w'.leases, f, j, At(w, j).chain);
    }
  }

  lemma SetLeaseKeepsLinks(leases: map<nat, Lease>, after: map<nat, Lease>, f: nat, i: nat, chain: seq<Checkpoint>)
    requires ChainOk(leases, i, chain) && f in leases
    requires f in after && after[f].instance == leases[f].instance
    requires Started(leases[f].stage) ==> Started(after[f].stage) && (after[f].stage.Ready? ==> leases[f].stage.Ready?)
    requires forall g :: g in leases && g != f ==> g in after && after[g] == leases[g]
    ensures ChainOk(after, i, chain)
  {
    forall k | 0 <= k < |chain| ensures LinkOk(after, i, chain[k], k == 0) {
      assert LinkOk(leases, i, chain[k], k == 0);
    }
  }

  lemma SettleKeepsChain(w: World, i: nat, inst: Instance, failed: bool)
    requires Chained(w) && Live(w, i) && At(w, i).chain != []
    requires inst.trail == At(w, i).trail && inst.chain == At(w, i).chain[1..]
    ensures Chained(Settle(w, i, inst, failed))
  {
    var c := At(w, i).chain[0];
    HeadLease(w, i);
    PopFits(w, i, inst);
    PutKeepsChain(w, i, inst);
    var w1 := Put(w, i, inst);
    var stage := EndedStage(w.leases[c.fence].stage, c.final);
    FitsNow(w1, i);
    hide Chained, Tethered, ChainOk, HeadOk, Put;
    PutShape(w, i, inst);
    SetLeaseKeepsChain(w1, c.fence, stage, failed || w.leases[c.fence].failed);
  }

  lemma PutShape(w: World, i: nat, inst: Instance)
    requires Live(w, i)
    ensures
      var w' := Put(w, i, inst);
      && w'.leases == w.leases && w'.store == w.store && w'.history == w.history && w'.issued == w.issued
      && Live(w', i) && At(w', i) == inst
      && (forall j :: Live(w', j) <==> Live(w, j)) && (forall j :: Live(w, j) && j != i ==> At(w', j) == At(w, j))
  {
  }

  lemma HeadLease(w: World, i: nat)
    requires Chained(w) && Live(w, i) && At(w, i).chain != []
    ensures
      var c := At(w, i).chain[0];
      && c.fence in w.leases && w.leases[c.fence].instance == i && HasLease(w, c.fence)
      && Started(w.leases[c.fence].stage)
      && (c.final ==> !w.leases[c.fence].stage.Ready?)
  {
    hide Tethered, HeadOk;
    assert ChainOk(w.leases, i, At(w, i).chain);
    assert LinkOk(w.leases, i, At(w, i).chain[0], true);
  }

  // ---------------------------------------------------------------- commits

  /** Committing the head of the newest lease extends the stored operations. */
  lemma CommitExtends(w: World, i: nat)
    requires Chained(w) && Live(w, i) && At(w, i).chain != []
    requires !At(w, i).chain[0].committed && At(w, i).chain[0].fence == w.store.fence
    ensures LogOf(w.store) <= At(w, i).chain[0].trail
  {
    HeadLease(w, i);
    hide ChainOk, HeadOk;
  }

  lemma CommittedTethered(inst: Instance, marked: Instance, log: seq<Event>, f: nat)
    requires Tethered(log, inst, f) && inst.chain != [] && Waits(inst.chain[0], f)
    requires marked == inst.(chain := inst.chain[0 := inst.chain[0].(committed := true)])
    ensures Tethered(inst.chain[0].trail, marked, f)
  {
    forall k | 0 <= k < |marked.chain| && Waits(marked.chain[k], f)
      ensures inst.chain[0].trail <= marked.chain[k].trail <= marked.trail
    {
      assert k > 0 && marked.chain[k] == inst.chain[k];
    }
    forall j, k | 0 <= j < k < |marked.chain| && Waits(marked.chain[j], f) && Waits(marked.chain[k], f)
      ensures marked.chain[j].trail <= marked.chain[k].trail
    {
      assert marked.chain[j] == inst.chain[j] && marked.chain[k] == inst.chain[k];
    }
  }

  lemma CommittedChains(svc: Service, w: World, i: nat, w': World)
    requires Chained(w) && Enabled(svc, w, Transact(i)) && At(w, i).chain[0].fence == w.store.fence
    requires w' == Committed(svc, w, i)
    ensures ChainsOk(w') && HeadsOk(w')
  {
    HeadLease(w, i);
    forall j | Live(w', j) ensures ChainOk(w'.leases, j, At(w', j).chain) && HeadOk(w'.store, At(w', j).chain) {
      assert Live(w, j) && ChainOk(w.leases, j, At(w, j).chain);
      if At(w, j).chain != [] { assert LinkOk(w.leases, j, At(w, j).chain[0], true); }
      if j == i {
        var chain, marked := At(w, i).chain, At(w', i).chain;
        forall k | 0 <= k < |marked| ensures LinkOk(w'.leases, i, marked[k], k == 0) {
          assert LinkOk(w.leases, i, chain[k], k == 0);
        }
      }
    }
  }

  lemma CommittedNewest(svc: Service, w: World, i: nat, w': World)
    requires Chained(w) && Enabled(svc, w, Transact(i)) && At(w, i).chain[0].fence == w.store.fence
    requires w' == Committed(svc, w, i)
    ensures LeasesKnown(w') && NewestOk(w') && HistoryOk(w')
  {
    HeadLease(w, i);
    CommitExtends(w, i);
    hide ChainOk, HeadOk;
    var f := w.store.fence;
    assert Tethered(LogOf(w.store), At(w, i), f);
    CommittedTethered(At(w, i), At(w', i), LogOf(w.store), f);
    hide Tethered;
  }

  lemma CommittedKeepsChain(svc: Service, w: World, i: nat)
    requires Chained(w) && Enabled(svc, w, Transact(i)) && At(w, i).chain[0].fence == w.store.fence
    ensures Chained(Committed(svc, w, i))
  {
    CommittedChains(svc, w, i, Committed(svc, w, i));
    CommittedNewest(svc, w, i, Committed(svc, w, i));
    hide ChainsOk, HeadsOk, LeasesKnown, NewestOk, HistoryOk, Committed;
  }

  // ---------------------------------------------------------------- the other moves

  lemma AcquireKeepsChain(svc: Service, w: World, i: nat)
    requires Chained(w) && Live(w, i)
    ensures Chained(Next(svc, w, Acquire(i)))
  {
    hide Tethered;
    var w' := Next(svc, w, Acquire(i));
    assert w.store.fence + 1 !in w.leases;
    forall j | Live(w', j) ensures ChainOk(w'.leases, j, At(w', j).chain) && HeadOk(w'.store, At(w', j).chain) {
      assert Live(w, j) && ChainOk(w.leases, j, At(w, j).chain);
      var chain := At(w, j).chain;
      forall k | 0 <= k < |chain| ensures LinkOk(w'.leases, j, chain[k], k == 0) {
        assert LinkOk(w.leases, j, chain[k], k == 0);
      }
    }
  }

  lemma InstancesKeepChain(w: World, instances: seq<Option<Instance>>)
    requires Chained(w) && |instances| >= |w.instances|
    requires forall i :: 0 <= i < |instances| && instances[i].Some? ==>
      if i < |w.instances| then instances[i] == w.instances[i] else instances[i].value.chain == []
    ensures Chained(w.(instances := instances))
  {
    hide Tethered;
    var w' := w.(instances := instances);
    forall j: nat | Live(w', j) ensures ChainOk(w'.leases, j, At(w', j).chain) && HeadOk(w'.store, At(w', j).chain) {
      if j < |w.instances| { assert Live(w, j); }
    }
  }

  lemma NoCheckpointYet(w: World, i: nat, f: nat)
    requires Chained(w) && Live(w, i) && f in w.leases && !Started(w.leases[f].stage)
    ensures NoneOf(At(w, i).chain, f)
  {
    hide Tethered, HeadOk;
    var chain := At(w, i).chain;
    assert ChainOk(w.leases, i, chain);
    forall k | 0 <= k < |chain| ensures chain[k].fence != f { assert LinkOk(w.leases, i, chain[k], k == 0); }
  }

  lemma InstalledTethered(svc: Service, w: World, f: nat)
    requires Chained(w) && Enabled(svc, w, Install(f)) && f == w.store.fence
    ensures Tethered(LogOf(w.store), Installed(svc, Of(w, f), w.leases[f].stage.stored), f)
  {
    NoCheckpointYet(w, w.leases[f].instance, f);
    hide ChainOk, HeadOk;
  }

  lemma InstallKeepsChain(svc: Service, w: World, f: nat)
    requires Chained(w) && Enabled(svc, w, Install(f)) && f == w.store.fence
    ensures Chained(Next(svc, w, Install(f)))
  {
    var i := w.leases[f].instance;
    var inst' := Installed(svc, Of(w, f), w.leases[f].stage.stored);
    InstalledTethered(svc, w, f);
    FitsNow(w, i);
    assert inst'.chain == At(w, i).chain;
    hide Chained, ChainOk, HeadOk, Installed, Tethered;
    PutKeepsChain(w, i, inst');
    PutShape(w, i, inst');
    SetLeaseKeepsChain(Put(w, i, inst'), f, Ready, w.leases[f].failed);
  }

  lemma PushedKeepsChain(w: World, f: nat)
    requires Chained(w) && InStage(w, f, Ready)
    ensures Chained(Pushed(w, f, false))
  {
    PushFits(w, f, false, Captured(Of(w, f), f, false));
    hide Chained, Fits;
    PutKeepsChain(w, w.leases[f].instance, Of(w, f).(chain := Of(w, f).chain + [Captured(Of(w, f), f, false)]));
  }

  /** The order in which the lease moves on and the checkpoint is queued makes no difference. */
  lemma FinalCommutes(w: World, f: nat, failed: bool)
    requires HasLease(w, f)
    ensures HasLease(SetLease(w, f, Finalizing, failed), f)
    ensures SetLease(Pushed(w, f, true), f, Finalizing, failed) == Pushed(SetLease(w, f, Finalizing, failed), f, true)
  {
  }

  lemma StageKeepsChain(w: World, f: nat, stage: Stage)
    requires Chained(w) && InStage(w, f, Ready) && (stage.Finalizing? || stage.Done?)
    ensures Chained(SetLease(w, f, stage, w.leases[f].failed))
  {
    hide ChainOk, HeadOk, Tethered;
    SetLeaseKeepsChain(w, f, stage, w.leases[f].failed);
  }

  lemma FinalKeepsChain(w: World, f: nat)
    requires Chained(w) && InStage(w, f, Ready)
    ensures Chained(SetLease(Pushed(w, f, true), f, Finalizing, w.leases[f].failed))
  {
    var failed := w.leases[f].failed;
    StageKeepsChain(w, f, Finalizing);
    FinalCommutes(w, f, failed);
    var w1 := SetLease(w, f, Finalizing, failed);
    assert w1.leases[f].stage == Finalizing;
    hide Chained, Fits, Tethered, SetLease, Pushed;
    FinalPushKeepsChain(w1, f);
  }

  lemma FinalPushKeepsChain(w: World, f: nat)
    requires Chained(w) && InStage(w, f, Finalizing)
    ensures Chained(Pushed(w, f, true))
  {
    PushFits(w, f, true, Captured(Of(w, f), f, true));
    hide Chained, Fits;
    PutKeepsChain(w, w.leases[f].instance, Of(w, f).(chain := Of(w, f).chain + [Captured(Of(w, f), f, true)]));
  }

  lemma HeadIsNotOurs(w: World, f: nat, j: nat)
    requires Chained(w) && HasLease(w, f) && NoneOf(Of(w, f).chain, f) && Live(w, j) && At(w, j).chain != []
    ensures At(w, j).chain[0].fence != f
  {
    HeadLease(w, j);
  }

  /** Writing nothing is only safe because the stored snapshot is what the process holds. */
  lemma SkippedKeepsChain(w: World, f: nat)
    requires Chained(w) && InStage(w, f, Ready) && f == w.store.fence && NoneOf(Of(w, f).chain, f)
    ensures Chained(Skipped(w, f)) && LogOf(w.store) <= LogOf(Skipped(w, f).store)
  {
    StageKeepsChain(w, f, Done);
    var w1 := SetLease(w, f, Done, w.leases[f].failed);
    var w' := Skipped(w, f);
    if w' != w1 {
      assert Tethered(LogOf(w.store), Of(w, f), f);
      assert Tethered(LogOf(w'.store), Of(w, f), f) by {
        assert forall k :: 0 <= k < |Of(w, f).chain| ==> Of(w, f).chain[k] in Of(w, f).chain;
      }
      forall j | Live(w', j) ensures ChainOk(w'.leases, j, At(w', j).chain) && HeadOk(w'.store, At(w', j).chain) {
        hide ChainOk;
        assert Live(w1, j);
        if At(w, j).chain != [] { HeadIsNotOurs(w, f, j); }
      }
      hide ChainOk, HeadOk, Tethered;
    }
  }

  lemma TransactKeepsChain(svc: Service, w: World, i: nat)
    requires Chained(w) && Enabled(svc, w, Transact(i))
    ensures Chained(Next(svc, w, Transact(i)))
  {
    if Accepts(w.store, At(w, i).chain[0]) {
      CommittedKeepsChain(svc, w, i);
    } else {
      SettleKeepsChain(w, i, At(w, i).(chain := At(w, i).chain[1..]), true);
    }
  }

  lemma LoadKeepsChain(svc: Service, w: World, f: nat)
    requires Chained(w) && Enabled(svc, w, Load(f))
    ensures Chained(Next(svc, w, Load(f)))
  {
    hide Tethered, ChainOk, HeadOk;
    SetLeaseKeepsChain(w, f, Loaded(w.store.saved), w.leases[f].failed);
  }

  lemma ClearKeepsChain(svc: Service, w: World, f: nat)
    requires Chained(w) && Enabled(svc, w, ClearAccess(f))
    ensures Chained(Next(svc, w, ClearAccess(f)))
  {
    hide Tethered, ChainOk;
    var w' := Next(svc, w, ClearAccess(f));
    forall j | Live(w', j) ensures ChainOk(w'.leases, j, At(w', j).chain) && HeadOk(w'.store, At(w', j).chain) {
      assert Live(w, j);
    }
  }

  lemma WorkKeepsChain(svc: Service, w: World, i: nat, who: Option<nat>, op: Operation)
    requires Chained(w) && Live(w, i)
    ensures Chained(Worked(svc, w, i, who, op))
  {
    var e := Event(|w.issued|, who, op);
    LongerTrailFits(w, i, Performed(svc, At(w, i), e));
    PutKeepsChain(w, i, Performed(svc, At(w, i), e));
    IssueKeepsChain(Put(w, i, Performed(svc, At(w, i), e)), w.issued + [e]);
  }

  lemma IssueKeepsChain(w: World, issued: seq<Event>)
    requires Chained(w)
    ensures Chained(w.(issued := issued))
  {
    hide Tethered, ChainOk, HeadOk;
    var w' := w.(issued := issued);
    forall j | Live(w', j) ensures ChainOk(w'.leases, j, At(w', j).chain) && HeadOk(w'.store, At(w', j).chain) {
      assert Live(w, j);
    }
  }

  lemma RequeueKeepsChain(svc: Service, w: World, i: nat)
    requires Chained(w) && Live(w, i)
    ensures Chained(Next(svc, w, Requeue(i)))
  {
    var inst' := Enlist(At(w, i), svc.warranted(At(w, i).memory.queue));
    LongerTrailFits(w, i, inst');
    PutKeepsChain(w, i, inst');
  }

  lemma NextKeepsChain(svc: Service, w: World, m: Move)
    requires Chained(w) && Enabled(svc, w, m) && Guarded(w, m)
    ensures Chained(Next(svc, w, m))
  {
    hide Chained;
    match m
    case Boot => InstancesKeepChain(w, w.instances + [Some(Fresh(svc))]);
    case Crash(i) => InstancesKeepChain(w, w.instances[i := None]);
    case Acquire(i) => AcquireKeepsChain(svc, w, i);
    case Load(f) => LoadKeepsChain(svc, w, f);
    case ClearAccess(f) => ClearKeepsChain(svc, w, f);
    case Install(f) => InstallKeepsChain(svc, w, f);
    case Work(i, who, op) => WorkKeepsChain(svc, w, i, who, op);
    case Requeue(i) => RequeueKeepsChain(svc, w, i);
    case Persist(f) => PushedKeepsChain(w, f);
    case PersistFinal(f) => FinalKeepsChain(w, f);
    case EarlyFinal(_) => assert false;
    case Skip(f) => SkippedKeepsChain(w, f);
    case Transact(i) => TransactKeepsChain(svc, w, i);
    case RollBack(i) => SettleKeepsChain(w, i, At(w, i).(chain := At(w, i).chain[1..]), true);
    case Acknowledge(i) => SettleKeepsChain(w, i, Acknowledged(svc, At(w, i)), false);
    case LoseReply(i) => SettleKeepsChain(w, i, At(w, i).(chain := At(w, i).chain[1..]), true);
  }

  /** In every guarded run the commits form one chain. */
  lemma {:induction false} RunIsChained(svc: Service, moves: seq<Move>, worlds: seq<World>, k: nat)
    requires IsRun(svc, moves, worlds) && IsGuarded(moves, worlds) && k <= |moves|
    ensures Chained(worlds[k])
    decreases k
  {
    if k == 0 {
      hide Next, Enabled, Guarded;
    } else {
      hide Chained, Next, Enabled, Guarded;
      RunIsChained(svc, moves, worlds, k - 1);
      assert worlds[k - 1 + 1] == Next(svc, worlds[k - 1], moves[k - 1]);
      NextKeepsChain(svc, worlds[k - 1], moves[k - 1]);
    }
  }
}
