/**
 What a success reply means: every operation its request performed is in the stored log, and
 a request that writes nothing had nothing to write.
 */
module FencedRuntimeReplies {
  import opened Wrappers
  import opened MatchmakingService
  import opened FencedRuntime
  import opened FencedRuntimeChain

  /** Every operation the request has performed so far is in the trail. */
  ghost predicate AllIn(issued: seq<Event>, f: nat, trail: seq<Event>) {
    forall k :: 0 <= k < |issued| && issued[k].who == Some(f) ==> issued[k] in trail
  }

  lemma AllInLonger(issued: seq<Event>, f: nat, trail: seq<Event>, longer: seq<Event>)
    requires AllIn(issued, f, trail) && trail <= longer
    ensures AllIn(issued, f, longer)
  {
    forall k | 0 <= k < |issued| && issued[k].who == Some(f) ensures issued[k] in longer {
      var n :| 0 <= n < |trail| && trail[n] == issued[k];
      assert longer[n] == trail[n];
    }
  }

  // ---------------------------------------------------------------- the remembered fingerprint

  /** The newest lease's process remembers the fingerprint of the stored snapshot. */
  ghost predicate RemembersSaved(svc: Service, store: Store, inst: Instance) {
    inst.lastFingerprint ==
      if store.saved.None? then None else Some(svc.fingerprint(store.saved.value.snapshot))
  }

  predicate AwaitsReply(chain: seq<Checkpoint>, f: nat) {
    chain != [] && chain[0].committed && chain[0].fence == f
  }

  ghost predicate FingerprintOk(svc: Service, w: World) {
    var f := w.store.fence;
    HasLease(w, f) && Started(w.leases[f].stage) && !w.leases[f].failed && !AwaitsReply(Of(w, f).chain, f) ==>
      RemembersSaved(svc, w.store, Of(w, f))
  }

  lemma SettleKeepsFingerprint(svc: Service, w: World, i: nat, inst: Instance, failed: bool)
    requires Chained(w) && FingerprintOk(svc, w) && Live(w, i) && At(w, i).chain != []
    requires inst.chain == At(w, i).chain[1..]
    requires
      var c := At(w, i).chain[0];
      || (inst.lastFingerprint == At(w, i).lastFingerprint && failed)
      || (c.committed && c.fence == w.store.fence && inst.lastFingerprint == Some(svc.fingerprint(c.snapshot)))
      || (c.fence != w.store.fence &&
          !(HasLease(w, w.store.fence) && w.leases[w.store.fence].instance == i && !Refreshing(w, w.store.fence)))
    ensures FingerprintOk(svc, Settle(w, i, inst, failed))
  {
    HeadLease(w, i);
    assert HeadOk(w.store, At(w, i).chain);
    hide Tethered, ChainOk, HistoryOk, LeasesKnown;
  }

  lemma NextKeepsFingerprint(svc: Service, w: World, m: Move)
    requires Chained(w) && FingerprintOk(svc, w) && Enabled(svc, w, m) && Timely(w, m)
    ensures FingerprintOk(svc, Next(svc, w, m))
  {
    match m
    case Boot => hide Chained;
    case Crash(i) => hide Chained;
    case Acquire(i) => hide Chained;
    case Load(f) => hide Chained;
    case ClearAccess(f) => hide Chained;
    case Install(f) =>
      assert NewestOk(w);
      hide Tethered, ChainsOk, HeadsOk, HistoryOk, LeasesKnown;
    case Work(i, who, op) => hide Chained;
    case Requeue(i) => hide Chained;
    case Persist(f) => hide Chained;
    case PersistFinal(f) => hide Chained;
    case EarlyFinal(_) => assert false;
    case Skip(f) => hide Chained;
    case Transact(i) => TransactKeepsFingerprint(svc, w, i);
    case RollBack(i) =>
      hide Chained;
      SettleKeepsFingerprint(svc, w, i, At(w, i).(chain := At(w, i).chain[1..]), true);
    case Acknowledge(i) => SettleKeepsFingerprint(svc, w, i, Acknowledged(svc, At(w, i)), false);
    case LoseReply(i) =>
      hide Chained;
      SettleKeepsFingerprint(svc, w, i, At(w, i).(chain := At(w, i).chain[1..]), true);
  }

  lemma TransactKeepsFingerprint(svc: Service, w: World, i: nat)
    requires Chained(w) && FingerprintOk(svc, w) && Enabled(svc, w, Transact(i))
    ensures FingerprintOk(svc, Next(svc, w, Transact(i)))
  {
    HeadLease(w, i);
    if Accepts(w.store, At(w, i).chain[0]) {
      hide Chained;
    } else {
      SettleKeepsFingerprint(svc, w, i, At(w, i).(chain := At(w, i).chain[1..]), true);
    }
  }

  /**
   The equal-fingerprint shortcut never leaves memory ahead of storage: a live request on the
   newest lease that decides to write nothing holds exactly the stored snapshot.
   */
  lemma SkipIsSafe(svc: Service, w: World, f: nat)
    requires TellsApart(svc) && FingerprintOk(svc, w)
    requires Enabled(svc, w, Skip(f)) && Timely(w, Skip(f)) && !w.leases[f].failed
    ensures w.store.saved.Some? && w.store.saved.value.snapshot == Of(w, f).memory
    ensures LogOf(Skipped(w, f).store) == Of(w, f).trail
  {
    var chain := Of(w, f).chain;
    assert chain != [] ==> chain[0] in chain;
  }

  // ---------------------------------------------------------------- durable operations

  ghost predicate IssuersStarted(w: World) {
    forall k :: 0 <= k < |w.issued| && w.issued[k].who.Some? ==>
      w.issued[k].who.value in w.leases && Started(w.leases[w.issued[k].who.value].stage)
  }

  /** What a final checkpoint must carry: while it may still commit, its request's operations. */
  ghost predicate FinalOk(w: World, c: Checkpoint) {
    && (c.final && !c.committed && c.fence == w.store.fence ==> AllIn(w.issued, c.fence, c.trail))
    && (c.final && c.committed ==> AllIn(w.issued, c.fence, LogOf(w.store)))
  }

  ghost predicate FinalsOk(w: World) {
    forall i, k :: Live(w, i) && 0 <= k < |At(w, i).chain| ==> FinalOk(w, At(w, i).chain[k])
  }

  ghost predicate WorkingOk(w: World) {
    var f := w.store.fence;
    InStage(w, f, Ready) ==> AllIn(w.issued, f, Of(w, f).trail)
  }

  /** A request that ended without failure has all its operations in the stored log. */
  ghost predicate DoneOk(w: World) {
    forall f :: f in w.leases && w.leases[f].stage.Done? && !w.leases[f].failed ==>
      AllIn(w.issued, f, LogOf(w.store))
  }

  ghost predicate Durable(w: World) {
    IssuersStarted(w) && FinalsOk(w) && WorkingOk(w) && DoneOk(w)
  }

  /** Moves that issue nothing and keep the log, seen from outside the process they touch. */
  lemma QuietKeepsDurable(w: World, w': World, i: nat)
    requires Durable(w) && Live(w, i) && Live(w', i)
    requires w'.issued == w.issued && w'.store.fence == w.store.fence && LogOf(w'.store) == LogOf(w.store)
    requires forall j :: Live(w', j) <==> Live(w, j)
    requires forall j :: Live(w, j) && j != i ==> At(w', j) == At(w, j)
    requires forall c :: c in At(w', i).chain ==> c in At(w, i).chain || FinalOk(w, c)
    requires At(w, i).trail <= At(w', i).trail
    requires forall f :: f in w.leases ==> f in w'.leases && w'.leases[f].instance == w.leases[f].instance
    requires forall f :: f in w'.leases ==> f in w.leases
    requires forall f :: f in w.leases && Started(w.leases[f].stage) ==> Started(w'.leases[f].stage)
    requires forall f :: f in w.leases && w'.leases[f].stage.Ready? ==> w.leases[f].stage.Ready?
    requires forall f :: f in w.leases && w'.leases[f].stage.Done? && !w'.leases[f].failed ==>
      AllIn(w.issued, f, LogOf(w.store))
    ensures Durable(w')
  {
    hide AllIn;
    forall j, k | Live(w', j) && 0 <= k < |At(w', j).chain| ensures FinalOk(w', At(w', j).chain[k]) {
      var c := At(w', j).chain[k];
      if j == i {
        assert c in At(w', i).chain;
        if c in At(w, i).chain {
          var n :| 0 <= n < |At(w, i).chain| && At(w, i).chain[n] == c;
          assert FinalOk(w, At(w, i).chain[n]);
        }
      } else {
        assert FinalOk(w, At(w, j).chain[k]);
      }
    }
    var f := w.store.fence;
    if InStage(w', f, Ready) {
      assert InStage(w, f, Ready);
      if w.leases[f].instance == i { AllInLonger(w.issued, f, At(w, i).trail, At(w', i).trail); }
    }
  }

  lemma HeadIsFinalOk(w: World, i: nat)
    requires Durable(w) && Live(w, i) && At(w, i).chain != []
    ensures FinalOk(w, At(w, i).chain[0])
  {
    hide AllIn, FinalOk;
  }

  lemma LeaseIsDoneOk(w: World)
    requires Durable(w)
    ensures forall f :: f in w.leases && w.leases[f].stage.Done? && !w.leases[f].failed ==>
      AllIn(w.issued, f, LogOf(w.store))
  {
    hide AllIn;
  }

  lemma SettleKeepsDurable(w: World, i: nat, inst: Instance, failed: bool)
    requires Durable(w) && Chained(w) && Live(w, i) && At(w, i).chain != []
    requires inst.trail == At(w, i).trail && inst.chain == At(w, i).chain[1..]
    requires failed || At(w, i).chain[0].committed
    ensures Durable(Settle(w, i, inst, failed))
  {
    HeadLease(w, i);
    HeadIsFinalOk(w, i);
    LeaseIsDoneOk(w);
    PutShape(w, i, inst);
    hide Durable, Chained, AllIn, Put;
    QuietKeepsDurable(w, Settle(w, i, inst, failed), i);
  }

  lemma PushKeepsDurable(w: World, f: nat, final: bool, stage: Stage)
    requires Durable(w) && InStage(w, f, Ready)
    requires stage == if final then Finalizing else Ready
    ensures Durable(SetLease(Pushed(w, f, final), f, stage, w.leases[f].failed))
  {
    var inst := Of(w, f);
    var c := Captured(inst, f, final);
    assert FinalOk(w, c) by { hide AllIn; }
    LeaseIsDoneOk(w);
    hide Durable, AllIn, FinalOk;
    var w' := SetLease(Pushed(w, f, final), f, stage, w.leases[f].failed);
    QuietKeepsDurable(w, w', w.leases[f].instance);
  }

  lemma InstallKeepsDurable(svc: Service, w: World, f: nat)
    requires Durable(w) && Chained(w) && Enabled(svc, w, Install(f)) && f == w.store.fence
    ensures Durable(Next(svc, w, Install(f)))
  {
    var w' := Next(svc, w, Install(f));
    var i := w.leases[f].instance;
    assert AllIn(w.issued, f, At(w', i).trail);
    forall j, k | Live(w', j) && 0 <= k < |At(w', j).chain| ensures FinalOk(w', At(w', j).chain[k]) {
      hide AllIn;
      assert At(w', j).chain == At(w, j).chain;
      assert Live(w, j) && FinalOk(w, At(w, j).chain[k]);
    }
    hide AllIn, Chained, FinalOk, Installed;
  }

  /** The log only grows, so what was durable stays durable. */
  lemma LongerLogKeepsFinal(w: World, w': World, c: Checkpoint)
    requires FinalOk(w, c) && w'.issued == w.issued && w'.store.fence == w.store.fence
    requires LogOf(w.store) <= LogOf(w'.store)
    ensures FinalOk(w', c)
  {
    if c.final && c.committed { AllInLonger(w.issued, c.fence, LogOf(w.store), LogOf(w'.store)); }
    hide AllIn;
  }

  lemma LongerLogKeepsDone(w: World, w': World)
    requires DoneOk(w) && w'.issued == w.issued && LogOf(w.store) <= LogOf(w'.store) && w'.leases == w.leases
    ensures DoneOk(w')
  {
    forall f | f in w.leases && w.leases[f].stage.Done? && !w.leases[f].failed
      ensures AllIn(w.issued, f, LogOf(w'.store))
    {
      hide AllIn;
      AllInLonger(w.issued, f, LogOf(w.store), LogOf(w'.store));
    }
  }

  lemma CommitKeepsDurable(svc: Service, w: World, i: nat)
    requires Durable(w) && Chained(w) && Enabled(svc, w, Transact(i)) && Accepts(w.store, At(w, i).chain[0])
    ensures Durable(Committed(svc, w, i))
  {
    var w' := Committed(svc, w, i);
    CommitExtends(w, i);
    HeadIsFinalOk(w, i);
    hide Chained;
    LongerLogKeepsDone(w, w');
    forall j, k | Live(w', j) && 0 <= k < |At(w', j).chain| ensures FinalOk(w', At(w', j).chain[k]) {
      assert Live(w, j) && FinalOk(w, At(w, j).chain[k]);
      if !(j == i && k == 0) { LongerLogKeepsFinal(w, w', At(w, j).chain[k]); }
    }
    hide FinalOk, AllIn;
  }

  lemma SkipKeepsDurable(svc: Service, w: World, f: nat)
    requires TellsApart(svc) && FingerprintOk(svc, w) && Durable(w) && Chained(w)
    requires Enabled(svc, w, Skip(f)) && Timely(w, Skip(f))
    ensures Durable(Skipped(w, f))
  {
    var w' := Skipped(w, f);
    SkippedKeepsChain(w, f);
    if !w.leases[f].failed { SkipIsSafe(svc, w, f); }
    hide Chained, FingerprintOk, TellsApart;
    forall g | g in w'.leases && w'.leases[g].stage.Done? && !w'.leases[g].failed
      ensures AllIn(w'.issued, g, LogOf(w'.store))
    {
      if g != f {
        assert AllIn(w.issued, g, LogOf(w.store));
        hide AllIn;
        AllInLonger(w.issued, g, LogOf(w.store), LogOf(w'.store));
      }
    }
    forall j, k | Live(w', j) && 0 <= k < |At(w', j).chain| ensures FinalOk(w', At(w', j).chain[k]) {
      hide AllIn;
      assert Live(w, j) && FinalOk(w, At(w, j).chain[k]);
      LongerLogKeepsFinal(w, w', At(w, j).chain[k]);
    }
    hide FinalOk, AllIn;
  }

  /** Issuing an operation of one request says nothing new about the others. */
  lemma AllInIssued(issued: seq<Event>, f: nat, trail: seq<Event>, e: Event)
    requires AllIn(issued, f, trail) && e.who != Some(f)
    ensures AllIn(issued + [e], f, trail)
  {
  }

  lemma AllInPerformed(issued: seq<Event>, f: nat, trail: seq<Event>, e: Event)
    requires AllIn(issued, f, trail)
    ensures AllIn(issued + [e], f, trail + [e])
  {
    forall k | 0 <= k <= |issued| && (issued + [e])[k].who == Some(f) ensures (issued + [e])[k] in trail + [e] {
      if k < |issued| { assert issued[k] in trail; }
    }
  }

  lemma WorkKeepsFinal(svc: Service, w: World, i: nat, who: Option<nat>, op: Operation, j: nat, k: nat)
    requires Durable(w) && Chained(w) && Enabled(svc, w, Work(i, who, op))
    requires Live(w, j) && 0 <= k < |At(w, j).chain|
    ensures FinalOk(Worked(svc, w, i, who, op), At(w, j).chain[k])
  {
    var c := At(w, j).chain[k];
    var e := Event(|w.issued|, who, op);
    assert FinalOk(w, c);
    assert ChainOk(w.leases, j, At(w, j).chain);
    assert LinkOk(w.leases, j, c, k == 0);
    hide Durable, Chained;
    if c.final {
      assert e.who != Some(c.fence);
      if AllIn(w.issued, c.fence, c.trail) { AllInIssued(w.issued, c.fence, c.trail, e); }
      if AllIn(w.issued, c.fence, LogOf(w.store)) { AllInIssued(w.issued, c.fence, LogOf(w.store), e); }
    }
    hide AllIn;
  }

  lemma WorkKeepsDurable(svc: Service, w: World, i: nat, who: Option<nat>, op: Operation)
    requires Durable(w) && Chained(w) && Enabled(svc, w, Work(i, who, op))
    ensures Durable(Worked(svc, w, i, who, op))
  {
    var w' := Worked(svc, w, i, who, op);
    var e := Event(|w.issued|, who, op);
    forall j, k | Live(w', j) && 0 <= k < |At(w', j).chain| ensures FinalOk(w', At(w', j).chain[k]) {
      assert At(w', j).chain == At(w, j).chain;
      WorkKeepsFinal(svc, w, i, who, op, j, k);
    }
    hide Chained, FinalOk;
    forall g | g in w'.leases && w'.leases[g].stage.Done? && !w'.leases[g].failed
      ensures AllIn(w'.issued, g, LogOf(w'.store))
    {
      assert AllIn(w.issued, g, LogOf(w.store));
      AllInIssued(w.issued, g, LogOf(w.store), e);
    }
    WorkKeepsWorking(svc, w, i, who, op);
    hide AllIn, WorkingOk;
  }

  lemma WorkKeepsWorking(svc: Service, w: World, i: nat, who: Option<nat>, op: Operation)
    requires WorkingOk(w) && LeasesKnown(w) && Enabled(svc, w, Work(i, who, op))
    ensures WorkingOk(Worked(svc, w, i, who, op))
  {
    var w' := Worked(svc, w, i, who, op);
    var e := Event(|w.issued|, who, op);
    var f := w.store.fence;
    if InStage(w', f, Ready) {
      var j := w.leases[f].instance;
      assert Live(w, j) && InStage(w, f, Ready);
      if j == i { AllInPerformed(w.issued, f, At(w, j).trail, e); }
      else { AllInIssued(w.issued, f, At(w, j).trail, e); }
    }
    hide AllIn;
  }

  lemma ElsewhereKeepsDurable(svc: Service, w: World, m: Move)
    requires Durable(w) && Chained(w) && Enabled(svc, w, m)
    requires m.Boot? || m.Crash? || m.Acquire? || m.Load? || m.ClearAccess?
    ensures Durable(Next(svc, w, m))
  {
    var w' := Next(svc, w, m);
    forall j, k | Live(w', j) && 0 <= k < |At(w', j).chain| ensures FinalOk(w', At(w', j).chain[k]) {
      hide AllIn;
      assert Live(w, j) && At(w', j) == At(w, j);
      assert FinalOk(w, At(w, j).chain[k]);
      assert ChainOk(w.leases, j, At(w, j).chain);
      assert LinkOk(w.leases, j, At(w, j).chain[k], k == 0);
    }
    hide AllIn, FinalOk, ChainsOk, HeadsOk, HistoryOk, NewestOk;
  }

  lemma NextKeepsDurable(svc: Service, w: World, m: Move)
    requires TellsApart(svc) && FingerprintOk(svc, w) && Durable(w) && Chained(w)
    requires Enabled(svc, w, m) && Timely(w, m)
    ensures Durable(Next(svc, w, m))
  {
    hide Durable, Chained, FingerprintOk, TellsApart;
    match m
    case Boot => ElsewhereKeepsDurable(svc, w, m);
    case Crash(i) => ElsewhereKeepsDurable(svc, w, m);
    case Acquire(i) => ElsewhereKeepsDurable(svc, w, m);
    case Load(f) => ElsewhereKeepsDurable(svc, w, m);
    case ClearAccess(f) => ElsewhereKeepsDurable(svc, w, m);
    case Install(f) => InstallKeepsDurable(svc, w, f);
    case Work(i, who, op) => WorkKeepsDurable(svc, w, i, who, op);
    case Requeue(i) => RequeueKeepsDurable(svc, w, i);
    case Persist(f) => PersistKeepsDurable(svc, w, f);
    case PersistFinal(f) => PushKeepsDurable(w, f, true, Finalizing);
    case Skip(f) => SkipKeepsDurable(svc, w, f);
    case Transact(i) => TransactKeepsDurable(svc, w, i);
    case RollBack(i) => SettleKeepsDurable(w, i, At(w, i).(chain := At(w, i).chain[1..]), true);
    case Acknowledge(i) => SettleKeepsDurable(w, i, Acknowledged(svc, At(w, i)), false);
    case LoseReply(i) => SettleKeepsDurable(w, i, At(w, i).(chain := At(w, i).chain[1..]), true);
  }

  lemma TransactKeepsDurable(svc: Service, w: World, i: nat)
    requires Durable(w) && Chained(w) && Enabled(svc, w, Transact(i))
    ensures Durable(Next(svc, w, Transact(i)))
  {
    hide Durable, Chained;
    if Accepts(w.store, At(w, i).chain[0]) {
      CommitKeepsDurable(svc, w, i);
    } else {
      SettleKeepsDurable(w, i, At(w, i).(chain := At(w, i).chain[1..]), true);
    }
  }

  lemma RequeueKeepsDurable(svc: Service, w: World, i: nat)
    requires Durable(w) && Live(w, i)
    ensures Durable(Next(svc, w, Requeue(i)))
  {
    var w' := Next(svc, w, Requeue(i));
    LeaseIsDoneOk(w);
    hide Durable, AllIn, FinalOk;
    QuietKeepsDurable(w, w', i);
  }

  lemma PersistKeepsDurable(svc: Service, w: World, f: nat)
    requires Durable(w) && InStage(w, f, Ready)
    ensures Durable(Pushed(w, f, false))
  {
    PushKeepsDurable(w, f, false, Ready);
    assert SetLease(Pushed(w, f, false), f, Ready, w.leases[f].failed) == Pushed(w, f, false);
  }

  /** In every timely run a request that ends without failure has made all its operations durable. */
  lemma {:induction false} RunIsDurable(svc: Service, moves: seq<Move>, worlds: seq<World>, k: nat)
    requires TellsApart(svc) && IsRun(svc, moves, worlds) && IsTimely(moves, worlds) && k <= |moves|
    ensures FingerprintOk(svc, worlds[k]) && Durable(worlds[k])
    decreases k
  {
    if k == 0 {
      hide Next, Enabled, Timely;
    } else {
      hide Chained, Durable, FingerprintOk, Next, Enabled, Timely;
      RunIsDurable(svc, moves, worlds, k - 1);
      TimelyIsGuarded(moves, worlds);
      RunIsChained(svc, moves, worlds, k - 1);
      assert worlds[k - 1 + 1] == Next(svc, worlds[k - 1], moves[k - 1]);
      NextKeepsDurable(svc, worlds[k - 1], moves[k - 1]);
      NextKeepsFingerprint(svc, worlds[k - 1], moves[k - 1]);
    }
  }
}
