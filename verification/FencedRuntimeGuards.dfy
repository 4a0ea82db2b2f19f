/**
 Why the guards of a timely run are needed: what a late load, a late decision to write nothing, an
 early finaliser and a late reply do, and that the states they start from are reached by timely runs.
 */
module FencedRuntimeGuards {
  import opened Wrappers
  import opened MatchmakingService
  import opened FencedRuntime
  import opened FencedRuntimeChain

  /**
   Why loads must arrive in time. A superseded lease of the same process installs a snapshot it
   loaded earlier, and the newest lease then persists: unless a decision conflicts, the commit is
   accepted, and it keeps the stored operations exactly when the earlier load had them all.
   */
  lemma LateInstallLosesCommits(svc: Service, w: World, f: nat, g: nat)
    requires g == w.store.fence && InStage(w, g, Ready) && Of(w, g).chain == []
    requires f != g && HasLease(w, f) && w.leases[f].instance == w.leases[g].instance
    requires w.leases[f].stage.Loaded? && w.leases[f].stage.stored.Some?
    ensures Enabled(svc, w, Install(f)) && !Timely(w, Install(f))
    ensures
      var i := w.leases[g].instance;
      var w1 := Next(svc, w, Install(f));
      && Enabled(svc, w1, Persist(g))
      && var w2 := Next(svc, w1, Persist(g));
      && Enabled(svc, w2, Transact(i))
      && var w3 := Next(svc, w2, Transact(i));
      var conflicts := Conflicts(w.store.decisions, Installed(svc, Of(w, g), w.leases[f].stage.stored).pending);
      && (LogOf(w.store) <= LogOf(w3.store) <==> conflicts || LogOf(w.store) <= w.leases[f].stage.stored.value.log)
      && (!conflicts ==> LogOf(w3.store) == w.leases[f].stage.stored.value.log)
  {
    hide Conflicts;
    var i := w.leases[g].instance;
    var w1 := Next(svc, w, Install(f));
    var inst := Installed(svc, Of(w, g), w.leases[f].stage.stored);
    assert At(w1, i) == inst;
    var w2 := Next(svc, w1, Persist(g));
    assert At(w2, i).chain == [Captured(inst, g, false)];
    PersistedAlone(svc, w2, i, Captured(inst, g, false));
  }

  /** What a single waiting checkpoint under the newest token does to the stored operations. */
  lemma PersistedAlone(svc: Service, w: World, i: nat, c: Checkpoint)
    requires Enabled(svc, w, Transact(i)) && At(w, i).chain == [c] && c.fence == w.store.fence
    ensures
      var log := LogOf(Next(svc, w, Transact(i)).store);
      if Conflicts(w.store.decisions, c.decisions) then log == LogOf(w.store) else log == c.trail
  {
    hide Conflicts;
  }

  /**
   Why finalisers must wait for the refresh. One that runs before persists memory that was not
   refreshed, under the newest token: unless a decision conflicts, the commit is accepted, and it
   keeps the stored operations exactly when the memory happens to have them all.
   */
  lemma EarlyFinalLosesCommits(svc: Service, w: World, f: nat)
    requires f == w.store.fence && Enabled(svc, w, EarlyFinal(f)) && Of(w, f).chain == []
    ensures !Timely(w, EarlyFinal(f))
    ensures
      var i := w.leases[f].instance;
      var w1 := Next(svc, w, EarlyFinal(f));
      && Enabled(svc, w1, Transact(i))
      && var w2 := Next(svc, w1, Transact(i));
      var conflicts := Conflicts(w.store.decisions, Of(w, f).pending);
      && (LogOf(w.store) <= LogOf(w2.store) <==> conflicts || LogOf(w.store) <= Of(w, f).trail)
      && (!conflicts ==> LogOf(w2.store) == Of(w, f).trail)
  {
    hide Conflicts;
    var i := w.leases[f].instance;
    var w1 := Next(svc, w, EarlyFinal(f));
    assert At(w1, i).chain == [Captured(Of(w, f), f, true)];
    PersistedAlone(svc, w1, i, Captured(Of(w, f), f, true));
  }

  /**
   Why writing nothing needs the newest lease. A newer lease of the same process reloads the
   snapshot and so drops what the older request did. The older request then finds nothing to
   write exactly when no decision is pending and none is warranted; it ends without failure, and
   its operation is stored only if it was before.
   */
  lemma LateSkipLosesWork(svc: Service, w: World, f: nat, g: nat, e: nat)
    requires g == w.store.fence && HasLease(w, g) && w.leases[g].stage == Loaded(w.store.saved) && w.store.saved.Some?
    requires f != g && InStage(w, f, Ready) && w.leases[f].instance == w.leases[g].instance && !w.leases[f].failed
    requires NoneOf(Of(w, g).chain, f) && e < |w.issued|
    ensures Enabled(svc, w, Install(g)) && Timely(w, Install(g))
    ensures
      var w1 := Next(svc, w, Install(g));
      && (Enabled(svc, w1, Skip(f)) <==>
            Of(w, g).pending == map[] && svc.warranted(w.store.saved.value.snapshot.queue) == map[])
      && (Enabled(svc, w1, Skip(f)) ==>
            var w2 := Next(svc, w1, Skip(f));
            && !Timely(w1, Skip(f)) && w2.leases[f].stage.Done? && !w2.leases[f].failed
            && (w2.issued[e] in LogOf(w2.store) <==> w.issued[e] in LogOf(w.store)))
  {
    var w1 := Next(svc, w, Install(g));
    var inst := Of(w1, g);
    assert inst == Installed(svc, Of(w, g), w.store.saved);
    EnlistNoneIff(Of(w, g), svc.warranted(w.store.saved.value.snapshot.queue));
    assert inst.memory == w.store.saved.value.snapshot && inst.trail == LogOf(w.store);
  }

  /**
   Why replies must arrive in time. The reply to an older commit reaches a process whose newest lease
   has taken over a newer snapshot, so the process remembers the older fingerprint. The newest lease
   may then end without writing exactly when its memory equals the older snapshot and nothing waits
   but what was written with it. It ends without failure; its operations count as stored when that
   is also what the store holds, and otherwise only those that were stored before.
   */
  lemma LateAcknowledgeLosesWork(svc: Service, w: World, i: nat, g: nat, e: nat)
    requires TellsApart(svc) && Enabled(svc, w, Acknowledge(i)) && w.store.saved.Some? && e < |w.issued|
    requires g == w.store.fence && InStage(w, g, Ready) && w.leases[g].instance == i && !w.leases[g].failed
    requires NoneOf(At(w, i).chain, g)
    ensures Guarded(w, Acknowledge(i)) && ArrivesLate(w, Acknowledge(i))
    ensures
      var inst, c := At(w, i), At(w, i).chain[0];
      var w1 := Next(svc, w, Acknowledge(i));
      && (Enabled(svc, w1, Skip(g)) <==> inst.memory == c.snapshot && WrittenWith(c, inst.pending))
      && (Enabled(svc, w1, Skip(g)) ==>
            var w2 := Next(svc, w1, Skip(g));
            && Timely(w1, Skip(g)) && w2.leases[g].stage.Done? && !w2.leases[g].failed
            && (w2.issued[e] in LogOf(w2.store) <==>
                  w.issued[e] in if inst.memory == w.store.saved.value.snapshot then inst.trail else LogOf(w.store)))
  {
    var inst, c := At(w, i), At(w, i).chain[0];
    assert c in inst.chain && c.fence != g;
    var w1 := Next(svc, w, Acknowledge(i));
    var after := Acknowledged(svc, inst);
    assert At(w1, i) == after && w1.leases[g] == w.leases[g] && w1.store == w.store && w1.issued == w.issued;
    WrittenWithIff(svc, inst);
    assert NoneOf(after.chain, g);
    hide Acknowledged, WrittenWith;
    assert Unchanged(svc, after) <==> inst.memory == c.snapshot && WrittenWith(c, inst.pending);
  }

  /** Every pending object was written with this checkpoint. */
  ghost predicate WrittenWith(c: Checkpoint, pending: map<SessionId, Tagged>) {
    forall id :: id in pending ==> id in c.decisions && c.decisions[id] == pending[id]
  }

  lemma WrittenWithIff(svc: Service, inst: Instance)
    requires inst.chain != []
    ensures
      var after := Acknowledged(svc, inst);
      && after.memory == inst.memory && after.trail == inst.trail && after.chain == inst.chain[1..]
      && after.lastFingerprint == Some(svc.fingerprint(inst.chain[0].snapshot))
      && (after.pending == map[] <==> WrittenWith(inst.chain[0], inst.pending))
  {
    var c, after := inst.chain[0], Acknowledged(svc, inst);
    assert forall id :: id in after.pending <==>
      id in inst.pending && !(id in c.decisions && c.decisions[id] == inst.pending[id]);
    if WrittenWith(c, inst.pending) { assert forall id :: id !in after.pending; }
  }

  lemma EnlistNoneIff(inst: Instance, reported: map<SessionId, Decision>)
    ensures Enlist(inst, reported).pending == map[] <==> inst.pending == map[] && reported == map[]
  {
    var after := Enlist(inst, reported).pending;
    assert forall id :: id in after <==> id in inst.pending || id in reported;
    if after == map[] {
      assert forall id :: id !in inst.pending && id !in reported;
    }
  }

  // ---------------------------------------------------------------- reaching such a state

  /** Some timely run leads here. */
  ghost predicate Reached(svc: Service, w: World) {
    exists moves, worlds :: Leads(svc, moves, worlds, w)
  }

  ghost predicate Leads(svc: Service, moves: seq<Move>, worlds: seq<World>, w: World) {
    IsRun(svc, moves, worlds) && IsTimely(moves, worlds) && worlds[|moves|] == w
  }

  lemma ReachedStart(svc: Service)
    ensures Reached(svc, Start(svc))
  {
    assert Leads(svc, [], [Start(svc)], Start(svc));
  }

  lemma ReachedNext(svc: Service, w: World, m: Move)
    requires Reached(svc, w) && Enabled(svc, w, m) && Timely(w, m)
    ensures Reached(svc, Next(svc, w, m))
  {
    hide Next, Enabled, Timely;
    var moves, worlds :| Leads(svc, moves, worlds, w);
    LeadsOn(svc, moves, worlds, w, m);
    hide Leads;
    assert Leads(svc, moves + [m], worlds + [Next(svc, w, m)], Next(svc, w, m));
  }

  lemma LeadsOn(svc: Service, moves: seq<Move>, worlds: seq<World>, w: World, m: Move)
    requires Leads(svc, moves, worlds, w) && Enabled(svc, w, m) && Timely(w, m)
    ensures Leads(svc, moves + [m], worlds + [Next(svc, w, m)], Next(svc, w, m))
  {
    hide Next, Enabled, Timely;
    var moves', worlds' := moves + [m], worlds + [Next(svc, w, m)];
    forall k | 0 <= k < |moves'|
      ensures Enabled(svc, worlds'[k], moves'[k]) && worlds'[k + 1] == Next(svc, worlds'[k], moves'[k])
      ensures Timely(worlds'[k], moves'[k])
    {
      if k < |moves| { assert moves'[k] == moves[k] && worlds'[k] == worlds[k] && worlds'[k + 1] == worlds[k + 1]; }
    }
  }

  lemma PutOnly(w: World, inst: Instance)
    requires |w.instances| == 1 && Live(w, 0)
    ensures Put(w, 0, inst) == w.(instances := [Some(inst)])
  {
    assert w.instances[0 := Some(inst)] == [Some(inst)];
  }

  lemma EnlistNothing(inst: Instance)
    ensures Enlist(inst, map[]) == inst.(nextTag := inst.nextTag + 1)
  {
    var none: map<SessionId, Decision> := map[];
    assert inst.pending + (map id | id in none :: Tagged(inst.nextTag, none[id])) == inst.pending;
  }

  /** A process that is up to date: nothing pending, nothing queued. */
  function Idle(memory: State, trail: seq<Event>, tag: nat, fingerprint: Option<Fingerprint>): Instance {
    Instance(memory, trail, map[], tag, fingerprint, [])
  }

  /** One process after its first request has checkpointed a clean-up. */
  function AfterFirstCommit(svc: Service, s: State, e: Event): World {
    World(Store(1, Some(Stored(s, [e])), svc.access(s.queue), map[]),
          [Some(Idle(s, [e], 1, Some(svc.fingerprint(s))))],
          map[1 := Lease(0, Done, false)], [e], [Commit(1, Stored(s, [e]))])
  }

  /** A clean-up of the empty queue that resolves nothing. */
  ghost predicate QuietStart(svc: Service, nowMs: int) {
    ReportsResolutions(svc) && StartsEmpty(svc) && svc.reported(svc.empty, Cleanup(nowMs)) == map[]
  }

  lemma FirstWork(svc: Service, nowMs: int, w: World)
    requires QuietStart(svc, nowMs)
    requires w == FirstReady(svc)
    ensures
      var s := State(svc.step(svc.empty, Cleanup(nowMs)), false);
      var e := Event(0, None, Tick(nowMs));
      Next(svc, w, Work(0, None, Tick(nowMs))) ==
        w.(instances := [Some(Idle(s, [e], 1, None))], issued := [e])
  {
    var s := State(svc.step(svc.empty, Cleanup(nowMs)), false);
    var e := Event(0, None, Tick(nowMs));
    assert [] + [e] == [e];
    EnlistNothing(Idle(s, [e], 0, None));
    PutOnly(w, Idle(s, [e], 1, None));
  }

  /** One process whose first request is about to do its clean-up. */
  function FirstReady(svc: Service): World {
    World(Store(1, None, svc.access(svc.empty), map[]), [Some(Idle(Initial(svc), [], 0, None))],
          map[1 := Lease(0, Ready, false)], [], [])
  }

  lemma ReachFirstReady(svc: Service)
    ensures Reached(svc, FirstReady(svc))
  {
    hide Reached;
    var store := Store(0, None, svc.access(svc.empty), map[]);
    ReachedStart(svc);
    ReachedNext(svc, Start(svc), Boot);
    var w1 := World(store, [Some(Idle(Initial(svc), [], 0, None))], map[], [], []);
    assert Next(svc, Start(svc), Boot) == w1;
    ReachedNext(svc, w1, Acquire(0));
    var w2 := w1.(store := store.(fence := 1), leases := map[1 := Lease(0, Acquired, false)]);
    assert Next(svc, w1, Acquire(0)) == w2;
    ReachedNext(svc, w2, Load(1));
    var w3 := w2.(leases := map[1 := Lease(0, Loaded(None), false)]);
    assert Next(svc, w2, Load(1)) == w3;
    ReachedNext(svc, w3, Install(1));
    assert Next(svc, w3, Install(1)) == FirstReady(svc);
  }

  /** The first clean-up is stored and its request still waits for the reply. */
  function Outstanding(svc: Service, s: State, e: Event): World {
    AfterFirstCommit(svc, s, e).(
      instances := [Some(Idle(s, [e], 1, None).(chain := [Checkpoint(1, true, s, [e], map[], true)]))],
      leases := map[1 := Lease(0, Finalizing, false)])
  }

  lemma ReachOutstanding(svc: Service, nowMs: int)
    requires QuietStart(svc, nowMs)
    ensures
      var s := State(svc.step(svc.empty, Cleanup(nowMs)), false);
      Reached(svc, Outstanding(svc, s, Event(0, None, Tick(nowMs))))
  {
    hide Reached, QuietStart;
    var s := State(svc.step(svc.empty, Cleanup(nowMs)), false);
    var e := Event(0, None, Tick(nowMs));
    ReachFirstReady(svc);
    ReachedNext(svc, FirstReady(svc), Work(0, None, Tick(nowMs)));
    FirstWork(svc, nowMs, FirstReady(svc));
    CommitFirst(svc, FirstReady(svc).(instances := [Some(Idle(s, [e], 1, None))], issued := [e]), s, e);
  }

  lemma CommitFirst(svc: Service, w: World, s: State, e: Event)
    requires Reached(svc, w)
    requires w == FirstReady(svc).(instances := [Some(Idle(s, [e], 1, None))], issued := [e])
    ensures Reached(svc, Outstanding(svc, s, e))
  {
    hide Reached;
    var c := Checkpoint(1, true, s, [e], map[], false);
    var base := Idle(s, [e], 1, None);
    ReachedNext(svc, w, PersistFinal(1));
    var w1 := w.(instances := [Some(base.(chain := [c]))], leases := map[1 := Lease(0, Finalizing, false)]);
    assert Next(svc, w, PersistFinal(1)) == w1 by {
      assert base.chain + [c] == [c];
      PutOnly(w, base.(chain := [c]));
    }
    ReachedNext(svc, w1, Transact(0));
    FirstTransaction(svc, w1, s, e, c);
  }

  lemma ReachFirstCommit(svc: Service, nowMs: int)
    requires QuietStart(svc, nowMs)
    ensures
      var s := State(svc.step(svc.empty, Cleanup(nowMs)), false);
      Reached(svc, AfterFirstCommit(svc, s, Event(0, None, Tick(nowMs))))
  {
    ReachOutstanding(svc, nowMs);
    hide Reached, QuietStart;
    var s := State(svc.step(svc.empty, Cleanup(nowMs)), false);
    AcknowledgeFirst(svc, s, Event(0, None, Tick(nowMs)));
  }

  lemma AcknowledgeFirst(svc: Service, s: State, e: Event)
    requires Reached(svc, Outstanding(svc, s, e))
    ensures Reached(svc, AfterFirstCommit(svc, s, e))
  {
    hide Reached;
    var w := Outstanding(svc, s, e);
    ReachedNext(svc, w, Acknowledge(0));
    var acknowledged := Acknowledged(svc, At(w, 0));
    assert At(w, 0).chain[1..] == [];
    assert acknowledged.pending == map[];
    PutOnly(w, acknowledged);
    assert Next(svc, w, Acknowledge(0)) == AfterFirstCommit(svc, s, e);
  }

  lemma FirstTransaction(svc: Service, w: World, s: State, e: Event, c: Checkpoint)
    requires c == Checkpoint(1, true, s, [e], map[], false)
    requires w == FirstReady(svc).(instances := [Some(Idle(s, [e], 1, None).(chain := [c]))],
                                   leases := map[1 := Lease(0, Finalizing, false)], issued := [e])
    ensures Next(svc, w, Transact(0)) == Outstanding(svc, s, e)
  {
    var marked := Idle(s, [e], 1, None).(chain := [c.(committed := true)]);
    assert [c][0 := c.(committed := true)] == [c.(committed := true)];
    PutOnly(w, marked);
    assert w.history + [Commit(1, Stored(s, [e]))] == [Commit(1, Stored(s, [e]))];
    var none: map<SessionId, Decision> := map[];
    assert Written(none, map[]) == map[];
  }

  /** A second request works, and a third lease of the same process loads before the second ends. */
  lemma ReachOverlap(svc: Service, s: State, e: Event, op: Operation)
    requires Reached(svc, AfterFirstCommit(svc, s, e)) && svc.warranted(s.queue) == map[] && e.who == None
    requires Perform(svc, s, op).reported == map[]
    ensures
      exists w :: Reached(svc, w) && Overlap(svc, w)
  {
    hide Reached;
    var first := AfterFirstCommit(svc, s, e);
    var saved, mark := Some(Stored(s, [e])), Some(svc.fingerprint(s));
    ReachedNext(svc, first, Acquire(0));
    var w1 := first.(store := first.store.(fence := 2), leases := first.leases[2 := Lease(0, Acquired, false)]);
    assert Next(svc, first, Acquire(0)) == w1;
    ReachedNext(svc, w1, Load(2));
    var w2 := w1.(leases := first.leases[2 := Lease(0, Loaded(saved), false)]);
    assert Next(svc, w1, Load(2)) == w2;
    ReachedNext(svc, w2, Install(2));
    var w3 := w1.(leases := first.leases[2 := Lease(0, Ready, false)], instances := [Some(Idle(s, [e], 2, mark))]);
    assert Next(svc, w2, Install(2)) == w3 by {
      EnlistNothing(Idle(s, [e], 1, mark));
      PutOnly(w2, Idle(s, [e], 2, mark));
    }
    ReachWork(svc, w3, s, e, op);
  }

  /** The second request works, then the third lease is acquired and loads. */
  lemma ReachWork(svc: Service, w: World, s: State, e: Event, op: Operation)
    requires Reached(svc, w) && svc.warranted(s.queue) == map[] && Perform(svc, s, op).reported == map[]
    requires w == World(Store(2, Some(Stored(s, [e])), svc.access(s.queue), map[]),
                        [Some(Idle(s, [e], 2, Some(svc.fingerprint(s))))],
                        map[1 := Lease(0, Done, false), 2 := Lease(0, Ready, false)], [e], [Commit(1, Stored(s, [e]))])
    requires e.who == None
    ensures exists w' :: Reached(svc, w') && Overlap(svc, w')
  {
    hide Reached, Perform;
    var saved := Some(Stored(s, [e]));
    var e' := Event(1, Some(2), op);
    var worked := Idle(Perform(svc, s, op).state, [e, e'], 3, Some(svc.fingerprint(s)));
    ReachedNext(svc, w, Work(0, Some(2), op));
    var w1 := w.(instances := [Some(worked)], issued := [e, e']);
    assert Next(svc, w, Work(0, Some(2), op)) == w1 by {
      assert [e] + [e'] == [e, e'];
      EnlistNothing(worked.(nextTag := 2));
      PutOnly(w, worked);
    }
    ReachedNext(svc, w1, Acquire(0));
    var w2 := w1.(store := w1.store.(fence := 3), leases := w1.leases[3 := Lease(0, Acquired, false)]);
    assert Next(svc, w1, Acquire(0)) == w2;
    ReachedNext(svc, w2, Load(3));
    var w3 := w2.(leases := w1.leases[3 := Lease(0, Loaded(saved), false)]);
    assert Next(svc, w2, Load(3)) == w3;
    assert Overlap(svc, w3);
  }

  /** Where the third lease has loaded while the second still works: `LateSkipLosesWork` applies. */
  ghost predicate Overlap(svc: Service, w: World) {
    && w.store.fence == 3 && w.store.saved.Some?
    && HasLease(w, 3) && w.leases[3].stage == Loaded(w.store.saved)
    && InStage(w, 2, Ready) && !w.leases[2].failed && w.leases[2].instance == w.leases[3].instance
    && Of(w, 3).chain == [] && Of(w, 3).pending == map[]
    && svc.warranted(w.store.saved.value.snapshot.queue) == map[]
    && 1 < |w.issued| && w.issued[1].who == Some(2) && w.issued[1] !in LogOf(w.store)
  }

  /**
   The premise of `LateSkipLosesWork` is met by a timely run: after it, the third lease reloads in
   time, the second request is allowed to write nothing, ends without failure, and its operation is
   not stored.
   */
  lemma LateSkipIsReachable(svc: Service, nowMs: int, op: Operation)
    requires QuietStart(svc, nowMs)
    requires Perform(svc, State(svc.step(svc.empty, Cleanup(nowMs)), false), op).reported == map[]
    ensures
      exists w :: Reached(svc, w) && Overlap(svc, w)
        && Enabled(svc, w, Install(3)) && Timely(w, Install(3))
        && var reloaded := Next(svc, w, Install(3));
        && Enabled(svc, reloaded, Skip(2))
        && var skipped := Next(svc, reloaded, Skip(2));
        && skipped.leases[2].stage.Done? && !skipped.leases[2].failed
        && skipped.issued[1].who == Some(2) && skipped.issued[1] !in LogOf(skipped.store)
  {
    var s := State(svc.step(svc.empty, Cleanup(nowMs)), false);
    assert svc.warranted(s.queue) == map[];
    hide QuietStart, Perform, Reached;
    ReachFirstCommit(svc, nowMs);
    ReachOverlap(svc, s, Event(0, None, Tick(nowMs)), op);
    var w :| Reached(svc, w) && Overlap(svc, w);
    LateSkipLosesWork(svc, w, 2, 3, 1);
    SkippedIssues(svc, w);
  }

  lemma SkippedIssues(svc: Service, w: World)
    requires Enabled(svc, w, Install(3)) && Enabled(svc, Next(svc, w, Install(3)), Skip(2))
    ensures Next(svc, Next(svc, w, Install(3)), Skip(2)).issued == w.issued
  {
  }

  // ---------------------------------------------------------------- a late load

  /** The second lease has loaded; the third loads too, works, and commits. */
  ghost predicate LateLoad(svc: Service, w: World) {
    && w.store.fence == 3 && InStage(w, 3, Ready) && Of(w, 3).chain == [] && Of(w, 3).pending == map[]
    && HasLease(w, 2) && w.leases[2].instance == w.leases[3].instance
    && w.leases[2].stage.Loaded? && w.leases[2].stage.stored.Some?
    && svc.warranted(w.leases[2].stage.stored.value.snapshot.queue) == map[]
    && 1 < |w.issued| && w.issued[1].who == Some(3)
    && w.issued[1] in LogOf(w.store) && w.issued[1] !in w.leases[2].stage.stored.value.log
  }

  lemma ReachLateLoad(svc: Service, s: State, e: Event, op: Operation)
    requires Reached(svc, AfterFirstCommit(svc, s, e)) && svc.warranted(s.queue) == map[] && e.who == None
    requires Perform(svc, s, op).reported == map[]
    ensures exists w :: Reached(svc, w) && LateLoad(svc, w)
  {
    hide Reached, Perform;
    var first := AfterFirstCommit(svc, s, e);
    var saved, mark := Some(Stored(s, [e])), Some(svc.fingerprint(s));
    ReachedNext(svc, first, Acquire(0));
    var w1 := first.(store := first.store.(fence := 2), leases := first.leases[2 := Lease(0, Acquired, false)]);
    assert Next(svc, first, Acquire(0)) == w1;
    ReachedNext(svc, w1, Load(2));
    var w2 := w1.(leases := first.leases[2 := Lease(0, Loaded(saved), false)]);
    assert Next(svc, w1, Load(2)) == w2;
    ReachedNext(svc, w2, Acquire(0));
    var w3 := w2.(store := first.store.(fence := 3), leases := w2.leases[3 := Lease(0, Acquired, false)]);
    assert Next(svc, w2, Acquire(0)) == w3;
    ReachedNext(svc, w3, Load(3));
    var w4 := w3.(leases := w2.leases[3 := Lease(0, Loaded(saved), false)]);
    assert Next(svc, w3, Load(3)) == w4;
    ReachedNext(svc, w4, Install(3));
    var w5 := w3.(leases := w2.leases[3 := Lease(0, Ready, false)], instances := [Some(Idle(s, [e], 2, mark))]);
    assert Next(svc, w4, Install(3)) == w5 by {
      EnlistNothing(Idle(s, [e], 1, mark));
      PutOnly(w4, Idle(s, [e], 2, mark));
    }
    ReachSecondCommit(svc, w5, s, e, op);
  }

  /** The third request works and its checkpoint commits. */
  lemma ReachSecondCommit(svc: Service, w: World, s: State, e: Event, op: Operation)
    requires Reached(svc, w) && svc.warranted(s.queue) == map[]
    requires Perform(svc, s, op).reported == map[] && e.who == None
    requires w == World(Store(3, Some(Stored(s, [e])), svc.access(s.queue), map[]),
                        [Some(Idle(s, [e], 2, Some(svc.fingerprint(s))))],
                        map[1 := Lease(0, Done, false), 2 := Lease(0, Loaded(Some(Stored(s, [e]))), false),
                            3 := Lease(0, Ready, false)], [e], [Commit(1, Stored(s, [e]))])
    ensures exists w' :: Reached(svc, w') && LateLoad(svc, w')
  {
    hide Reached, Perform;
    var e' := Event(1, Some(3), op);
    var s' := Perform(svc, s, op).state;
    var worked := Idle(s', [e, e'], 3, Some(svc.fingerprint(s)));
    ReachedNext(svc, w, Work(0, Some(3), op));
    var w1 := w.(instances := [Some(worked)], issued := [e, e']);
    assert Next(svc, w, Work(0, Some(3), op)) == w1 by {
      assert [e] + [e'] == [e, e'];
      EnlistNothing(worked.(nextTag := 2));
      PutOnly(w, worked);
    }
    var c := Checkpoint(3, false, s', [e, e'], map[], false);
    ReachedNext(svc, w1, Persist(3));
    var w2 := w1.(instances := [Some(worked.(chain := [c]))]);
    assert Next(svc, w1, Persist(3)) == w2 by {
      assert worked.chain + [c] == [c];
      PutOnly(w1, worked.(chain := [c]));
    }
    ReachedNext(svc, w2, Transact(0));
    CommitSettles(svc, w2, worked, c);
  }

  /** The only checkpoint commits and is acknowledged. */
  lemma CommitSettles(svc: Service, w: World, inst: Instance, c: Checkpoint)
    requires w.instances == [Some(inst.(chain := [c]))] && inst.chain == [] && inst.pending == map[]
    requires c.decisions == map[] && !c.committed && !c.final
    requires c.fence == w.store.fence == 3 && w.store.decisions == map[]
    requires Enabled(svc, w, Transact(0)) && Reached(svc, Next(svc, w, Transact(0)))
    requires InStage(w, 3, Ready) && w.leases[3] == Lease(0, Ready, false)
    requires HasLease(w, 2) && w.leases[2].instance == 0 && w.leases[2].stage.Loaded? && w.leases[2].stage.stored.Some?
    requires svc.warranted(w.leases[2].stage.stored.value.snapshot.queue) == map[]
    requires 1 < |w.issued| && w.issued[1].who == Some(3)
    requires w.issued[1] in c.trail && w.issued[1] !in w.leases[2].stage.stored.value.log
    ensures exists w' :: Reached(svc, w') && LateLoad(svc, w')
  {
    hide Reached;
    var w1 := Next(svc, w, Transact(0));
    var marked := inst.(chain := [c.(committed := true)]);
    assert [c][0 := c.(committed := true)] == [c.(committed := true)];
    PutOnly(w, marked);
    assert w1.instances == [Some(marked)] && w1.leases == w.leases && w1.issued == w.issued;
    ReachedNext(svc, w1, Acknowledge(0));
    var w2 := Next(svc, w1, Acknowledge(0));
    assert Acknowledged(svc, marked).pending == map[] && Acknowledged(svc, marked).chain == [];
    PutOnly(w1, Acknowledged(svc, marked));
    assert w2.leases[3] == Lease(0, Ready, false);
    assert LateLoad(svc, w2);
  }

  /**
   The premises of `LateInstallLosesCommits` are met by a timely run, and a commit is really lost:
   an operation of the newest request is stored before the late load and not after it.
   */
  lemma LateInstallIsReachable(svc: Service, nowMs: int, op: Operation)
    requires QuietStart(svc, nowMs)
    requires Perform(svc, State(svc.step(svc.empty, Cleanup(nowMs)), false), op).reported == map[]
    ensures
      exists w :: Reached(svc, w) && LateLoad(svc, w) && Enabled(svc, w, Install(2))
        && var w1 := Next(svc, w, Install(2));
        && Enabled(svc, w1, Persist(3))
        && var w2 := Next(svc, w1, Persist(3));
        && Enabled(svc, w2, Transact(w.leases[3].instance))
        && var w3 := Next(svc, w2, Transact(w.leases[3].instance));
        && w.issued[1] in LogOf(w.store) && w.issued[1] !in LogOf(w3.store)
  {
    var s := State(svc.step(svc.empty, Cleanup(nowMs)), false);
    assert svc.warranted(s.queue) == map[];
    hide QuietStart, Perform, Reached;
    ReachFirstCommit(svc, nowMs);
    ReachLateLoad(svc, s, Event(0, None, Tick(nowMs)), op);
    var w :| Reached(svc, w) && LateLoad(svc, w);
    NothingConflicts(svc, w);
    hide Conflicts;
    LateInstallLosesCommits(svc, w, 2, 3);
  }

  lemma NothingConflicts(svc: Service, w: World)
    requires LateLoad(svc, w)
    ensures !Conflicts(w.store.decisions, Installed(svc, Of(w, 3), w.leases[2].stage.stored).pending)
  {
    EnlistNoneIff(Of(w, 3), svc.warranted(w.leases[2].stage.stored.value.snapshot.queue));
    assert Installed(svc, Of(w, 3), w.leases[2].stage.stored).pending == map[];
  }

  // ---------------------------------------------------------------- an early finaliser

  /** A second process has booted and acquired its first lease. */
  function SecondAcquired(svc: Service, s: State, e: Event): World {
    var first := AfterFirstCommit(svc, s, e);
    first.(store := first.store.(fence := 2), instances := first.instances + [Some(Fresh(svc))],
           leases := first.leases[2 := Lease(1, Acquired, false)])
  }

  lemma ReachSecondAcquired(svc: Service, s: State, e: Event)
    requires Reached(svc, AfterFirstCommit(svc, s, e))
    ensures Reached(svc, SecondAcquired(svc, s, e))
  {
    hide Reached;
    var first := AfterFirstCommit(svc, s, e);
    ReachedNext(svc, first, Boot);
    var w := first.(instances := first.instances + [Some(Fresh(svc))]);
    assert Next(svc, first, Boot) == w;
    ReachedNext(svc, w, Acquire(1));
    assert Next(svc, w, Acquire(1)) == SecondAcquired(svc, s, e);
  }

  /**
   The premises of `EarlyFinalLosesCommits` are met by a timely run: a process that has just booted
   acquires a lease after another process committed, and its finaliser runs before the load. The
   commit wipes what was stored.
   */
  lemma EarlyFinalIsReachable(svc: Service, nowMs: int)
    requires QuietStart(svc, nowMs)
    ensures
      exists w :: Reached(svc, w) && w.store.fence == 2 && Enabled(svc, w, EarlyFinal(2))
        && var w1 := Next(svc, w, EarlyFinal(2));
        && Enabled(svc, w1, Transact(1))
        && var w2 := Next(svc, w1, Transact(1));
        && LogOf(w.store) != [] && w2.store.saved == Some(Stored(Initial(svc), []))
  {
    var s := State(svc.step(svc.empty, Cleanup(nowMs)), false);
    var e := Event(0, None, Tick(nowMs));
    hide Reached, QuietStart;
    ReachFirstCommit(svc, nowMs);
    var w := SecondAcquired(svc, s, e);
    ReachSecondAcquired(svc, s, e);
    assert Refreshing(w, 2) && Enabled(svc, w, EarlyFinal(2));
    var c := Captured(Fresh(svc), 2, true);
    var w1 := Next(svc, w, EarlyFinal(2));
    assert [] + [c] == [c];
    assert At(w1, 1).chain == [c];
    assert !Conflicts(w1.store.decisions, c.decisions);
  }

  // ---------------------------------------------------------------- a late reply

  /** The first commit's reply is still on its way, and the third lease is back at what it stored. */
  ghost predicate LateReply(svc: Service, w: World) {
    && w.store.fence == 3 && InStage(w, 3, Ready) && w.leases[3] == Lease(0, Ready, false)
    && Enabled(svc, w, Acknowledge(0)) && NoneOf(At(w, 0).chain, 3) && At(w, 0).pending == map[]
    && w.store.saved.Some? && At(w, 0).memory == At(w, 0).chain[0].snapshot != w.store.saved.value.snapshot
    && 2 < |w.issued| && w.issued[2].who == Some(3) && w.issued[2] !in LogOf(w.store)
  }

  lemma PutOne(w: World, a: Instance, b: Instance, i: nat, inst: Instance)
    requires w.instances == [Some(a), Some(b)] && i < 2
    ensures Put(w, i, inst) == w.(instances := if i == 0 then [Some(inst), Some(b)] else [Some(a), Some(inst)])
  {
  }

  /** A second process takes over the first commit. */
  function SecondReady(svc: Service, s: State, e: Event): World {
    var first := Outstanding(svc, s, e);
    first.(store := first.store.(fence := 2),
           instances := first.instances + [Some(Idle(s, [e], 1, Some(svc.fingerprint(s))))],
           leases := first.leases[2 := Lease(1, Ready, false)])
  }

  lemma ReachSecondReady(svc: Service, s: State, e: Event)
    requires Reached(svc, Outstanding(svc, s, e)) && svc.warranted(s.queue) == map[]
    ensures Reached(svc, SecondReady(svc, s, e))
  {
    hide Reached;
    var first := Outstanding(svc, s, e);
    var saved, mark := Some(Stored(s, [e])), Some(svc.fingerprint(s));
    ReachedNext(svc, first, Boot);
    var w1 := first.(instances := first.instances + [Some(Fresh(svc))]);
    assert Next(svc, first, Boot) == w1;
    ReachedNext(svc, w1, Acquire(1));
    var w2 := w1.(store := w1.store.(fence := 2), leases := w1.leases[2 := Lease(1, Acquired, false)]);
    assert Next(svc, w1, Acquire(1)) == w2;
    ReachedNext(svc, w2, Load(2));
    var w3 := w2.(leases := w1.leases[2 := Lease(1, Loaded(saved), false)]);
    assert Next(svc, w2, Load(2)) == w3;
    ReachedNext(svc, w3, Install(2));
    EnlistNothing(Idle(s, [e], 0, mark));
    PutOne(w3, At(first, 0), Fresh(svc), 1, Idle(s, [e], 1, mark));
    assert Next(svc, w3, Install(2)) == SecondReady(svc, s, e);
  }

  /** The second process works and commits. */
  function SecondCommit(svc: Service, s: State, e: Event, t: State, e': Event): World {
    var ready := SecondReady(svc, s, e);
    var c := Checkpoint(2, false, t, [e, e'], map[], true);
    ready.(store := Store(2, Some(Stored(t, [e, e'])), svc.access(t.queue), map[]),
           instances := [ready.instances[0], Some(Idle(t, [e, e'], 2, Some(svc.fingerprint(s))).(chain := [c]))],
           issued := [e, e'], history := [Commit(1, Stored(s, [e])), Commit(2, Stored(t, [e, e']))])
  }

  lemma ReachWorked(svc: Service, s: State, e: Event, op: Operation, t: State)
    requires Reached(svc, SecondReady(svc, s, e)) && Perform(svc, s, op) == Outcome(t, map[])
    ensures Reached(svc, SecondReady(svc, s, e).(
      instances := [SecondReady(svc, s, e).instances[0],
                    Some(Idle(t, [e, Event(1, Some(2), op)], 2, Some(svc.fingerprint(s))))],
      issued := [e, Event(1, Some(2), op)]))
  {
    hide Reached, Perform;
    var w := SecondReady(svc, s, e);
    var e' := Event(1, Some(2), op);
    var worked := Idle(t, [e, e'], 2, Some(svc.fingerprint(s)));
    ReachedNext(svc, w, Work(1, Some(2), op));
    assert [e] + [e'] == [e, e'];
    EnlistNothing(worked.(nextTag := 1));
    PutOne(w, At(w, 0), At(w, 1), 1, worked);
  }

  lemma ReachSecond(svc: Service, s: State, e: Event, op: Operation, t: State)
    requires Reached(svc, SecondReady(svc, s, e)) && Perform(svc, s, op) == Outcome(t, map[])
    ensures Reached(svc, SecondCommit(svc, s, e, t, Event(1, Some(2), op)))
  {
    hide Reached, Perform;
    var ready, e' := SecondReady(svc, s, e), Event(1, Some(2), op);
    var worked := Idle(t, [e, e'], 2, Some(svc.fingerprint(s)));
    var c := Checkpoint(2, false, t, [e, e'], map[], false);
    ReachWorked(svc, s, e, op, t);
    var w := ready.(instances := [ready.instances[0], Some(worked)], issued := [e, e']);
    ReachedNext(svc, w, Persist(2));
    var w1 := w.(instances := [ready.instances[0], Some(worked.(chain := [c]))]);
    assert Next(svc, w, Persist(2)) == w1 by {
      assert worked.chain + [c] == [c];
      PutOne(w, At(ready, 0), worked, 1, worked.(chain := [c]));
    }
    ReachedNext(svc, w1, Transact(1));
    assert Next(svc, w1, Transact(1)) == SecondCommit(svc, s, e, t, e') by {
      assert [c][0 := c.(committed := true)] == [c.(committed := true)];
      PutOne(w1, At(ready, 0), worked.(chain := [c]), 1, worked.(chain := [c.(committed := true)]));
      assert w1.history + [Commit(2, Stored(t, [e, e']))] == [Commit(1, Stored(s, [e])), Commit(2, Stored(t, [e, e']))];
      var none: map<SessionId, Decision> := map[];
      assert Written(none, map[]) == map[];
    }
  }

  /** The first process gets the third lease, takes over the second commit and undoes it. */
  lemma ReachLateReply(svc: Service, s: State, e: Event, t: State, e': Event, undo: Operation)
    requires Reached(svc, SecondCommit(svc, s, e, t, e')) && svc.warranted(t.queue) == map[] && s != t
    requires Perform(svc, t, undo) == Outcome(s, map[])
    requires e.who != Some(3) && e'.who != Some(3)
    ensures exists w :: Reached(svc, w) && LateReply(svc, w)
  {
    hide Reached, Perform;
    var w := SecondCommit(svc, s, e, t, e');
    var saved := Some(Stored(t, [e, e']));
    ReachedNext(svc, w, Acquire(0));
    var w1 := w.(store := w.store.(fence := 3), leases := w.leases[3 := Lease(0, Acquired, false)]);
    assert Next(svc, w, Acquire(0)) == w1;
    ReachedNext(svc, w1, Load(3));
    var w2 := w1.(leases := w.leases[3 := Lease(0, Loaded(saved), false)]);
    assert Next(svc, w1, Load(3)) == w2;
    ThirdTakesOver(svc, w2, s, e, t, e', undo);
  }

  lemma ThirdTakesOver(svc: Service, w: World, s: State, e: Event, t: State, e': Event, undo: Operation)
    requires Reached(svc, w) && svc.warranted(t.queue) == map[] && s != t && Perform(svc, t, undo) == Outcome(s, map[])
    requires e.who != Some(3) && e'.who != Some(3)
    requires
      var before := SecondCommit(svc, s, e, t, e');
      w == before.(store := before.store.(fence := 3),
                   leases := before.leases[3 := Lease(0, Loaded(Some(Stored(t, [e, e']))), false)])
    ensures exists w' :: Reached(svc, w') && LateReply(svc, w')
  {
    hide Reached, Perform;
    ReachedNext(svc, w, Install(3));
    var taken := At(w, 0).(memory := t, trail := [e, e'], nextTag := 2, lastFingerprint := Some(svc.fingerprint(t)));
    var w' := w.(leases := w.leases[3 := Lease(0, Ready, false)], instances := [Some(taken), w.instances[1]]);
    assert Next(svc, w, Install(3)) == w' by {
      EnlistNothing(taken.(nextTag := 1));
      PutOne(w, At(w, 0), At(w, 1), 0, taken);
    }
    UndoReaches(svc, w', s, t, undo);
  }

  lemma UndoReaches(svc: Service, w: World, s: State, t: State, undo: Operation)
    requires Reached(svc, w) && Perform(svc, t, undo) == Outcome(s, map[]) && s != t
    requires w.store.fence == 3 && InStage(w, 3, Ready) && w.leases[3] == Lease(0, Ready, false)
    requires Enabled(svc, w, Acknowledge(0)) && NoneOf(At(w, 0).chain, 3) && At(w, 0).chain[0].snapshot == s
    requires At(w, 0).memory == t && At(w, 0).pending == map[]
    requires w.store.saved.Some? && w.store.saved.value.snapshot == t && |w.issued| == 2
    requires forall k :: 0 <= k < |LogOf(w.store)| ==> LogOf(w.store)[k].who != Some(3)
    ensures exists w' :: Reached(svc, w') && LateReply(svc, w')
  {
    hide Reached, Perform;
    ReachedNext(svc, w, Work(0, Some(3), undo));
    var w' := Next(svc, w, Work(0, Some(3), undo));
    EnlistNothing(At(w, 0).(memory := s, trail := At(w, 0).trail + [Event(2, Some(3), undo)]));
    assert LateReply(svc, w');
  }

  /**
   The premises of `LateAcknowledgeLosesWork` are met by a timely run, for a service with an operation
   that undoes another, such as draining an empty queue and resuming. The late reply lets the third
   request end without failure and without writing what it undid.
   */
  lemma LateAcknowledgeIsReachable(svc: Service, nowMs: int, op: Operation, undo: Operation, t: State)
    requires QuietStart(svc, nowMs) && TellsApart(svc)
    requires
      var s := State(svc.step(svc.empty, Cleanup(nowMs)), false);
      Perform(svc, s, op) == Outcome(t, map[]) && s != t && Perform(svc, t, undo) == Outcome(s, map[])
    ensures
      exists w :: Reached(svc, w) && LateReply(svc, w)
        && var replied := Next(svc, w, Acknowledge(0));
        && Enabled(svc, replied, Skip(3)) && Timely(replied, Skip(3))
        && var skipped := Next(svc, replied, Skip(3));
        && skipped.leases[3].stage.Done? && !skipped.leases[3].failed
        && skipped.issued[2].who == Some(3) && skipped.issued[2] !in LogOf(skipped.store)
  {
    var s := State(svc.step(svc.empty, Cleanup(nowMs)), false);
    var e := Event(0, None, Tick(nowMs));
    assert svc.warranted(s.queue) == map[];
    NothingWarranted(svc, s, op);
    ReachOutstanding(svc, nowMs);
    hide QuietStart, Perform, Reached, TellsApart;
    ReachSecondReady(svc, s, e);
    ReachSecond(svc, s, e, op, t);
    ReachLateReply(svc, s, e, t, Event(1, Some(2), op), undo);
    var w :| Reached(svc, w) && LateReply(svc, w);
    LateAcknowledgeLosesWork(svc, w, 0, 3, 2);
    RepliedIssues(svc, w);
  }

  lemma NothingWarranted(svc: Service, s: State, op: Operation)
    requires ReportsResolutions(svc) && svc.warranted(s.queue) == map[] && Perform(svc, s, op).reported == map[]
    ensures svc.warranted(Perform(svc, s, op).state.queue) == map[]
  {
    hide Perform;
    var after := svc.warranted(Perform(svc, s, op).state.queue);
    forall id ensures id !in after {
      if id in after { PerformReports(svc, s, op, id); }
    }
  }

  lemma RepliedIssues(svc: Service, w: World)
    requires LateReply(svc, w) && Enabled(svc, Next(svc, w, Acknowledge(0)), Skip(3))
    ensures Next(svc, Next(svc, w, Acknowledge(0)), Skip(3)).issued == w.issued
  {
  }
}
