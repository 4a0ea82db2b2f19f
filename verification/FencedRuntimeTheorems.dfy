/**
 The guarantees of the fenced runtime over whole runs.
 */
module FencedRuntimeTheorems {
  import opened Wrappers
  import opened MatchmakingService
  import opened FencedRuntime
  import opened FencedRuntimeHistory
  import opened FencedRuntimeChain
  import opened FencedRuntimeReplies

  // ---------------------------------------------------------------- the log only grows

  /** No guarded move takes an operation back out of the stored log. */
  lemma NextExtendsLog(svc: Service, w: World, m: Move)
    requires Chained(w) && Enabled(svc, w, m) && Guarded(w, m)
    ensures LogOf(w.store) <= LogOf(Next(svc, w, m).store)
  {
    if m.Skip? {
      SkippedKeepsChain(w, m.f);
    } else if m.Transact? && Accepts(w.store, At(w, m.i).chain[0]) {
      CommitExtends(w, m.i);
    } else {
      hide Chained, Conflicts, NoneOf, Unchanged, Perform, Acknowledged, Installed;
    }
  }

  lemma {:induction false} LogGrows(svc: Service, moves: seq<Move>, worlds: seq<World>, k: nat, n: nat)
    requires IsRun(svc, moves, worlds) && IsGuarded(moves, worlds) && k <= n <= |moves|
    ensures LogOf(worlds[k].store) <= LogOf(worlds[n].store)
    decreases n
  {
    if k < n {
      assert |worlds| == |moves| + 1;
      hide IsRun, IsGuarded, LogOf;
      LogGrows(svc, moves, worlds, k, n - 1);
      StepGrows(svc, moves, worlds, n - 1);
      PrefixTransitive(LogOf(worlds[k].store), LogOf(worlds[n - 1].store), LogOf(worlds[n].store));
    }
  }

  lemma StepGrows(svc: Service, moves: seq<Move>, worlds: seq<World>, k: nat)
    requires IsRun(svc, moves, worlds) && IsGuarded(moves, worlds) && k < |moves|
    ensures LogOf(worlds[k].store) <= LogOf(worlds[k + 1].store)
  {
    hide Chained, Next, Enabled, Guarded, LogOf;
    RunIsChained(svc, moves, worlds, k);
    NextExtendsLog(svc, worlds[k], moves[k]);
  }

  // ---------------------------------------------------------------- one sequential service

  /** Performing further operations on a state. */
  function Continue(svc: Service, s: State, events: seq<Event>): State {
    if events == [] then s
    else Perform(svc, Continue(svc, s, events[..|events| - 1]), events[|events| - 1].op).state
  }

  lemma {:induction false} RunContinues(svc: Service, before: seq<Event>, after: seq<Event>)
    ensures Run(svc, before + after) == Continue(svc, Run(svc, before), after)
  {
    if after == [] {
      assert before + after == before;
    } else {
      var n := |after| - 1;
      RunContinues(svc, before, after[..n]);
      assert before + after == before + after[..n] + [after[n]];
      RunAppend(svc, before + after[..n], after[n]);
    }
  }

  /** The operations one commit adds to an earlier one. */
  function Added(earlier: Commit, later: Commit): seq<Event>
    requires |earlier.saved.log| <= |later.saved.log|
  {
    later.saved.log[|earlier.saved.log|..]
  }

  /**
   Fencing theorem. In every guarded run (no superseded lease installs or ends without writing, and
   finalisers wait for the refresh), whatever processes acquire, lose, work, commit, roll back and
   crash, and whenever replies arrive: each committed snapshot is an earlier committed snapshot with
   later operations performed on it, fence tokens never go back, and every operation takes effect at
   most once, in the order in which the operations were performed across all processes.
   */
  lemma CommitsFormOneChain(svc: Service, moves: seq<Move>, worlds: seq<World>, k: nat, a: nat, b: nat)
    requires IsRun(svc, moves, worlds) && IsGuarded(moves, worlds) && k <= |moves|
    requires a < b < |worlds[k].history|
    ensures
      var earlier, later := worlds[k].history[a], worlds[k].history[b];
      && earlier.saved.log <= later.saved.log && earlier.fence <= later.fence
      && later.saved.snapshot == Continue(svc, earlier.saved.snapshot, Added(earlier, later))
      && Ordered(worlds[k].issued, later.saved.log)
  {
    RunIsGenuine(svc, moves, worlds, k);
    RunIsChained(svc, moves, worlds, k);
    var earlier, later := worlds[k].history[a], worlds[k].history[b];
    assert GenuineStored(svc, worlds[k].issued, Some(earlier.saved));
    assert GenuineStored(svc, worlds[k].issued, Some(later.saved));
    hide ChainsOk, NewestOk, HeadsOk, LeasesKnown, GenuineInstances, GenuineLoads, Ordered, IsRun, IsGuarded, Run;
    assert later.saved.log == earlier.saved.log + Added(earlier, later);
    RunContinues(svc, earlier.saved.log, Added(earlier, later));
  }

  /** The first commit starts from the initial service. */
  lemma StoredIsSequential(svc: Service, moves: seq<Move>, worlds: seq<World>, k: nat)
    requires IsRun(svc, moves, worlds) && k <= |moves| && worlds[k].store.saved.Some?
    ensures worlds[k].store.saved.value.snapshot == Run(svc, LogOf(worlds[k].store))
    ensures Ordered(worlds[k].issued, LogOf(worlds[k].store))
  {
    RunIsGenuine(svc, moves, worlds, k);
    hide Ordered, Run, IsRun, GenuineInstances, GenuineLoads, GenuineHistory;
  }

  /** Only a transaction under the newest token changes what is stored. */
  lemma StaleWriterIsFenced(svc: Service, w: World, m: Move)
    requires Enabled(svc, w, m)
    ensures
      var w' := Next(svc, w, m);
      w'.history != w.history || w'.store.decisions != w.store.decisions
        || (w.store.saved.Some? &&
              (w'.store.saved.None? || w'.store.saved.value.snapshot != w.store.saved.value.snapshot))
      ==> m.Transact? && At(w, m.i).chain[0].fence == w.store.fence
  {
    hide Conflicts, NoneOf, Unchanged, Perform, Acknowledged, Installed;
  }

  // ---------------------------------------------------------------- success replies

  /**
   In every timely run (guarded, and no commit's reply reaches its process after a newer lease there
   has taken over the snapshot), a request that ended without failure, whether it committed or found nothing
   to write, has all its operations in the stored log, and they stay there.
   */
  lemma SuccessIsDurable(svc: Service, moves: seq<Move>, worlds: seq<World>, k: nat, n: nat, f: nat, e: nat)
    requires TellsApart(svc) && IsRun(svc, moves, worlds) && IsTimely(moves, worlds) && k <= n <= |moves|
    requires f in worlds[k].leases && worlds[k].leases[f].stage.Done? && !worlds[k].leases[f].failed
    requires e < |worlds[k].issued| && worlds[k].issued[e].who == Some(f)
    ensures worlds[k].issued[e] in LogOf(worlds[n].store)
  {
    RunIsDurable(svc, moves, worlds, k);
    TimelyIsGuarded(moves, worlds);
    LogGrows(svc, moves, worlds, k, n);
    assert AllIn(worlds[k].issued, f, LogOf(worlds[k].store)) by { LeaseIsDoneOk(worlds[k]); }
    hide Durable, FingerprintOk, IsRun, IsTimely, TellsApart, LogOf;
    var log := LogOf(worlds[k].store);
    var i :| 0 <= i < |log| && log[i] == worlds[k].issued[e];
    assert LogOf(worlds[n].store)[i] == log[i];
  }

  // ---------------------------------------------------------------- the session-access index

  /** The index is the projection of the stored snapshot; before the first one it is empty. */
  ghost predicate AccessOk(svc: Service, store: Store) {
    store.access == svc.access(if store.saved.None? then svc.empty else store.saved.value.snapshot.queue)
  }

  /** What clearing the index would leave. */
  function Cleared(svc: Service, store: Store): Store { store.(access := svc.access(svc.empty)) }

  lemma NextKeepsAccess(svc: Service, w: World, m: Move)
    requires AccessOk(svc, w.store) && Enabled(svc, w, m)
    ensures AccessOk(svc, Next(svc, w, m).store) <==> (m.ClearAccess? ==> AccessOk(svc, Cleared(svc, w.store)))
  {
    hide Conflicts, NoneOf, Unchanged, Perform, Acknowledged, Installed;
  }

  /** The start-up reset meets no stored snapshot, or one whose projection is empty. */
  ghost predicate ClearsNothing(svc: Service, moves: seq<Move>, worlds: seq<World>, k: nat)
    requires k <= |moves| == |worlds| - 1
  {
    forall j :: 0 <= j < k && moves[j].ClearAccess? ==> AccessOk(svc, Cleared(svc, worlds[j].store))
  }

  /**
   In every run, late replies and early finalisers included: the rows are the projection of the
   stored snapshot at every point exactly when no start-up reset meets a stored snapshot.
   */
  lemma {:induction false} AccessFollowsSnapshot(svc: Service, moves: seq<Move>, worlds: seq<World>, k: nat)
    requires IsRun(svc, moves, worlds) && k <= |moves|
    ensures (forall n :: 0 <= n <= k ==> AccessOk(svc, worlds[n].store)) <==> ClearsNothing(svc, moves, worlds, k)
    decreases k
  {
    hide Next, Enabled, AccessOk, Cleared;
    if k > 0 {
      AccessFollowsSnapshot(svc, moves, worlds, k - 1);
      assert Enabled(svc, worlds[k - 1], moves[k - 1]) && worlds[k - 1 + 1] == Next(svc, worlds[k - 1], moves[k - 1]);
      if AccessOk(svc, worlds[k - 1].store) { NextKeepsAccess(svc, worlds[k - 1], moves[k - 1]); }
    } else {
      StartsInAccess(svc);
    }
  }

  lemma StartsInAccess(svc: Service)
    ensures AccessOk(svc, Start(svc).store)
  {
  }

  /** In a guarded run a reset never meets a stored snapshot. */
  lemma GuardedClearsNothing(svc: Service, moves: seq<Move>, worlds: seq<World>, k: nat)
    requires IsRun(svc, moves, worlds) && IsGuarded(moves, worlds) && k <= |moves|
    ensures forall n :: 0 <= n <= k ==> AccessOk(svc, worlds[n].store)
  {
    hide Chained, Next, Enabled, Guarded, AccessOk, Cleared;
    forall j | 0 <= j < k && moves[j].ClearAccess? ensures AccessOk(svc, Cleared(svc, worlds[j].store)) {
      RunIsChained(svc, moves, worlds, j);
      assert Enabled(svc, worlds[j], moves[j]) && Guarded(worlds[j], moves[j]);
      ClearMeetsNothing(svc, worlds[j], moves[j].f);
    }
    AccessFollowsSnapshot(svc, moves, worlds, k);
  }

  lemma ClearMeetsNothing(svc: Service, w: World, f: nat)
    requires Chained(w) && Enabled(svc, w, ClearAccess(f)) && Guarded(w, ClearAccess(f))
    ensures AccessOk(svc, Cleared(svc, w.store))
  {
    hide Tethered, ChainsOk, HeadsOk, HistoryOk;
  }

  // ---------------------------------------------------------------- draining

  /**
   At every point of every run no ticket is queued in a draining state, stored or cached.
   */
  lemma NoTicketWhileDraining(svc: Service, moves: seq<Move>, worlds: seq<World>, k: nat)
    requires QueuesOnlyOnJoin(svc) && StartsEmpty(svc) && IsRun(svc, moves, worlds) && k <= |moves|
    ensures worlds[k].store.saved.Some? ==> Drained(svc, worlds[k].store.saved.value.snapshot)
    ensures forall i :: Live(worlds[k], i) ==> Drained(svc, At(worlds[k], i).memory)
    ensures forall n :: 0 <= n < |worlds[k].history| ==> Drained(svc, worlds[k].history[n].saved.snapshot)
  {
    RunIsGenuine(svc, moves, worlds, k);
    hide IsRun, GenuineWorld, Drained, QueuesOnlyOnJoin, StartsEmpty;
    DrainedEverywhere(svc, worlds[k]);
  }

  /** In every run a state drains exactly when the last drain or resume behind it is a drain. */
  lemma DrainingFollowsLog(svc: Service, moves: seq<Move>, worlds: seq<World>, k: nat)
    requires IsRun(svc, moves, worlds) && k <= |moves|
    ensures
      worlds[k].store.saved.Some? ==>
        (worlds[k].store.saved.value.snapshot.draining <==> Closed(LogOf(worlds[k].store)))
    ensures forall i :: Live(worlds[k], i) ==> (At(worlds[k], i).memory.draining <==> Closed(At(worlds[k], i).trail))
  {
    RunIsGenuine(svc, moves, worlds, k);
    var w := worlds[k];
    hide IsRun, Closed, Ordered, Run, GenuineLoads, GenuineHistory, GenuineChain;
    if w.store.saved.Some? { DrainingIsLastWord(svc, LogOf(w.store)); }
    forall i | Live(w, i) ensures At(w, i).memory.draining <==> Closed(At(w, i).trail) {
      DrainingIsLastWord(svc, At(w, i).trail);
    }
  }

  /** From a committed drain until a resume commits, no ticket is queued in storage. */
  lemma DrainedUntilResumed(svc: Service, moves: seq<Move>, worlds: seq<World>, k: nat)
    requires QueuesOnlyOnJoin(svc) && StartsEmpty(svc) && IsRun(svc, moves, worlds) && k <= |moves|
    requires worlds[k].store.saved.Some? && Closed(LogOf(worlds[k].store))
    ensures worlds[k].store.saved.value.snapshot.draining
    ensures svc.queued(worlds[k].store.saved.value.snapshot.queue) == {}
  {
    DrainingFollowsLog(svc, moves, worlds, k);
    NoTicketWhileDraining(svc, moves, worlds, k);
    hide IsRun, Closed, QueuesOnlyOnJoin, StartsEmpty;
  }
}
