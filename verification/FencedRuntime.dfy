/**
 Several API processes caching one matchmaking state.

 A request acquires a lease, which issues a new fence token, loads the stored snapshot into its
 process, works on the process memory, and checkpoints it: one transaction writes the snapshot,
 the session-access index and the outbox of terminal decisions, and is rejected unless the
 lease's token is still the newest. A process runs its checkpoints one after the other.

 Every move below is something a process does without interruption, or one database
 transaction, or the arrival of a database reply. Moves interleave freely, processes crash
 between any two of them, and a lease can be superseded at any time. `trail`, `log`, `issued` and
 `history` record what happened and influence nothing.
 */
module FencedRuntime {
  import opened Wrappers
  import opened MatchmakingService

  /** A queued decision; the tag stands for the identity of the decision object. */
  datatype Tagged = Tagged(tag: nat, decision: Decision)

  datatype Checkpoint = Checkpoint(
    fence: nat, final: bool, snapshot: State, trail: seq<Event>,
    decisions: map<SessionId, Tagged>, committed: bool)

  datatype Instance = Instance(
    memory: State, trail: seq<Event>,
    pending: map<SessionId, Tagged>, nextTag: nat,
    lastFingerprint: Option<Fingerprint>,
    chain: seq<Checkpoint>)

  datatype Stored = Stored(snapshot: State, log: seq<Event>)

  datatype Stage = Acquired | Loaded(stored: Option<Stored>) | Ready | Finalizing | Done

  /** A lease is known by its fence token. */
  datatype Lease = Lease(instance: nat, stage: Stage, failed: bool)

  datatype Store = Store(
    fence: nat, saved: Option<Stored>, access: AccessRows, decisions: map<SessionId, Decision>)

  datatype Commit = Commit(fence: nat, saved: Stored)

  datatype World = World(
    store: Store, instances: seq<Option<Instance>>, leases: map<nat, Lease>,
    issued: seq<Event>, history: seq<Commit>)

  // ---------------------------------------------------------------- inside one process

  function Fresh(svc: Service): Instance { Instance(Initial(svc), [], map[], 0, None, []) }

  /** Queue every reported decision as a new object, replacing an older one for the session. */
  function Enlist(inst: Instance, reported: map<SessionId, Decision>): Instance {
    inst.(pending := inst.pending + map id | id in reported :: Tagged(inst.nextTag, reported[id]),
          nextTag := inst.nextTag + 1)
  }

  /** Perform one operation on the process memory. */
  function Performed(svc: Service, inst: Instance, e: Event): Instance {
    var o := Perform(svc, inst.memory, e.op);
    Enlist(inst.(memory := o.state, trail := inst.trail + [e]), o.reported)
  }

  /** Take over a loaded snapshot; without one the memory stays as it is. */
  function Installed(svc: Service, inst: Instance, stored: Option<Stored>): Instance {
    match stored
    case None => inst.(lastFingerprint := None)
    case Some(s) =>
      Enlist(inst.(memory := s.snapshot, trail := s.log, lastFingerprint := Some(svc.fingerprint(s.snapshot))),
            svc.warranted(s.snapshot.queue))
  }

  function Captured(inst: Instance, fence: nat, final: bool): Checkpoint {
    Checkpoint(fence, final, inst.memory, inst.trail, inst.pending, false)
  }

  predicate Unchanged(svc: Service, inst: Instance) {
    inst.lastFingerprint == Some(svc.fingerprint(inst.memory)) && inst.pending == map[]
  }

  /** After the reply to a commit: remember the fingerprint, forget the very objects that were written. */
  function Acknowledged(svc: Service, inst: Instance): Instance
    requires inst.chain != []
  {
    var c := inst.chain[0];
    inst.(lastFingerprint := Some(svc.fingerprint(c.snapshot)),
          pending := map id | id in inst.pending && !(id in c.decisions && c.decisions[id] == inst.pending[id])
                            :: inst.pending[id],
          chain := inst.chain[1..])
  }

  // ---------------------------------------------------------------- the transaction

  /** A decision row is written once; a different decision for the same session aborts. */
  predicate Conflicts(decisions: map<SessionId, Decision>, queued: map<SessionId, Tagged>) {
    exists id :: id in queued && id in decisions && decisions[id] != queued[id].decision
  }

  function Written(decisions: map<SessionId, Decision>, queued: map<SessionId, Tagged>): map<SessionId, Decision> {
    decisions + map id | id in queued :: queued[id].decision
  }

  predicate Accepts(store: Store, c: Checkpoint) {
    c.fence == store.fence && !Conflicts(store.decisions, c.decisions)
  }

  function Saved(svc: Service, store: Store, c: Checkpoint): Store {
    Store(store.fence, Some(Stored(c.snapshot, c.trail)), svc.access(c.snapshot.queue),
          Written(store.decisions, c.decisions))
  }

  // ---------------------------------------------------------------- moves

  datatype Move =
    | Boot
    | Crash(i: nat)
    | Acquire(i: nat)
    | Load(f: nat)
    | ClearAccess(f: nat)
    | Install(f: nat)
    | Work(i: nat, who: Option<nat>, op: Operation)
    | Requeue(i: nat)
    | Persist(f: nat)
    | PersistFinal(f: nat)
    | EarlyFinal(f: nat)
    | Skip(f: nat)
    | Transact(i: nat)
    | RollBack(i: nat)
    | Acknowledge(i: nat)
    | LoseReply(i: nat)

  predicate Live(w: World, i: nat) { i < |w.instances| && w.instances[i].Some? }

  function At(w: World, i: nat): Instance
    requires Live(w, i)
  {
    w.instances[i].value
  }

  predicate HasLease(w: World, f: nat) { f in w.leases && Live(w, w.leases[f].instance) }

  predicate InStage(w: World, f: nat, stage: Stage) { HasLease(w, f) && w.leases[f].stage == stage }

  /** The request of this lease is still loading or has not installed what it loaded. */
  predicate Refreshing(w: World, f: nat) {
    HasLease(w, f) && (w.leases[f].stage.Acquired? || w.leases[f].stage.Loaded?)
  }

  /** The instance that holds a lease. */
  function Of(w: World, f: nat): Instance
    requires HasLease(w, f)
  {
    At(w, w.leases[f].instance)
  }

  predicate NoneOf(chain: seq<Checkpoint>, f: nat) {
    forall c :: c in chain ==> c.fence != f
  }

  predicate Enabled(svc: Service, w: World, m: Move) {
    match m
    case Boot => true
    case Crash(i) => Live(w, i)
    case Acquire(i) => Live(w, i)
    case Load(f) => InStage(w, f, Acquired)
    case ClearAccess(f) => InStage(w, f, Loaded(None))
    case Install(f) => HasLease(w, f) && w.leases[f].stage.Loaded?
    case Work(i, who, _) =>
      Live(w, i) && (who.Some? ==> InStage(w, who.value, Ready) && w.leases[who.value].instance == i)
    case Requeue(i) => Live(w, i)
    case Persist(f) => InStage(w, f, Ready)
    case PersistFinal(f) => InStage(w, f, Ready) && NoneOf(Of(w, f).chain, f) && !Unchanged(svc, Of(w, f))
    case EarlyFinal(f) => Refreshing(w, f) && NoneOf(Of(w, f).chain, f) && !Unchanged(svc, Of(w, f))
    case Skip(f) => InStage(w, f, Ready) && NoneOf(Of(w, f).chain, f) && Unchanged(svc, Of(w, f))
    case Transact(i) => Live(w, i) && At(w, i).chain != [] && !At(w, i).chain[0].committed
    case RollBack(i) => Live(w, i) && At(w, i).chain != [] && !At(w, i).chain[0].committed
    case Acknowledge(i) => Live(w, i) && At(w, i).chain != [] && At(w, i).chain[0].committed
    case LoseReply(i) => Live(w, i) && At(w, i).chain != [] && At(w, i).chain[0].committed
  }

  function Put(w: World, i: nat, inst: Instance): World
    requires Live(w, i)
  {
    w.(instances := w.instances[i := Some(inst)])
  }

  function SetLease(w: World, f: nat, stage: Stage, failed: bool): World
    requires f in w.leases
  {
    w.(leases := w.leases[f := Lease(w.leases[f].instance, stage, failed)])
  }

  /** A final checkpoint ends its request, unless the request was still refreshing. */
  function EndedStage(stage: Stage, final: bool): Stage {
    if final && stage.Finalizing? then Done else stage
  }

  /** The checkpoint at the head of the chain is over. */
  function Settle(w: World, i: nat, inst: Instance, failed: bool): World
    requires Live(w, i) && At(w, i).chain != []
  {
    var c := At(w, i).chain[0];
    var w' := Put(w, i, inst);
    if c.fence in w.leases
    then SetLease(w', c.fence, EndedStage(w.leases[c.fence].stage, c.final), failed || w.leases[c.fence].failed)
    else w'
  }

  function Rejected(w: World, i: nat): World
    requires Live(w, i) && At(w, i).chain != []
  {
    Settle(w, i, At(w, i).(chain := At(w, i).chain[1..]), true)
  }

  function Committed(svc: Service, w: World, i: nat): World
    requires Live(w, i) && At(w, i).chain != []
  {
    var inst := At(w, i);
    var c := inst.chain[0];
    Put(w, i, inst.(chain := inst.chain[0 := c.(committed := true)])).(
      store := Saved(svc, w.store, c),
      history := w.history + [Commit(c.fence, Stored(c.snapshot, c.trail))])
  }

  function Worked(svc: Service, w: World, i: nat, who: Option<nat>, op: Operation): World
    requires Live(w, i)
  {
    var e := Event(|w.issued|, who, op);
    Put(w, i, Performed(svc, At(w, i), e)).(issued := w.issued + [e])
  }

  function Pushed(w: World, f: nat, final: bool): World
    requires HasLease(w, f)
  {
    var inst := Of(w, f);
    Put(w, w.leases[f].instance, inst.(chain := inst.chain + [Captured(inst, f, final)]))
  }

  /** Nothing is written, so the operations since the last checkpoint count as performed. */
  function Skipped(w: World, f: nat): World
    requires HasLease(w, f)
  {
    var inst := Of(w, f);
    var w' := SetLease(w, f, Done, w.leases[f].failed);
    if w.store.saved.Some? && w.store.saved.value.snapshot == inst.memory
    then w'.(store := w.store.(saved := Some(Stored(inst.memory, inst.trail))))
    else w'
  }

  function Next(svc: Service, w: World, m: Move): World
    requires Enabled(svc, w, m)
  {
    match m
    case Boot => w.(instances := w.instances + [Some(Fresh(svc))])
    case Crash(i) => w.(instances := w.instances[i := None])
    case Acquire(i) =>
      var f := w.store.fence + 1;
      w.(store := w.store.(fence := f), leases := w.leases[f := Lease(i, Acquired, false)])
    case Load(f) => SetLease(w, f, Loaded(w.store.saved), w.leases[f].failed)
    case ClearAccess(f) => w.(store := w.store.(access := svc.access(svc.empty)))
    case Install(f) =>
      var installed := Installed(svc, Of(w, f), w.leases[f].stage.stored);
      SetLease(Put(w, w.leases[f].instance, installed), f, Ready, w.leases[f].failed)
    case Work(i, who, op) => Worked(svc, w, i, who, op)
    case Requeue(i) => Put(w, i, Enlist(At(w, i), svc.warranted(At(w, i).memory.queue)))
    case Persist(f) => Pushed(w, f, false)
    case PersistFinal(f) => SetLease(Pushed(w, f, true), f, Finalizing, w.leases[f].failed)
    case EarlyFinal(f) => Pushed(w, f, true)
    case Skip(f) => Skipped(w, f)
    case Transact(i) => if Accepts(w.store, At(w, i).chain[0]) then Committed(svc, w, i) else Rejected(w, i)
    case RollBack(i) => Rejected(w, i)
    case Acknowledge(i) => Settle(w, i, Acknowledged(svc, At(w, i)), false)
    case LoseReply(i) => Rejected(w, i)
  }

  /**
   The guards under which the commits form one chain. A superseded lease neither installs what it
   loaded nor decides to write nothing; and a finaliser runs only after the `onRequest` hook has
   ended: an abort during the refresh would persist memory that was not refreshed (the refresh goes
   on after that, and the model lets the request do more than the program would). Nothing in the
   program checks either of these; the advisory lock lives on the connection that carries the
   replies, so they are a matter of timing.
   */
  predicate Guarded(w: World, m: Move) {
    match m
    case ClearAccess(f) => f == w.store.fence
    case Install(f) => f == w.store.fence
    case EarlyFinal(_) => false
    case Skip(f) => f == w.store.fence
    case _ => true
  }

  /**
   A late reply: a commit's reply reaches its process after a newer lease there has taken over the
   stored snapshot.
   */
  predicate ArrivesLate(w: World, m: Move) {
    && m.Acknowledge? && Live(w, m.i) && At(w, m.i).chain != [] && At(w, m.i).chain[0].fence != w.store.fence
    && HasLease(w, w.store.fence) && w.leases[w.store.fence].instance == m.i && !Refreshing(w, w.store.fence)
  }

  predicate Timely(w: World, m: Move) { Guarded(w, m) && !ArrivesLate(w, m) }

  function Start(svc: Service): World {
    World(Store(0, None, svc.access(svc.empty), map[]), [], map[], [], [])
  }

  /** A run: every move is enabled where it happens. */
  ghost predicate IsRun(svc: Service, moves: seq<Move>, worlds: seq<World>) {
    && |worlds| == |moves| + 1 && worlds[0] == Start(svc)
    && forall k :: 0 <= k < |moves| ==>
         Enabled(svc, worlds[k], moves[k]) && worlds[k + 1] == Next(svc, worlds[k], moves[k])
  }

  ghost predicate IsGuarded(moves: seq<Move>, worlds: seq<World>)
    requires |worlds| == |moves| + 1
  {
    forall k :: 0 <= k < |moves| ==> Guarded(worlds[k], moves[k])
  }

  ghost predicate IsTimely(moves: seq<Move>, worlds: seq<World>)
    requires |worlds| == |moves| + 1
  {
    forall k :: 0 <= k < |moves| ==> Timely(worlds[k], moves[k])
  }

  lemma TimelyIsGuarded(moves: seq<Move>, worlds: seq<World>)
    requires |worlds| == |moves| + 1 && IsTimely(moves, worlds)
    ensures IsGuarded(moves, worlds)
  {
  }
}
