/**
 The life of one request's runtime lease: opened by the `onRequest` hook, finalised by whichever of
 the `onSend`, `onResponse` and `onRequestAbort` hooks comes first, while the others wait for it.

 A step is a stretch of code between two awaits, or the outcome of what was awaited. Hooks may
 start, overlap and resume in any order. The trace records what was done.
 */
module LeaseFinalization {

  datatype Hook = OnSend | OnResponse | OnRequestAbort

  /** The `onRequest` hook: where it is, and how it ended. */
  datatype Opening = Idle | Acquiring | Refreshing | Opened | Refused | RefreshFailed

  /**
   The shared promise of the finalisation: whether the persist succeeded, and whether its release
   is the call that unlocks.
   */
  datatype Finalization = NotStarted | Persisting | Releasing(persisted: bool, unlocking: bool) | Settled(ok: bool)

  datatype Action =
    | Acquired | HandlerGot | HandlerRefused
    | PersistStarted | PersistEnded(ok: bool)
    | Unlocked | ReleasedAgain
    | HookPassed(hook: Hook) | HookReturned(hook: Hook, ok: bool)

  /** `overtaken` records that the lease was given up while its persist was running. */
  datatype Request = Request(
    opening: Opening,
    mapped: bool,
    released: bool,
    finalization: Finalization,
    waiting: set<Hook>,
    overtaken: bool,
    trace: seq<Action>)

  function Fresh(): Request { Request(Idle, false, false, NotStarted, {}, false, []) }

  datatype Step =
    | Open
    | AcquireSettles(ok: bool)
    | RefreshSettles(ok: bool)
    | HandlerAsks
    | HookStarts(hook: Hook)
    | PersistSettles(ok: bool)
    | ReleaseSettles(ok: bool)
    | HookResumes(hook: Hook)

  predicate HasOpened(r: Request) { r.opening.Opened? || r.opening.Refused? || r.opening.RefreshFailed? }

  /** A finaliser may start at any time, also while the `onRequest` hook still runs. */
  predicate Enabled(r: Request, step: Step) {
    match step
    case Open => r.opening.Idle?
    case AcquireSettles(_) => r.opening.Acquiring?
    case RefreshSettles(_) => r.opening.Refreshing?
    case HandlerAsks => r.opening.Opened?
    case HookStarts(hook) => hook !in r.waiting
    case PersistSettles(_) => r.finalization.Persisting?
    case ReleaseSettles(ok) => r.finalization.Releasing? && (ok || r.finalization.unlocking)
    case HookResumes(hook) => hook in r.waiting && r.finalization.Settled?
  }

  function Record(r: Request, a: Action): Request { r.(trace := r.trace + [a]) }

  /** A hook that finds the lease starts the finalisation unless it runs already, and waits for it. */
  function StartHook(r: Request, hook: Hook): Request {
    if !r.mapped then Record(r, HookPassed(hook))
    else
      var waiting := r.(waiting := r.waiting + {hook});
      if r.finalization.NotStarted? then Record(waiting.(finalization := Persisting), PersistStarted) else waiting
  }

  /** Releasing a lease unlocks it the first time and does nothing afterwards. */
  function GiveUp(r: Request): Request {
    if r.released then Record(r, ReleasedAgain) else Record(r.(released := true), Unlocked)
  }

  /** Whatever the persist came to, the lease leaves the map and is released. */
  function FinishPersist(r: Request, ok: bool): Request {
    GiveUp(Record(r.(mapped := false, finalization := Releasing(ok, !r.released)), PersistEnded(ok)))
  }

  function FailRefresh(r: Request): Request {
    GiveUp(r.(opening := RefreshFailed, mapped := false, overtaken := r.finalization.Persisting?))
  }

  function Next(r: Request, step: Step): Request
    requires Enabled(r, step)
  {
    match step
    case Open => r.(opening := Acquiring)
    case AcquireSettles(ok) =>
      if ok then Record(r.(opening := Refreshing, mapped := true), Acquired) else r.(opening := Refused)
    case RefreshSettles(ok) => if ok then r.(opening := Opened) else FailRefresh(r)
    case HandlerAsks => Record(r, if r.mapped && r.finalization.NotStarted? then HandlerGot else HandlerRefused)
    case HookStarts(hook) => StartHook(r, hook)
    case PersistSettles(ok) => FinishPersist(r, ok)
    case ReleaseSettles(ok) => r.(finalization := Settled(r.finalization.persisted && ok))
    case HookResumes(hook) => Record(r.(waiting := r.waiting - {hook}), HookReturned(hook, r.finalization.ok))
  }

  ghost predicate IsRun(steps: seq<Step>, states: seq<Request>) {
    && |states| == |steps| + 1 && states[0] == Fresh()
    && forall k :: 0 <= k < |steps| ==> Enabled(states[k], steps[k]) && states[k + 1] == Next(states[k], steps[k])
  }

  // ---------------------------------------------------------------- what the trace says

  datatype Kind =
    | Acquisition | HandlerLease | HandlerRefusal | PersistStart | PersistEnd
    | Unlock | RepeatedRelease | HookPass | HookReturn

  function KindOf(a: Action): Kind {
    match a
    case Acquired => Acquisition
    case HandlerGot => HandlerLease
    case HandlerRefused => HandlerRefusal
    case PersistStarted => PersistStart
    case PersistEnded(_) => PersistEnd
    case Unlocked => Unlock
    case ReleasedAgain => RepeatedRelease
    case HookPassed(_) => HookPass
    case HookReturned(_, _) => HookReturn
  }

  function Count(trace: seq<Action>, kind: Kind): nat {
    if trace == [] then 0
    else Count(trace[..|trace| - 1], kind) + if KindOf(trace[|trace| - 1]) == kind then 1 else 0
  }

  /** Every action of the one kind comes before every action of the other. */
  ghost predicate Precede(trace: seq<Action>, first: Kind, second: Kind) {
    forall i, j :: 0 <= i < |trace| && 0 <= j < |trace| && KindOf(trace[i]) == first && KindOf(trace[j]) == second ==>
      i < j
  }

  ghost predicate Absent(trace: seq<Action>, kind: Kind) {
    forall i :: 0 <= i < |trace| ==> KindOf(trace[i]) != kind
  }

  /** No action of the kind has been recorded exactly when its count is zero. */
  lemma {:induction false} AbsentIsZero(trace: seq<Action>, kind: Kind)
    ensures Absent(trace, kind) <==> Count(trace, kind) == 0
  {
    if trace != [] {
      var n := |trace| - 1;
      AbsentIsZero(trace[..n], kind);
      assert forall i :: 0 <= i < n ==> trace[..n][i] == trace[i];
    }
  }

  lemma RecordCounts(trace: seq<Action>, x: Action, kind: Kind)
    ensures Count(trace + [x], kind) == Count(trace, kind) + if KindOf(x) == kind then 1 else 0
  {
    assert (trace + [x])[..|trace|] == trace;
  }

  /** Recording an action keeps an order when nothing that must come later is there yet. */
  lemma RecordPrecedes(trace: seq<Action>, x: Action, first: Kind, second: Kind)
    requires Precede(trace, first, second) && first != second
    requires KindOf(x) == first ==> Count(trace, second) == 0
    ensures Precede(trace + [x], first, second)
  {
    AbsentIsZero(trace, second);
    hide Count;
  }

  /** The orders every request keeps, whenever its hooks run. */
  predicate Ordered(first: Kind, second: Kind) {
    || (first.Acquisition? && (second.HandlerLease? || second.PersistStart? || second.Unlock? || second.HookReturn?))
    || (first.HandlerLease? && second.PersistStart?)
    || (first.PersistStart? && (second.PersistEnd? || second.Unlock? || second.HookReturn?))
    || (first.PersistEnd? && second.HookReturn?)
    || (first.Unlock? && second.HookReturn?)
  }

  ghost predicate InOrder(trace: seq<Action>) {
    forall first, second {:trigger Precede(trace, first, second)} ::
      Ordered(first, second) ==> Precede(trace, first, second)
  }

  predicate Held(r: Request) { r.opening.Refreshing? || r.opening.Opened? || r.opening.RefreshFailed? }

  predicate PersistIsOver(r: Request) { r.finalization.Releasing? || r.finalization.Settled? }

  /** What has happened so far is visible in the state. */
  ghost predicate Counted(r: Request) {
    && Count(r.trace, Acquisition) == (if Held(r) then 1 else 0)
    && Count(r.trace, Unlock) == (if r.released then 1 else 0)
    && Count(r.trace, PersistStart) == (if r.finalization.NotStarted? then 0 else 1)
    && Count(r.trace, PersistEnd) == (if PersistIsOver(r) then 1 else 0)
    && (!r.opening.Opened? ==> Count(r.trace, HandlerLease) == 0)
    && (!r.finalization.Settled? ==> Count(r.trace, HookReturn) == 0)
  }

  ghost predicate Consistent(r: Request) {
    && (r.mapped <==> Held(r) && !r.released)
    && (r.released <==> r.opening.RefreshFailed? || PersistIsOver(r))
    && (!r.finalization.NotStarted? ==> Held(r))
    && (r.waiting != {} ==> !r.finalization.NotStarted?)
    && (r.overtaken ==> r.opening.RefreshFailed? && !r.finalization.NotStarted?)
    && (r.finalization.Persisting? && r.released ==> r.overtaken)
  }

  /** The persist ends before the lease is given up, unless it was overtaken. */
  ghost predicate PersistFirst(r: Request) {
    && (!r.overtaken ==> Precede(r.trace, PersistEnd, Unlock))
    && (r.overtaken && PersistIsOver(r) ==> !Precede(r.trace, PersistEnd, Unlock))
  }

  ghost predicate Inv(r: Request) { InOrder(r.trace) && Counted(r) && Consistent(r) && PersistFirst(r) }

  /** Recording one action whose successors have not happened yet. */
  lemma RecordKeepsOrder(trace: seq<Action>, x: Action)
    requires InOrder(trace)
    requires forall second :: Ordered(KindOf(x), second) ==> Count(trace, second) == 0
    ensures InOrder(trace + [x])
  {
    forall first, second | Ordered(first, second) ensures Precede(trace + [x], first, second) {
      assert Precede(trace, first, second);
      RecordPrecedes(trace, x, first, second);
    }
  }

  lemma RecordCountsAll(trace: seq<Action>, x: Action)
    ensures forall kind :: Count(trace + [x], kind) == Count(trace, kind) + if KindOf(x) == kind then 1 else 0
  {
    forall kind { RecordCounts(trace, x, kind); }
  }

  /** Recording anything but the end of the persist after an unlock leaves their order as it is. */
  lemma RecordKeepsPersistFirst(trace: seq<Action>, x: Action)
    requires KindOf(x) == PersistEnd ==> Count(trace, Unlock) == 0
    ensures Precede(trace, PersistEnd, Unlock) <==> Precede(trace + [x], PersistEnd, Unlock)
  {
    if Precede(trace, PersistEnd, Unlock) {
      RecordPrecedes(trace, x, PersistEnd, Unlock);
    } else {
      var i, j :| 0 <= i < |trace| && 0 <= j < |trace|
        && KindOf(trace[i]) == PersistEnd && KindOf(trace[j]) == Unlock && j <= i;
      var longer := trace + [x];
      assert KindOf(longer[i]) == PersistEnd && KindOf(longer[j]) == Unlock;
    }
  }

  /** The end of a persist recorded after the unlock. */
  lemma EndAfterUnlock(trace: seq<Action>, ok: bool)
    requires Count(trace, Unlock) > 0
    ensures !Precede(trace + [PersistEnded(ok)], PersistEnd, Unlock)
  {
    AbsentIsZero(trace, Unlock);
    var j :| 0 <= j < |trace| && KindOf(trace[j]) == Unlock;
    var longer := trace + [PersistEnded(ok)];
    assert KindOf(longer[j]) == Unlock && KindOf(longer[|trace|]) == PersistEnd;
  }

  lemma AcquireKeepsInv(r: Request)
    requires Inv(r) && Enabled(r, AcquireSettles(true))
    ensures Inv(Next(r, AcquireSettles(true)))
  {
    hide Precede;
    RecordCountsAll(r.trace, Acquired);
    RecordKeepsPersistFirst(r.trace, Acquired);
    hide InOrder, Count;
    RecordKeepsOrder(r.trace, Acquired);
  }

  lemma RefreshFailureKeepsInv(r: Request)
    requires Inv(r) && Enabled(r, RefreshSettles(false))
    ensures Inv(Next(r, RefreshSettles(false)))
  {
    hide Precede;
    var x := if r.released then ReleasedAgain else Unlocked;
    RecordCountsAll(r.trace, x);
    RecordKeepsPersistFirst(r.trace, x);
    hide InOrder, Count;
    RecordKeepsOrder(r.trace, x);
  }

  lemma HandlerKeepsInv(r: Request)
    requires Inv(r) && Enabled(r, HandlerAsks)
    ensures Inv(Next(r, HandlerAsks))
  {
    hide Precede;
    var x := if r.mapped && r.finalization.NotStarted? then HandlerGot else HandlerRefused;
    RecordCountsAll(r.trace, x);
    RecordKeepsPersistFirst(r.trace, x);
    hide InOrder, Count;
    RecordKeepsOrder(r.trace, x);
  }

  lemma StartKeepsInv(r: Request, hook: Hook)
    requires Inv(r) && Enabled(r, HookStarts(hook))
    ensures Inv(Next(r, HookStarts(hook)))
  {
    hide Precede;
    var x := if r.mapped then PersistStarted else HookPassed(hook);
    RecordCountsAll(r.trace, x);
    RecordKeepsPersistFirst(r.trace, x);
    hide InOrder, Count;
    if !r.mapped || r.finalization.NotStarted? { RecordKeepsOrder(r.trace, x); }
  }

  lemma PersistKeepsInv(r: Request, ok: bool)
    requires Inv(r) && Enabled(r, PersistSettles(ok))
    ensures Inv(Next(r, PersistSettles(ok)))
  {
    hide Precede;
    var ended := r.trace + [PersistEnded(ok)];
    var x := if r.released then ReleasedAgain else Unlocked;
    RecordCountsAll(r.trace, PersistEnded(ok));
    RecordCountsAll(ended, x);
    if r.released { EndAfterUnlock(r.trace, ok); } else { RecordKeepsPersistFirst(r.trace, PersistEnded(ok)); }
    RecordKeepsPersistFirst(ended, x);
    hide InOrder, Count;
    RecordKeepsOrder(r.trace, PersistEnded(ok));
    RecordKeepsOrder(ended, x);
  }

  lemma ResumeKeepsInv(r: Request, hook: Hook)
    requires Inv(r) && Enabled(r, HookResumes(hook))
    ensures Inv(Next(r, HookResumes(hook)))
  {
    hide Precede;
    var x := HookReturned(hook, r.finalization.ok);
    RecordCountsAll(r.trace, x);
    RecordKeepsPersistFirst(r.trace, x);
    hide InOrder, Count;
    RecordKeepsOrder(r.trace, x);
  }

  lemma NextKeepsInv(r: Request, step: Step)
    requires Inv(r) && Enabled(r, step)
    ensures Inv(Next(r, step))
  {
    match step
    case HandlerAsks => HandlerKeepsInv(r);
    case HookStarts(hook) => StartKeepsInv(r, hook);
    case PersistSettles(ok) => PersistKeepsInv(r, ok);
    case HookResumes(hook) => ResumeKeepsInv(r, hook);
    case AcquireSettles(ok) => if ok { AcquireKeepsInv(r); } else { hide InOrder, Count, Precede; }
    case RefreshSettles(ok) => if !ok { RefreshFailureKeepsInv(r); } else { hide InOrder, Count, Precede; }
    case _ => hide InOrder, Count, Precede;
  }

  lemma {:induction false} RunKeepsInv(steps: seq<Step>, states: seq<Request>, k: nat)
    requires IsRun(steps, states) && k <= |steps|
    ensures Inv(states[k])
    decreases k
  {
    if k > 0 {
      hide Inv, Next, Enabled;
      RunKeepsInv(steps, states, k - 1);
      assert states[k - 1 + 1] == Next(states[k - 1], steps[k - 1]);
      NextKeepsInv(states[k - 1], steps[k - 1]);
    }
  }

  // ---------------------------------------------------------------- guarantees

  /**
   In every order and overlap of the hooks, early ones included: at most one persist attempt; no
   handler obtains the lease once finalisation has started; and a hook that found the lease returns
   after the persist and the unlock.
   */
  lemma FinalizationIsOrdered(steps: seq<Step>, states: seq<Request>, k: nat)
    requires IsRun(steps, states) && k <= |steps|
    ensures Count(states[k].trace, PersistStart) <= 1
    ensures Precede(states[k].trace, PersistStart, PersistEnd) && Precede(states[k].trace, PersistStart, Unlock)
    ensures Precede(states[k].trace, HandlerLease, PersistStart)
    ensures Precede(states[k].trace, PersistEnd, HookReturn) && Precede(states[k].trace, Unlock, HookReturn)
  {
    RunKeepsInv(steps, states, k);
    hide IsRun, Count, Precede;
  }

  /** The refresh fails while a finaliser that started early is still persisting. */
  ghost predicate FailsUnderPersist(steps: seq<Step>, states: seq<Request>, k: nat)
    requires k <= |steps| == |states| - 1
  {
    exists j :: 0 <= j < k && steps[j] == RefreshSettles(false) && states[j].finalization.Persisting?
  }

  lemma NextOvertakes(r: Request, step: Step)
    requires Inv(r) && Enabled(r, step)
    ensures Next(r, step).overtaken <==> r.overtaken || (step == RefreshSettles(false) && r.finalization.Persisting?)
  {
    hide InOrder, Counted, PersistFirst;
  }

  lemma {:induction false} OvertakenWhenRefreshFails(steps: seq<Step>, states: seq<Request>, k: nat)
    requires IsRun(steps, states) && k <= |steps|
    ensures states[k].overtaken <==> FailsUnderPersist(steps, states, k)
    decreases k
  {
    if k > 0 {
      hide Inv, Next, Enabled;
      OvertakenWhenRefreshFails(steps, states, k - 1);
      RunKeepsInv(steps, states, k - 1);
      assert states[k - 1 + 1] == Next(states[k - 1], steps[k - 1]);
      NextOvertakes(states[k - 1], steps[k - 1]);
      if FailsUnderPersist(steps, states, k - 1) {
        var j :| 0 <= j < k - 1 && steps[j] == RefreshSettles(false) && states[j].finalization.Persisting?;
        assert 0 <= j < k;
      }
    }
  }

  /** The persist ends before the lease is given up exactly when no refresh fails under a running persist. */
  lemma PersistPrecedesUnlock(steps: seq<Step>, states: seq<Request>, k: nat)
    requires IsRun(steps, states) && k <= |steps| && PersistIsOver(states[k])
    ensures Precede(states[k].trace, PersistEnd, Unlock) <==> !FailsUnderPersist(steps, states, k)
  {
    RunKeepsInv(steps, states, k);
    OvertakenWhenRefreshFails(steps, states, k);
    hide IsRun, FailsUnderPersist, Precede, Count, InOrder;
  }

  /** No hook of the response runs before the `onRequest` hook has ended. */
  ghost predicate HooksWait(steps: seq<Step>, states: seq<Request>, k: nat)
    requires k <= |steps| == |states| - 1
  {
    forall j :: 0 <= j < k && steps[j].HookStarts? ==> HasOpened(states[j])
  }

  lemma NextWaits(r: Request, step: Step)
    requires Inv(r) && Enabled(r, step) && (step.HookStarts? ==> HasOpened(r))
    requires r.finalization.NotStarted? || r.opening.Opened?
    ensures Next(r, step).finalization.NotStarted? || Next(r, step).opening.Opened?
  {
    hide InOrder, Counted, PersistFirst;
  }

  lemma {:induction false} WaitingHooksFindItOpened(steps: seq<Step>, states: seq<Request>, k: nat)
    requires IsRun(steps, states) && k <= |steps| && HooksWait(steps, states, k)
    ensures states[k].finalization.NotStarted? || states[k].opening.Opened?
    decreases k
  {
    if k > 0 {
      hide Inv, Next, Enabled;
      WaitingHooksFindItOpened(steps, states, k - 1);
      RunKeepsInv(steps, states, k - 1);
      assert states[k - 1 + 1] == Next(states[k - 1], steps[k - 1]);
      NextWaits(states[k - 1], steps[k - 1]);
    }
  }

  /** When the hooks wait for the `onRequest` hook, every persist ends before the lease is given up. */
  lemma WaitingHooksPersistFirst(steps: seq<Step>, states: seq<Request>, k: nat)
    requires IsRun(steps, states) && k <= |steps| && HooksWait(steps, states, k)
    ensures Precede(states[k].trace, PersistEnd, Unlock)
  {
    WaitingHooksFindItOpened(steps, states, k);
    RunKeepsInv(steps, states, k);
    hide IsRun, HooksWait, Precede, Count, InOrder;
  }

  /** A request is at rest when nothing it awaits is outstanding. */
  predicate AtRest(r: Request) {
    HasOpened(r) && !r.finalization.Persisting? && !r.finalization.Releasing?
  }

  /**
   At rest an acquired lease has been unlocked exactly once if the refresh failed or any finaliser
   found it, and not at all otherwise; a lease that was never acquired is never unlocked.
   */
  lemma ReleasedExactlyOnce(steps: seq<Step>, states: seq<Request>, k: nat)
    requires IsRun(steps, states) && k <= |steps| && AtRest(states[k])
    ensures
      var r := states[k];
      Count(r.trace, Unlock) ==
        (if r.opening.RefreshFailed? || Count(r.trace, PersistStart) > 0 then Count(r.trace, Acquisition) else 0)
  {
    RunKeepsInv(steps, states, k);
    hide IsRun, Count, InOrder, Precede;
  }

  /** Once a finaliser runs, the two outcomes it awaits bring the request to rest, whatever they are. */
  lemma FinaliserComesToRest(r: Request, hook: Hook, persisted: bool, released: bool)
    requires Inv(r) && r.mapped && r.finalization.NotStarted?
    ensures Enabled(r, HookStarts(hook))
    ensures
      var started := Next(r, HookStarts(hook));
      && Enabled(started, PersistSettles(persisted))
      && var persistDone := Next(started, PersistSettles(persisted));
      && Enabled(persistDone, ReleaseSettles(released))
      && var settled := Next(persistDone, ReleaseSettles(released));
      && (HasOpened(r) ==> AtRest(settled)) && settled.finalization == Settled(persisted && released)
      && Count(settled.trace, Unlock) == 1 && Enabled(settled, HookResumes(hook))
  {
    hide InOrder, Count, Precede, PersistFirst;
    StartKeepsInv(r, hook);
    var started := Next(r, HookStarts(hook));
    PersistKeepsInv(started, persisted);
    var persistDone := Next(started, PersistSettles(persisted));
    assert Counted(persistDone);
    assert Next(persistDone, ReleaseSettles(released)).trace == persistDone.trace;
  }

  /** Taking one more step. */
  lemma RunsOn(steps: seq<Step>, states: seq<Request>, step: Step)
    requires IsRun(steps, states) && Enabled(states[|steps|], step)
    ensures IsRun(steps + [step], states + [Next(states[|steps|], step)])
  {
    hide Next, Enabled;
    var steps', states' := steps + [step], states + [Next(states[|steps|], step)];
    forall k | 0 <= k < |steps'|
      ensures Enabled(states'[k], steps'[k]) && states'[k + 1] == Next(states'[k], steps'[k])
    {
      if k < |steps| { assert steps'[k] == steps[k] && states'[k] == states[k] && states'[k + 1] == states[k + 1]; }
    }
  }

  /** A request whose abort hook starts while the refresh is outstanding, and whose refresh then fails. */
  function Aborted(persisted: bool): Request {
    Request(RefreshFailed, false, true, Settled(persisted), {OnRequestAbort}, true,
            [Acquired, PersistStarted, Unlocked, PersistEnded(persisted), ReleasedAgain])
  }

  /** Such a run exists: the lease is unlocked before the persist ends, and still only once. */
  lemma AbortDuringRefresh(persisted: bool)
    ensures exists steps, states :: IsRun(steps, states) && states[|steps|] == Aborted(persisted)
    ensures AtRest(Aborted(persisted)) && !Precede(Aborted(persisted).trace, PersistEnd, Unlock)
    ensures Count(Aborted(persisted).trace, Unlock) == 1
  {
    hide IsRun, Count;
    var steps, states := AbortRun(persisted);
    RunKeepsInv(steps, states, |steps|);
    assert Counted(Aborted(persisted));
    var trace := Aborted(persisted).trace;
    assert KindOf(trace[2]) == Unlock && KindOf(trace[3]) == PersistEnd;
  }

  lemma AbortRun(persisted: bool) returns (steps: seq<Step>, states: seq<Request>)
    ensures IsRun(steps, states) && states[|steps|] == Aborted(persisted)
  {
    steps, states := [], [Fresh()];
    assert IsRun(steps, states);
    hide IsRun;
    for n := 0 to 6
      invariant |states| == |steps| + 1 && |steps| == n && IsRun(steps, states)
      invariant states[n] == AbortedAfter(n, persisted)
    {
      RunsOn(steps, states, AbortStep(n, persisted));
      steps, states := steps + [AbortStep(n, persisted)], states + [Next(states[n], AbortStep(n, persisted))];
    }
  }

  function AbortStep(n: nat, persisted: bool): Step {
    match n
    case 0 => Open
    case 1 => AcquireSettles(true)
    case 2 => HookStarts(OnRequestAbort)
    case 3 => RefreshSettles(false)
    case 4 => PersistSettles(persisted)
    case _ => ReleaseSettles(true)
  }

  function AbortedAfter(n: nat, persisted: bool): Request {
    var hooks := {OnRequestAbort};
    match n
    case 0 => Fresh()
    case 1 => Fresh().(opening := Acquiring)
    case 2 => Request(Refreshing, true, false, NotStarted, {}, false, [Acquired])
    case 3 => Request(Refreshing, true, false, Persisting, hooks, false, [Acquired, PersistStarted])
    case 4 => Request(RefreshFailed, false, true, Persisting, hooks, true, [Acquired, PersistStarted, Unlocked])
    case 5 => Aborted(persisted).(finalization := Releasing(persisted, false))
    case _ => Aborted(persisted)
  }

  // ---------------------------------------------------------------- the request object

  /** The request's entry in the lease map and its lease's flag; each method is a stretch of code between awaits. */
  class RequestLease {
    var opening: Opening
    var mapped: bool
    var released: bool
    var finalization: Finalization
    var waiting: set<Hook>
    ghost var overtaken: bool
    ghost var trace: seq<Action>

    constructor ()
      ensures View() == Fresh()
    {
      opening, mapped, released, finalization, waiting := Idle, false, false, NotStarted, {};
      overtaken, trace := false, [];
    }

    ghost function View(): Request
      reads this
    {
      Request(opening, mapped, released, finalization, waiting, overtaken, trace)
    }

    method AcquireDone(ok: bool)
      requires Enabled(View(), AcquireSettles(ok))
      modifies this
      ensures View() == Next(old(View()), AcquireSettles(ok))
    {
      if ok {
        mapped := true;
        opening := Refreshing;
        trace := trace + [Acquired];
      } else {
        opening := Refused;
      }
    }

    /** Release the lease: the flag makes a second call do nothing. */
    method Release() returns (unlocked: bool)
      modifies this`released, this`trace
      ensures View() == GiveUp(old(View())) && unlocked == !old(released)
    {
      if released {
        trace := trace + [ReleasedAgain];
        return false;
      }
      released := true;
      trace := trace + [Unlocked];
      unlocked := true;
    }

    method RefreshDone(ok: bool)
      requires Enabled(View(), RefreshSettles(ok))
      modifies this
      ensures View() == Next(old(View()), RefreshSettles(ok))
    {
      if ok {
        opening := Opened;
      } else {
        overtaken := finalization.Persisting?;
        mapped := false;
        opening := RefreshFailed;
        var _ := Release();
      }
    }

    /** A handler obtains the lease only while it is mapped and not being finalised. */
    method Require() returns (granted: bool)
      requires Enabled(View(), HandlerAsks)
      modifies this`trace
      ensures View() == Next(old(View()), HandlerAsks)
      ensures granted <==> trace[|trace| - 1].HandlerGot?
    {
      granted := mapped && finalization.NotStarted?;
      trace := trace + [if granted then HandlerGot else HandlerRefused];
    }

    /** Finalise up to the first await; `returned` when there is nothing left to wait for. */
    method Finalize(hook: Hook) returns (returned: bool)
      requires Enabled(View(), HookStarts(hook))
      modifies this
      ensures View() == Next(old(View()), HookStarts(hook))
      ensures returned == !old(mapped)
    {
      if !mapped {
        trace := trace + [HookPassed(hook)];
        return true;
      }
      if finalization.NotStarted? {
        finalization := Persisting;
        trace := trace + [PersistStarted];
      }
      waiting := waiting + {hook};
      returned := false;
    }

    method PersistDone(ok: bool)
      requires Enabled(View(), PersistSettles(ok))
      modifies this
      ensures View() == Next(old(View()), PersistSettles(ok))
    {
      trace := trace + [PersistEnded(ok)];
      mapped := false;
      var unlocked := Release();
      finalization := Releasing(ok, unlocked);
    }

    method ReleaseDone(ok: bool)
      requires Enabled(View(), ReleaseSettles(ok))
      modifies this`finalization
      ensures View() == Next(old(View()), ReleaseSettles(ok))
    {
      finalization := Settled(finalization.persisted && ok);
    }
  }
}
