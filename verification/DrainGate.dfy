/**
 The deployment gate that drains matchmaking: start the drain, poll until the service is ready or
 the deadline passes, and on failure optionally reopen it.

 The environment decides how far the clock moves and what every request returns. The clock never
 goes back, and a sleep moves it by at least the time slept.
 */
module DrainGate {
  import opened Wrappers

  /** A response body; `Missing` is JSON null, whose fields cannot be read. */
  datatype Body = Missing | Runtime(ready: bool, draining: bool, acceptingJoins: bool)

  datatype Reply = Response(status: int, body: Body) | Threw

  /** What the k-th clock-consuming operation adds to the clock, and what the k-th request returns. */
  datatype Environment = Environment(delay: nat -> nat, reply: nat -> Reply)

  datatype Event =
    | PostDrain(draining: bool)
    | Poll(timeoutMs: int, at: int)
    | Examine(body: Body, at: int)

  datatype World = World(clock: int, operations: nat, requests: nat, trace: seq<Event>)

  datatype Config = Config(
    resume: bool, hasKey: bool, legacyBypass: bool, resumeOnFailure: bool,
    timeoutMs: int, pollMs: int, fetchMs: int)
  {
    predicate Valid() { timeoutMs > 0 && pollMs > 0 && fetchMs > 0 }
  }

  datatype Ending = Ready | TimedOut | Broken

  datatype Outcome = SkippedKey | SkippedLegacy | Drained | Resumed | Failed

  // ---------------------------------------------------------------- operations on the world

  function Tick(env: Environment, w: World, ms: nat): World {
    w.(clock := w.clock + ms + env.delay(w.operations), operations := w.operations + 1)
  }

  function Ask(env: Environment, w: World, e: Event): (World, Reply) {
    (Tick(env, w, 0).(requests := w.requests + 1, trace := w.trace + [e]), env.reply(w.requests))
  }

  predicate IsReady(body: Body) { body.Runtime? && body.ready && body.draining }

  // ---------------------------------------------------------------- the gate

  datatype RoundEnd = Stop(ending: Ending) | Continue(latest: Body)

  /** Waiting and asking again, after an answer that was not convincing. */
  function AskAgain(env: Environment, c: Config, w: World, deadline: int): (World, RoundEnd)
    requires c.Valid()
  {
    var measured := Tick(env, w, 0);
    if deadline - measured.clock <= 0 then (measured, Stop(TimedOut))
    else
      var slept := Tick(env, measured, Min(c.pollMs, deadline - measured.clock));
      var timed := Tick(env, slept, 0);
      var (asked, reply) := Ask(env, timed, Poll(Max(1, Min(c.fetchMs, deadline - timed.clock)), timed.clock));
      (asked, if reply.Threw? || reply.status != 200 then Stop(Broken) else Continue(reply.body))
  }

  /** One round of the loop: check the clock, examine the latest answer, ask again. */
  function Round(env: Environment, c: Config, w: World, latest: Body, deadline: int): (World, RoundEnd)
    requires c.Valid()
  {
    var checked := Tick(env, w, 0);
    if checked.clock > deadline then (checked, Stop(TimedOut))
    else
      var examined := checked.(trace := checked.trace + [Examine(latest, checked.clock)]);
      if latest.Missing? then (examined, Stop(Broken))
      else if IsReady(latest) then (examined, Stop(Ready))
      else AskAgain(env, c, examined, deadline)
  }

  lemma RoundAdvances(env: Environment, c: Config, w: World, latest: Body, deadline: int)
    requires c.Valid()
    ensures
      var (after, end) := Round(env, c, w, latest, deadline);
      && w.clock <= after.clock && w.requests <= after.requests
      && (end.Continue? ==> w.clock < deadline && w.clock < after.clock && after.requests == w.requests + 1)
      && (end.Stop? ==> after.requests <= w.requests + if w.clock < deadline then 1 else 0)
  {
  }

  /** The polling loop from the answer `latest` on. */
  function PollUntil(env: Environment, c: Config, w: World, latest: Body, deadline: int): (World, Ending)
    requires c.Valid()
    decreases Max(0, deadline - w.clock + 1)
  {
    var (after, end) := Round(env, c, w, latest, deadline);
    RoundAdvances(env, c, w, latest, deadline);
    match end
    case Stop(ending) => (after, ending)
    case Continue(body) => PollUntil(env, c, after, body, deadline)
  }

  /** The draining action; `Failed` stands for the thrown error. */
  function Drain(env: Environment, c: Config, w: World): (World, Outcome)
    requires c.Valid()
  {
    var (asked, reply) := Ask(env, w, PostDrain(true));
    if reply.Threw? then (asked, Failed)
    else if (reply.status == 404 || reply.status == 501) && c.legacyBypass then (asked, SkippedLegacy)
    else if reply.status != 200 then (asked, Failed)
    else
      var started := Tick(env, asked, 0);
      var (ended, ending) := PollUntil(env, c, started, reply.body, started.clock + c.timeoutMs);
      (ended, if ending.Ready? then Drained else Failed)
  }

  /** Reopening: the answer must confirm it, but a failure after a failed drain is swallowed. */
  function Reopen(env: Environment, c: Config, w: World): (World, Outcome) {
    var (asked, reply) := Ask(env, w, PostDrain(false));
    if reply.Threw? then (asked, Failed)
    else if (reply.status == 404 || reply.status == 501) && c.legacyBypass then (asked, SkippedLegacy)
    else if reply.status != 200 then (asked, Failed)
    else if reply.body.Runtime? && !reply.body.draining && reply.body.acceptingJoins then (asked, Resumed)
    else (asked, Failed)
  }

  function Gate(env: Environment, c: Config, w: World): (World, Outcome)
    requires c.Valid()
  {
    if !c.hasKey then (w, if c.legacyBypass then SkippedKey else Failed)
    else if c.resume then Reopen(env, c, w)
    else
      var (drained, outcome) := Drain(env, c, w);
      if outcome.Failed? && c.resumeOnFailure
      then (Ask(env, drained, PostDrain(false)).0, Failed)
      else (drained, outcome)
  }

  // ---------------------------------------------------------------- what the trace shows

  function Resumes(trace: seq<Event>): nat {
    if trace == [] then 0
    else Resumes(trace[..|trace| - 1]) + if trace[|trace| - 1] == PostDrain(false) then 1 else 0
  }

  lemma ResumesAppend(trace: seq<Event>, e: Event)
    ensures Resumes(trace + [e]) == Resumes(trace) + if e == PostDrain(false) then 1 else 0
  {
    assert (trace + [e])[..|trace|] == trace;
  }

  /** An answer that would let the gate succeed. */
  predicate Convincing(e: Event, deadline: int) { e.Examine? && IsReady(e.body) && e.at <= deadline }

  /** A poll waits for the fetch limit, or for what is left of the time, but at least a millisecond. */
  predicate Within(e: Event, c: Config, deadline: int) {
    e.Poll? ==>
      && 1 <= e.timeoutMs <= c.fetchMs && (e.timeoutMs > 1 ==> e.at + e.timeoutMs <= deadline)
      && (e.timeoutMs < c.fetchMs ==> e.at + e.timeoutMs >= deadline)
  }

  /** What a stretch of the loop adds to the trace: no posts, bounded polls, convincing answers as told. */
  ghost predicate Adds(before: seq<Event>, after: seq<Event>, c: Config, deadline: int, convinced: bool) {
    && before <= after && Resumes(after) == Resumes(before)
    && (forall k :: |before| <= k < |after| ==> Within(after[k], c, deadline))
    && (forall k :: |before| <= k < |after| ==> (Convincing(after[k], deadline) <==> convinced && k == |after| - 1))
    && (convinced ==> |before| < |after|)
  }

  lemma AddOne(before: seq<Event>, e: Event, c: Config, deadline: int)
    requires !e.PostDrain? && Within(e, c, deadline)
    ensures Adds(before, before + [e], c, deadline, Convincing(e, deadline))
  {
    ResumesAppend(before, e);
  }

  lemma AddMore(a: seq<Event>, b: seq<Event>, d: seq<Event>, c: Config, deadline: int, convinced: bool)
    requires Adds(a, b, c, deadline, false) && Adds(b, d, c, deadline, convinced)
    ensures Adds(a, d, c, deadline, convinced)
  {
    hide Resumes, Convincing, Within;
    assert forall k :: |a| <= k < |b| ==> d[k] == b[k];
  }

  lemma AddNothing(a: seq<Event>, c: Config, deadline: int)
    ensures Adds(a, a, c, deadline, false)
  {
  }

  lemma AskAgainTrace(env: Environment, c: Config, w: World, deadline: int)
    requires c.Valid()
    ensures Adds(w.trace, AskAgain(env, c, w, deadline).0.trace, c, deadline, false)
    ensures AskAgain(env, c, w, deadline).1 != Stop(Ready)
  {
    var measured := Tick(env, w, 0);
    if deadline - measured.clock > 0 {
      var slept := Tick(env, measured, Min(c.pollMs, deadline - measured.clock));
      var timed := Tick(env, slept, 0);
      AddOne(w.trace, Poll(Max(1, Min(c.fetchMs, deadline - timed.clock)), timed.clock), c, deadline);
    } else {
      AddNothing(w.trace, c, deadline);
    }
    hide Adds;
  }

  lemma RoundTrace(env: Environment, c: Config, w: World, latest: Body, deadline: int)
    requires c.Valid()
    ensures
      var (after, end) := Round(env, c, w, latest, deadline);
      Adds(w.trace, after.trace, c, deadline, end == Stop(Ready))
  {
    hide Adds;
    var checked := Tick(env, w, 0);
    AddNothing(w.trace, c, deadline);
    if checked.clock <= deadline {
      var examined := checked.(trace := checked.trace + [Examine(latest, checked.clock)]);
      AddOne(w.trace, Examine(latest, checked.clock), c, deadline);
      if latest.Runtime? && !IsReady(latest) {
        AskAgainTrace(env, c, examined, deadline);
        AddMore(w.trace, examined.trace, AskAgain(env, c, examined, deadline).0.trace, c, deadline, false);
      }
    }
  }

  /** The loop posts nothing, waits no longer than allowed, and stops at the first convincing answer. */
  lemma {:induction false} PollUntilTrace(env: Environment, c: Config, w: World, latest: Body, deadline: int)
    requires c.Valid()
    ensures
      var (after, ending) := PollUntil(env, c, w, latest, deadline);
      Adds(w.trace, after.trace, c, deadline, ending.Ready?)
    decreases Max(0, deadline - w.clock + 1)
  {
    hide Round, Adds;
    var (after, end) := Round(env, c, w, latest, deadline);
    RoundAdvances(env, c, w, latest, deadline);
    RoundTrace(env, c, w, latest, deadline);
    if end.Continue? {
      PollUntilTrace(env, c, after, end.latest, deadline);
      AddMore(w.trace, after.trace, PollUntil(env, c, after, end.latest, deadline).0.trace, c, deadline,
              PollUntil(env, c, after, end.latest, deadline).1.Ready?);
    }
  }

  /**
   A drain succeeds exactly on an examined answer that is ready and draining no later than the
   deadline, and never sends a resume on success.
   */
  lemma DrainSucceedsOnReadyAnswer(env: Environment, c: Config, w: World)
    requires c.Valid() && c.hasKey && !c.resume && w.trace == []
    ensures
      var (after, outcome) := Gate(env, c, w);
      var deadline := Tick(env, Ask(env, w, PostDrain(true)).0, 0).clock + c.timeoutMs;
      && (outcome.Drained? <==> exists k :: 0 <= k < |after.trace| && Convincing(after.trace[k], deadline))
      && (outcome.Drained? ==> Convincing(after.trace[|after.trace| - 1], deadline) && Resumes(after.trace) == 0)
  {
    DrainTrace(env, c, w);
    var (drained, outcome) := Drain(env, c, w);
    var deadline := Tick(env, Ask(env, w, PostDrain(true)).0, 0).clock + c.timeoutMs;
    hide Drain, Resumes, Convincing;
    if outcome.Drained? { assert Convincing(drained.trace[|drained.trace| - 1], deadline); }
    assert !Convincing(PostDrain(false), deadline) by { NotConvincing(deadline); }
    var after := Gate(env, c, w).0;
    if !outcome.Drained? {
      forall k | 0 <= k < |after.trace| ensures !Convincing(after.trace[k], deadline) {
        if k < |drained.trace| { assert after.trace[k] == drained.trace[k]; }
      }
    }
  }

  lemma NotConvincing(deadline: int)
    ensures !Convincing(PostDrain(false), deadline) && !Convincing(PostDrain(true), deadline)
  {
  }

  /** The trace of a drain before any failure handling. */
  lemma DrainTrace(env: Environment, c: Config, w: World)
    requires c.Valid() && w.trace == []
    ensures
      var (after, outcome) := Drain(env, c, w);
      var deadline := Tick(env, Ask(env, w, PostDrain(true)).0, 0).clock + c.timeoutMs;
      && |after.trace| > 0 && after.trace[0] == PostDrain(true) && Resumes(after.trace) == 0
      && (forall k :: 0 <= k < |after.trace| ==> Within(after.trace[k], c, deadline))
      && (forall k :: 0 <= k < |after.trace| ==>
            (Convincing(after.trace[k], deadline) <==> outcome.Drained? && k == |after.trace| - 1))
  {
    hide PollUntil, Resumes;
    var (asked, reply) := Ask(env, w, PostDrain(true));
    var started := Tick(env, asked, 0);
    ResumesAppend([], PostDrain(true));
    assert Resumes([]) == 0 by { NoResumes(); }
    assert asked.trace == [PostDrain(true)];
    if reply.Response? && reply.status == 200 {
      PollUntilTrace(env, c, started, reply.body, started.clock + c.timeoutMs);
    }
  }

  lemma NoResumes()
    ensures Resumes([]) == 0
  {
  }

  /** A failed drain sends exactly one resume, as its last request, if and only if it was asked to. */
  lemma FailedDrainResumesIffAsked(env: Environment, c: Config, w: World)
    requires c.Valid() && c.hasKey && !c.resume && w.trace == []
    ensures
      var (after, outcome) := Gate(env, c, w);
      var deadline := Tick(env, Ask(env, w, PostDrain(true)).0, 0).clock + c.timeoutMs;
      && (outcome.Failed? ==> Resumes(after.trace) == if c.resumeOnFailure then 1 else 0)
      && (!outcome.Failed? ==> Resumes(after.trace) == 0)
      && (outcome.Failed? && c.resumeOnFailure ==> after.trace[|after.trace| - 1] == PostDrain(false))
      && |after.trace| > 0 && after.trace[0] == PostDrain(true)
      && (forall k :: 0 <= k < |after.trace| ==> Within(after.trace[k], c, deadline))
  {
    DrainTrace(env, c, w);
    var drained := Drain(env, c, w).0;
    ResumesAppend(drained.trace, PostDrain(false));
    hide Drain, Resumes, Convincing;
  }

  lemma RoundIsSpaced(env: Environment, c: Config, w: World, latest: Body, deadline: int)
    requires c.Valid()
    ensures
      var (after, end) := Round(env, c, w, latest, deadline);
      && (end.Continue? ==> after.clock >= Min(w.clock + c.pollMs, deadline))
      && (after.requests > w.requests ==> w.clock < deadline)
  {
  }

  /** Polls are spaced: all but the last one each use up a polling interval of the time left. */
  lemma {:induction false} PollsAreBounded(env: Environment, c: Config, w: World, latest: Body, deadline: int)
    requires c.Valid()
    ensures
      var polls := PollUntil(env, c, w, latest, deadline).0.requests - w.requests;
      0 <= polls && (polls > 0 ==> (polls - 1) * c.pollMs < deadline - w.clock)
    decreases Max(0, deadline - w.clock + 1)
  {
    hide Round;
    var (after, end) := Round(env, c, w, latest, deadline);
    RoundAdvances(env, c, w, latest, deadline);
    RoundIsSpaced(env, c, w, latest, deadline);
    if end.Continue? {
      PollsAreBounded(env, c, after, end.latest, deadline);
      hide PollUntil;
      var later := PollUntil(env, c, after, end.latest, deadline).0.requests - after.requests;
      SpacedStep(later, c.pollMs, w.clock, after.clock, deadline);
    }
  }

  lemma SpacedStep(later: nat, pollMs: int, before: int, after: int, deadline: int)
    requires pollMs > 0 && before < deadline && after >= Min(before + pollMs, deadline)
    requires later > 0 ==> (later - 1) * pollMs < deadline - after
    ensures later * pollMs < deadline - before
  {
    if later > 0 {
      ProductPositive(later - 1, pollMs);
      assert later * pollMs == (later - 1) * pollMs + pollMs;
    }
  }

  lemma ProductPositive(a: nat, b: nat)
    ensures a * b >= 0
  {
  }

  // ---------------------------------------------------------------- which answers are examined, and why it ends

  /** Every examined answer is the body of the reply to the request before it, and that reply was a 200. */
  ghost predicate Shows(env: Environment, first: nat, trace: seq<Event>) {
    forall k :: 0 <= k < |trace| && trace[k].Examine? ==> env.reply(first + k / 2) == Response(200, trace[k].body)
  }

  /** The loop holds the answer to its latest request and has not examined it yet. */
  ghost predicate InStep(env: Environment, first: nat, w: World, latest: Body) {
    && w.requests > first && |w.trace| + 1 == 2 * (w.requests - first)
    && env.reply(w.requests - 1) == Response(200, latest) && Shows(env, first, w.trace)
  }

  predicate Useless(reply: Reply) { reply.Threw? || reply.status != 200 || reply.body.Missing? }

  /** The deadline has passed, or is reached and the latest answer has been examined. */
  predicate TimeIsUp(clock: int, trace: seq<Event>, deadline: int) {
    clock > deadline || (clock == deadline && trace != [] && trace[|trace| - 1].Examine?)
  }

  /** Why a loop ended: an answer was ready, the time was up, or an answer was no use. */
  ghost predicate EndsFor(env: Environment, w: World, ending: Ending, deadline: int)
    requires w.requests > 0
  {
    match ending
    case Ready => true
    case TimedOut => TimeIsUp(w.clock, w.trace, deadline)
    case Broken => Useless(env.reply(w.requests - 1))
  }

  lemma RoundShows(env: Environment, c: Config, first: nat, w: World, latest: Body, deadline: int)
    requires c.Valid() && InStep(env, first, w, latest)
    ensures
      var (after, end) := Round(env, c, w, latest, deadline);
      && Shows(env, first, after.trace) && after.requests > 0
      && match end
         case Continue(body) => InStep(env, first, after, body)
         case Stop(ending) => EndsFor(env, after, ending, deadline)
  {
  }

  lemma {:induction false} PollUntilShows(env: Environment, c: Config, first: nat, w: World, latest: Body,
                                          deadline: int)
    requires c.Valid() && InStep(env, first, w, latest)
    ensures
      var (after, ending) := PollUntil(env, c, w, latest, deadline);
      && Shows(env, first, after.trace) && after.requests > 0 && EndsFor(env, after, ending, deadline)
    decreases Max(0, deadline - w.clock + 1)
  {
    hide Round, InStep, Shows, EndsFor;
    var (after, end) := Round(env, c, w, latest, deadline);
    RoundAdvances(env, c, w, latest, deadline);
    RoundShows(env, c, first, w, latest, deadline);
    if end.Continue? { PollUntilShows(env, c, first, after, end.latest, deadline); }
  }

  lemma StartsInStep(env: Environment, w: World)
    requires w.trace == []
    ensures
      var (asked, reply) := Ask(env, w, PostDrain(true));
      && Shows(env, w.requests, asked.trace) && (!(reply.Response? && reply.status == 200) ==> asked.requests > 0)
      && (reply.Response? && reply.status == 200 ==> InStep(env, w.requests, Tick(env, asked, 0), reply.body))
      && (!(reply.Response? && reply.status == 200) ==> Useless(env.reply(asked.requests - 1)))
  {
    assert Ask(env, w, PostDrain(true)).0.trace == [PostDrain(true)];
  }

  lemma DrainShows(env: Environment, c: Config, w: World)
    requires c.Valid() && w.trace == []
    ensures
      var (after, outcome) := Drain(env, c, w);
      var deadline := Tick(env, Ask(env, w, PostDrain(true)).0, 0).clock + c.timeoutMs;
      var first := env.reply(w.requests);
      && Shows(env, w.requests, after.trace) && after.requests > 0
      && (outcome.SkippedLegacy? <==>
            first.Response? && (first.status == 404 || first.status == 501) && c.legacyBypass)
      && (outcome.Failed? ==> TimeIsUp(after.clock, after.trace, deadline) || Useless(env.reply(after.requests - 1)))
      && !outcome.SkippedKey? && !outcome.Resumed?
  {
    var (asked, reply) := Ask(env, w, PostDrain(true));
    var started := Tick(env, asked, 0);
    StartsInStep(env, w);
    hide PollUntil, InStep, Shows, TimeIsUp, Useless;
    if reply.Response? && reply.status == 200 {
      PollUntilShows(env, c, w.requests, started, reply.body, started.clock + c.timeoutMs);
    }
  }

  /**
   The drain acts on real answers: it examines the bodies of the replies in order, skips exactly when
   the first reply is a 404 or 501 under the bypass, and fails only when a reply was an error, not a
   200 or without a body, or when the time was up.
   */
  lemma DrainActsOnReplies(env: Environment, c: Config, w: World)
    requires c.Valid() && c.hasKey && !c.resume && w.trace == []
    ensures
      var (after, outcome) := Gate(env, c, w);
      var deadline := Tick(env, Ask(env, w, PostDrain(true)).0, 0).clock + c.timeoutMs;
      var first, drained := env.reply(w.requests), Drain(env, c, w).0;
      && Shows(env, w.requests, after.trace) && drained.requests > 0
      && (outcome.SkippedLegacy? <==>
            first.Response? && (first.status == 404 || first.status == 501) && c.legacyBypass)
      && (outcome.Failed? ==>
            TimeIsUp(drained.clock, drained.trace, deadline) || Useless(env.reply(drained.requests - 1)))
      && !outcome.SkippedKey? && !outcome.Resumed?
  {
    DrainShows(env, c, w);
    hide Drain, Useless;
  }

  // ---------------------------------------------------------------- the other ways through the gate

  /**
   Resuming sends one request that ends the drain, and succeeds exactly on a 200 whose body confirms
   that joins are accepted again.
   */
  lemma ResumeReopens(env: Environment, c: Config, w: World)
    requires c.Valid() && c.hasKey && c.resume && w.trace == []
    ensures
      var (after, outcome) := Gate(env, c, w);
      var reply := env.reply(w.requests);
      && after.trace == [PostDrain(false)] && after.requests == w.requests + 1
      && (outcome.Resumed? <==>
            && reply.Response? && reply.status == 200 && reply.body.Runtime?
            && !reply.body.draining && reply.body.acceptingJoins)
      && (outcome.SkippedLegacy? <==>
            reply.Response? && (reply.status == 404 || reply.status == 501) && c.legacyBypass)
      && (outcome.Failed? <==> !outcome.Resumed? && !outcome.SkippedLegacy?)
  {
    assert [] + [PostDrain(false)] == [PostDrain(false)];
  }

  /** Without a key nothing is sent and no time is taken; the bypass decides between success and failure. */
  lemma NoKeySendsNothing(env: Environment, c: Config, w: World)
    requires c.Valid() && !c.hasKey
    ensures Gate(env, c, w).0 == w
    ensures Gate(env, c, w).1.Failed? <==> !c.legacyBypass
    ensures Gate(env, c, w).1.SkippedKey? <==> c.legacyBypass
  {
  }

  // ---------------------------------------------------------------- the script

  class Script {
    const env: Environment
    var clock: int
    var operations: nat
    var requests: nat
    var trace: seq<Event>

    constructor (env: Environment, clock: int)
      ensures this.env == env && View() == World(clock, 0, 0, [])
    {
      this.env, this.clock := env, clock;
      operations, requests, trace := 0, 0, [];
    }

    function View(): World
      reads this
    {
      World(clock, operations, requests, trace)
    }

    method Now() returns (at: int)
      modifies this`clock, this`operations
      ensures View() == Tick(env, old(View()), 0) && at == clock
    {
      clock := clock + env.delay(operations);
      operations := operations + 1;
      at := clock;
    }

    method Sleep(ms: nat)
      modifies this`clock, this`operations
      ensures View() == Tick(env, old(View()), ms)
    {
      clock := clock + ms + env.delay(operations);
      operations := operations + 1;
    }

    method Request(e: Event) returns (reply: Reply)
      modifies this
      ensures View() == Ask(env, old(View()), e).0 && reply == Ask(env, old(View()), e).1
    {
      reply := env.reply(requests);
      requests := requests + 1;
      trace := trace + [e];
      clock := clock + env.delay(operations);
      operations := operations + 1;
    }

    /** The rest of a round: wait, then ask again with what is left of the time. */
    method Wait(c: Config, deadline: int) returns (end: RoundEnd)
      requires c.Valid()
      modifies this
      ensures (View(), end) == AskAgain(env, c, old(View()), deadline)
    {
      var at := Now();
      var remaining := deadline - at;
      if remaining <= 0 {
        return Stop(TimedOut);
      }
      Sleep(Min(c.pollMs, remaining));
      at := Now();
      var reply := Request(Poll(Max(1, Min(c.fetchMs, deadline - at)), at));
      if reply.Threw? || reply.status != 200 {
        return Stop(Broken);
      }
      return Continue(reply.body);
    }

    /** The deadline loop. */
    method PollUntilReady(c: Config, initial: Body, deadline: int) returns (ending: Ending)
      requires c.Valid()
      modifies this
      ensures (View(), ending) == PollUntil(env, c, old(View()), initial, deadline)
    {
      hide AskAgain;
      var latest := initial;
      ghost var before := View();
      var at := Now();
      while at <= deadline
        invariant at == clock && View() == Tick(env, before, 0)
        invariant PollUntil(env, c, before, latest, deadline) == PollUntil(env, c, old(View()), initial, deadline)
        decreases Max(0, deadline - before.clock + 1)
      {
        RoundAdvances(env, c, before, latest, deadline);
        trace := trace + [Examine(latest, at)];
        if latest.Missing? {
          return Broken;
        }
        if latest.ready && latest.draining {
          return Ready;
        }
        ghost var examined := View();
        var end := Wait(c, deadline);
        assert Round(env, c, before, latest, deadline) == AskAgain(env, c, examined, deadline);
        if end.Stop? {
          return end.ending;
        }
        latest := end.latest;
        before := View();
        at := Now();
      }
      ending := TimedOut;
    }

    /** The whole gate, with its failure path. */
    method Run(c: Config) returns (outcome: Outcome)
      requires c.Valid()
      modifies this
      ensures (View(), outcome) == Gate(env, c, old(View()))
    {
      hide PollUntil;
      if !c.hasKey {
        return if c.legacyBypass then SkippedKey else Failed;
      }
      if c.resume {
        var reply := Request(PostDrain(false));
        if reply.Threw? {
          return Failed;
        }
        if (reply.status == 404 || reply.status == 501) && c.legacyBypass {
          return SkippedLegacy;
        }
        if reply.status != 200 {
          return Failed;
        }
        var confirmed := reply.body.Runtime? && !reply.body.draining && reply.body.acceptingJoins;
        return if confirmed then Resumed else Failed;
      }
      outcome := StartDrain(c);
      if outcome.Failed? && c.resumeOnFailure {
        var _ := Request(PostDrain(false));
      }
    }

    method StartDrain(c: Config) returns (outcome: Outcome)
      requires c.Valid()
      modifies this
      ensures (View(), outcome) == Drain(env, c, old(View()))
    {
      hide PollUntil;
      var initial := Request(PostDrain(true));
      if initial.Threw? {
        return Failed;
      }
      if (initial.status == 404 || initial.status == 501) && c.legacyBypass {
        return SkippedLegacy;
      }
      if initial.status != 200 {
        return Failed;
      }
      var at := Now();
      var ending := PollUntilReady(c, initial.body, at + c.timeoutMs);
      return if ending.Ready? then Drained else Failed;
    }
  }
}
