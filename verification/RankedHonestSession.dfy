/**
 An honest session from the empty tables to its settlement: both players upload the chains built for
 the proof, in pace, and submit the same proof. It shows that the guarantees about settled sessions
 speak about something, and from it follows a run in which reads step back.
 */
module RankedHonestSession {
  import opened Wrappers
  import opened CommitmentChain
  import opened CommitmentPacing
  import CommitmentRoundTrip
  import opened CommitmentStore
  import opened RankedSettlement
  import opened RankedSettlementSafety
  import opened RankedSettlementTheorems
  import opened RankedResultStatus

  // ---------------------------------------------------------------- runs

  ghost predicate Leads(rules: Rules, steps: seq<Step>, states: seq<Db>, db: Db) {
    IsRun(rules, steps, states) && states[|steps|] == db
  }

  /** Some run leads here. */
  ghost predicate Reached(rules: Rules, db: Db) {
    exists steps, states :: Leads(rules, steps, states, db)
  }

  lemma ReachedStart(rules: Rules)
    ensures Reached(rules, Empty())
  {
    assert Leads(rules, [], [Empty()], Empty());
  }

  lemma LeadsOn(rules: Rules, steps: seq<Step>, states: seq<Db>, db: Db, step: Step)
    requires Leads(rules, steps, states, db) && Possible(rules, step)
    ensures Leads(rules, steps + [step], states + [Next(rules, db, step)], Next(rules, db, step))
  {
    hide Next;
    var steps', states' := steps + [step], states + [Next(rules, db, step)];
    forall k | 0 <= k < |steps'|
      ensures Possible(rules, steps'[k]) && states'[k + 1] == Next(rules, states'[k], steps'[k])
    {
      if k < |steps| { assert steps'[k] == steps[k] && states'[k] == states[k] && states'[k + 1] == states[k + 1]; }
    }
  }

  lemma ReachedNext(rules: Rules, db: Db, step: Step)
    requires Reached(rules, db) && Possible(rules, step)
    ensures Reached(rules, Next(rules, db, step))
  {
    var steps, states :| Leads(rules, steps, states, db);
    LeadsOn(rules, steps, states, db, step);
    hide Leads, Next;
    assert Leads(rules, steps + [step], states + [Next(rules, db, step)], Next(rules, db, step));
  }

  // ---------------------------------------------------------------- the plan

  /** One session: the proof both players hold, and when each commitment of each player is received. */
  datatype Plan = Plan(sessionId: string, proof: Proof, winner: Side, clock1: nat -> int, clock2: nat -> int)

  function Account(rules: Rules, plan: Plan, side: Side): string { AccountOf(rules.parties(plan.sessionId), side) }

  function Who(rules: Rules, plan: Plan, side: Side): Participant {
    Participant(plan.sessionId, Account(rules, plan, side), side)
  }

  function Sent(rules: Rules, plan: Plan, side: Side): seq<Submission<Digest>> {
    BuildSpec(rules.h, Who(rules, plan, side), plan.proof.rounds)
  }

  function ClockOf(plan: Plan, side: Side): nat -> int { if side.P1? then plan.clock1 else plan.clock2 }

  function UploadedRows(rules: Rules, plan: Plan, side: Side): seq<Stored<Digest>> {
    CommitmentRoundTrip.RowsOf(rules.h, Sent(rules, plan, side), ClockOf(plan, side))
  }

  ghost predicate UploadOk(rules: Rules, plan: Plan, side: Side) {
    && |Sent(rules, plan, side)| <= MAX_SEQUENCE
    && CommitmentRoundTrip.SentInPace(Sent(rules, plan, side), ClockOf(plan, side), rules.policy)
  }

  /** The proof replays, the chains are long enough for the policy, both arrive in pace, and both ratings can move. */
  ghost predicate Honest(rules: Rules, plan: Plan) {
    var p := rules.parties(plan.sessionId);
    var change := rules.change(INITIAL_RATING, INITIAL_RATING, plan.winner);
    && p.p1 != p.p2 && plan.proof.sessionId == plan.sessionId
    && CommitmentRoundTrip.WellNumbered(plan.proof.rounds) && plan.proof.rounds != [] && rules.policy.Valid()
    && (CommitmentRoundTrip.OneCommitment(plan.proof.rounds) ==> rules.policy.minimumRatio <= RATIO_EPSILON)
    && UploadOk(rules, plan, P1) && UploadOk(rules, plan, P2)
    && rules.replay(Payload(plan.proof, plan.sessionId)) == Some(plan.winner)
    && INITIAL_RATING + change.0 > 0 && INITIAL_RATING + change.1 > 0
  }

  /** What one of the players submits. */
  function Claimed(rules: Rules, plan: Plan, side: Side): Request {
    var p := rules.parties(plan.sessionId);
    Request(plan.sessionId, plan.sessionId, AccountOf(p, side), OutcomeOf(plan.winner), {p.p1, p.p2},
            Some(AccountOf(p, plan.winner)), Payload(plan.proof, plan.sessionId), Glance(true, false, false, false))
  }

  function Quiet(): Memory { Memory(true, false) }

  // ---------------------------------------------------------------- both chains are stored

  function WithRows(db: Db, sessionId: string, account: string, rows: seq<Stored<Digest>>): Db {
    db.(commitments := db.commitments[(sessionId, account) := rows])
  }

  /** Whose commitment it is. */
  lemma SentIdentity(rules: Rules, plan: Plan, side: Side, k: nat)
    requires k < |Sent(rules, plan, side)|
    ensures
      var id := Sent(rules, plan, side)[k].identity;
      id.sessionId == plan.sessionId && id.accountId == Account(rules, plan, side) && id.side == side
  {
    LinkAt(rules.h, Who(rules, plan, side), Layout(Tracks(plan.proof.rounds, side)), k);
  }

  /** The next commitment of an honest upload is accepted by the store. */
  lemma NextStored(rules: Rules, plan: Plan, side: Side, k: nat)
    requires Honest(rules, plan) && k < |Sent(rules, plan, side)|
    ensures
      var sent, clock := Sent(rules, plan, side), ClockOf(plan, side);
      var appended := Append(rules.h, CommitmentRoundTrip.RowsOf(rules.h, sent[..k], clock), sent[k], clock(k));
      appended.Ok? && appended.value.rows == CommitmentRoundTrip.RowsOf(rules.h, sent[..k + 1], clock)
  {
    var rounds := plan.proof.rounds;
    var chunks := Layout(Tracks(rounds, side));
    CommitmentRoundTrip.LayoutCovers(rounds, side);
    CommitmentRoundTrip.LayoutSizes(rounds, side);
    hide FitsAll, Link, Layout, Tracks, CommitmentRoundTrip.RowsOf, CommitmentRoundTrip.WellNumbered, Append;
    CommitmentRoundTrip.NextIsAccepted(rules.h, Who(rules, plan, side), rounds, chunks, k, ClockOf(plan, side));
  }

  /** The next commitment of an honest upload is appended. */
  lemma NextAppended(rules: Rules, plan: Plan, side: Side, db: Db, k: nat)
    requires Honest(rules, plan) && k < |Sent(rules, plan, side)|
    requires
      RankedSettlement.RowsOf(db, plan.sessionId, Account(rules, plan, side)) ==
        CommitmentRoundTrip.RowsOf(rules.h, Sent(rules, plan, side)[..k], ClockOf(plan, side))
    ensures
      var sent, clock := Sent(rules, plan, side), ClockOf(plan, side);
      Next(rules, db, AppendCommitment(sent[k], true, clock(k))) ==
        WithRows(db, plan.sessionId, Account(rules, plan, side),
                 CommitmentRoundTrip.RowsOf(rules.h, sent[..k + 1], clock))
  {
    SentIdentity(rules, plan, side, k);
    NextStored(rules, plan, side, k);
    assert rules.parties(plan.sessionId).p1 != rules.parties(plan.sessionId).p2;
    hide Sent, Honest, Append, CommitmentRoundTrip.RowsOf, RankedSettlement.RowsOf;
  }

  lemma {:induction false} UploadReached(rules: Rules, plan: Plan, side: Side, db: Db, k: nat)
    requires Honest(rules, plan) && Reached(rules, db) && 0 < k <= |Sent(rules, plan, side)|
    requires (plan.sessionId, Account(rules, plan, side)) !in db.commitments
    ensures
      Reached(rules, WithRows(db, plan.sessionId, Account(rules, plan, side),
        CommitmentRoundTrip.RowsOf(rules.h, Sent(rules, plan, side)[..k], ClockOf(plan, side))))
    decreases k
  {
    hide Honest, Reached, Sent, CommitmentRoundTrip.RowsOf, Next;
    var sent, clock, account := Sent(rules, plan, side), ClockOf(plan, side), Account(rules, plan, side);
    var before := db;
    if k > 1 {
      UploadReached(rules, plan, side, db, k - 1);
      before := WithRows(db, plan.sessionId, account, CommitmentRoundTrip.RowsOf(rules.h, sent[..k - 1], clock));
    } else {
      NothingStored(rules, sent, clock);
    }
    NextAppended(rules, plan, side, before, k - 1);
    ReachedNext(rules, before, AppendCommitment(sent[k - 1], true, clock(k - 1)));
    var rows := CommitmentRoundTrip.RowsOf(rules.h, sent[..k], clock);
    assert WithRows(before, plan.sessionId, account, rows) == WithRows(db, plan.sessionId, account, rows);
  }

  lemma NothingStored(rules: Rules, sent: seq<Submission<Digest>>, clock: nat -> int)
    ensures CommitmentRoundTrip.RowsOf(rules.h, sent[..0], clock) == []
  {
  }

  /** Both chains stored, and nothing else. */
  function BothUploaded(rules: Rules, plan: Plan): Db {
    WithRows(WithRows(Empty(), plan.sessionId, Account(rules, plan, P1), UploadedRows(rules, plan, P1)),
             plan.sessionId, Account(rules, plan, P2), UploadedRows(rules, plan, P2))
  }

  /** What the coverage check says of an honest upload. */
  lemma UploadVerifies(rules: Rules, plan: Plan, side: Side)
    requires Honest(rules, plan)
    ensures |Sent(rules, plan, side)| > 0
    ensures ChainDigest(rules, plan.proof, Account(rules, plan, side), side, UploadedRows(rules, plan, side)).Some?
  {
    var who, rounds := Who(rules, plan, side), plan.proof.rounds;
    CommitmentRoundTrip.CommitmentCount(rounds, side);
    CommitmentRoundTrip.HonestUploadVerifies(rules.h, plan.proof, who, ClockOf(plan, side), rules.policy);
    hide Judge, CommitmentRoundTrip.RowsOf, CommitmentRoundTrip.StoreAll, CommitmentRoundTrip.OneCommitment;
  }

  lemma BothUploadsReached(rules: Rules, plan: Plan)
    requires Honest(rules, plan)
    ensures Reached(rules, BothUploaded(rules, plan))
  {
    UploadVerifies(rules, plan, P1);
    UploadVerifies(rules, plan, P2);
    var sent1, sent2 := Sent(rules, plan, P1), Sent(rules, plan, P2);
    assert sent1[..|sent1|] == sent1 && sent2[..|sent2|] == sent2;
    ReachedStart(rules);
    assert Account(rules, plan, P1) != Account(rules, plan, P2);
    hide Honest, Reached, Sent, CommitmentRoundTrip.RowsOf;
    UploadReached(rules, plan, P1, Empty(), |sent1|);
    var first := WithRows(Empty(), plan.sessionId, Account(rules, plan, P1), UploadedRows(rules, plan, P1));
    UploadReached(rules, plan, P2, first, |sent2|);
  }

  // ---------------------------------------------------------------- both players submit

  lemma ClaimIsAdmitted(rules: Rules, plan: Plan, side: Side)
    requires Honest(rules, plan)
    ensures Admit(rules, Claimed(rules, plan, side)) == Ok(plan.winner)
    ensures !IsSuspicious(rules.parties(plan.sessionId), Claimed(rules, plan, side))
  {
  }

  function FirstSubmitted(rules: Rules, plan: Plan): Db {
    Inserted(rules, BothUploaded(rules, plan), Claimed(rules, plan, P1), plan.winner)
  }

  /** The first player is told to wait. */
  lemma FirstAwaits(rules: Rules, plan: Plan)
    requires Honest(rules, plan)
    ensures
      Submit(rules, BothUploaded(rules, plan), Claimed(rules, plan, P1), Quiet()) ==
        (FirstSubmitted(rules, plan), Awaiting)
  {
    var p := rules.parties(plan.sessionId);
    assert p.p1 != p.p2;
    ClaimIsAdmitted(rules, plan, P1);
    UploadVerifies(rules, plan, P1);
    hide ChainDigest, UploadedRows, Honest, Admit, IsSuspicious;
  }

  function SecondSubmitted(rules: Rules, plan: Plan): Db {
    Inserted(rules, FirstSubmitted(rules, plan), Claimed(rules, plan, P2), plan.winner)
  }

  /** Both submissions are in, unsuspicious and equal; nothing is settled yet. */
  lemma BothAgree(rules: Rules, plan: Plan)
    requires Honest(rules, plan)
    ensures
      var p, db := rules.parties(plan.sessionId), SecondSubmitted(rules, plan);
      && PeerOf(db, plan.sessionId, p.p1).Some?
      && !db.submissions[(plan.sessionId, p.p2)].suspicious
      && Agree(PeerOf(db, plan.sessionId, p.p1).value, db.submissions[(plan.sessionId, p.p2)])
      && db.commitments == BothUploaded(rules, plan).commitments && db.matches == map[] && db.ratings == map[]
  {
    assert rules.parties(plan.sessionId).p1 != rules.parties(plan.sessionId).p2;
    ClaimIsAdmitted(rules, plan, P1);
    ClaimIsAdmitted(rules, plan, P2);
    hide UploadedRows, Honest, Admit, IsSuspicious;
  }

  /** In tables without matches and ratings a match between two accounts settles. */
  lemma FreshSettles(rules: Rules, db: Db, sessionId: string, m: Match, winner: Side)
    requires db.matches == map[] && db.ratings == map[] && m.parties.p1 != m.parties.p2
    requires
      var change := rules.change(INITIAL_RATING, INITIAL_RATING, winner);
      INITIAL_RATING + change.0 > 0 && INITIAL_RATING + change.1 > 0
    ensures Settle(rules, db, sessionId, m, winner).Some?
    ensures Settle(rules, db, sessionId, m, winner).value.matches == map[sessionId := m]
  {
  }

  /** With both chains verified, the agreed session settles. */
  lemma AgreedSettles(rules: Rules, plan: Plan, db: Db, own: Digest)
    requires Honest(rules, plan) && db.commitments == BothUploaded(rules, plan).commitments
    requires db.matches == map[] && db.ratings == map[]
    ensures
      var (after, reply) := SettleAgreed(rules, db, Claimed(rules, plan, P2), plan.winner, own);
      after.Some? && reply == Accepted && ByConsensus(after.value.matches, plan.sessionId)
  {
    var p := rules.parties(plan.sessionId);
    assert p.p1 != p.p2;
    UploadVerifies(rules, plan, P1);
    var change := rules.change(INITIAL_RATING, INITIAL_RATING, plan.winner);
    assert INITIAL_RATING + change.0 > 0 && INITIAL_RATING + change.1 > 0;
    assert RankedSettlement.RowsOf(db, plan.sessionId, p.p1) == UploadedRows(rules, plan, P1);
    var m := Match(plan.sessionId, p, OutcomeOf(plan.winner), AccountOf(p, plan.winner), Consensus(p.p2));
    hide ChainDigest, UploadedRows, Honest, Settle, RankedSettlement.RowsOf;
    var other := ChainDigest(rules, plan.proof, p.p1, P1, UploadedRows(rules, plan, P1)).value;
    var g := rules.digest(Payload(plan.proof, plan.sessionId));
    var attested :=
      if g !in db.proofs then db
      else db.(proofs := db.proofs[g := db.proofs[g].(attestation := Some(Attestation(other, own)))]);
    FreshSettles(rules, attested, plan.sessionId, m, plan.winner);
  }

  /** The second player's submission agrees with the first and is accepted. */
  lemma SecondIsAccepted(rules: Rules, plan: Plan)
    requires Honest(rules, plan)
    ensures
      var (after, reply) := Submit(rules, FirstSubmitted(rules, plan), Claimed(rules, plan, P2), Quiet());
      reply == Accepted && ByConsensus(after.matches, plan.sessionId)
  {
    var p := rules.parties(plan.sessionId);
    assert p.p1 != p.p2;
    ClaimIsAdmitted(rules, plan, P2);
    UploadVerifies(rules, plan, P2);
    BothAgree(rules, plan);
    var own := ChainDigest(rules, plan.proof, Account(rules, plan, P2), P2, UploadedRows(rules, plan, P2)).value;
    AgreedSettles(rules, plan, SecondSubmitted(rules, plan), own);
    hide ChainDigest, UploadedRows, Honest, Admit, IsSuspicious, SettleAgreed, Agree;
  }

  /** An honest session is settled by consensus in some run: its second submission is accepted. */
  lemma HonestSessionSettles(rules: Rules, plan: Plan)
    requires Honest(rules, plan)
    ensures
      exists before :: Reached(rules, before) && plan.sessionId !in before.decisions
        && Submit(rules, before, Claimed(rules, plan, P2), Quiet()).1 == Accepted
        && Reached(rules, Submit(rules, before, Claimed(rules, plan, P2), Quiet()).0)
        && ByConsensus(Submit(rules, before, Claimed(rules, plan, P2), Quiet()).0.matches, plan.sessionId)
  {
    FirstReached(rules, plan);
    SecondIsAccepted(rules, plan);
    hide Reached, Honest, Submit, FirstSubmitted, Claimed;
    ReachedNext(rules, FirstSubmitted(rules, plan), SubmitResult(Claimed(rules, plan, P2), Quiet()));
  }

  /**
   A run in which reads step back: an honest session settles and then gets a no-contest decision. A
   read that looked for the match before and for the decision after shows the no-contest, and the
   next read shows the accepted result.
   */
  lemma StepBackIsReachable(rules: Rules, plan: Plan, decision: Decision)
    requires Honest(rules, plan) && decision.ruling.NoContest? && decision.parties == rules.parties(plan.sessionId)
    ensures
      exists steps: seq<Step>, states: seq<Db>, m: nat, d: nat :: IsRun(rules, steps, states) && m <= d <= |steps|
        && StatusRead(states[d], states[m], states[d], plan.sessionId) == EndedNoContest
        && StatusAt(states[d], plan.sessionId) == ResultAccepted
  {
    var r := Claimed(rules, plan, P2);
    SessionOfClaim(rules, plan);
    FirstReached(rules, plan);
    SecondIsAccepted(rules, plan);
    hide Honest, Submit, Claimed, FirstSubmitted;
    var before := FirstSubmitted(rules, plan);
    SettledBetweenReads(rules, before, r, Quiet(), decision);
    hide Next, Possible, StatusRead, StatusAt, Reached;
    assert Possible(rules, SubmitResult(r, Quiet())) && Possible(rules, EnqueueDecision(plan.sessionId, decision)) by {
      BothPossible(rules, plan, r, decision);
    }
    StepBackRun(rules, before, SubmitResult(r, Quiet()), EnqueueDecision(plan.sessionId, decision), plan.sessionId);
  }

  lemma BothPossible(rules: Rules, plan: Plan, r: Request, decision: Decision)
    requires decision.parties == rules.parties(plan.sessionId)
    ensures Possible(rules, SubmitResult(r, Quiet())) && Possible(rules, EnqueueDecision(plan.sessionId, decision))
  {
  }

  /** Two steps after which a read that looked for the match before them steps back. */
  lemma StepBackRun(rules: Rules, before: Db, a: Step, b: Step, s: string)
    requires Reached(rules, before) && Possible(rules, a) && Possible(rules, b)
    requires
      var decided := Next(rules, Next(rules, before, a), b);
      StatusRead(decided, before, decided, s) == EndedNoContest && StatusAt(decided, s) == ResultAccepted
    ensures
      exists steps: seq<Step>, states: seq<Db>, m: nat, d: nat :: IsRun(rules, steps, states) && m <= d <= |steps|
        && StatusRead(states[d], states[m], states[d], s) == EndedNoContest && StatusAt(states[d], s) == ResultAccepted
  {
    hide Next, Possible, StatusRead, StatusAt, Reached;
    var steps, states := TwoMore(rules, before, a, b);
    var m, d := |steps| - 2, |steps|;
    assert |states| == |steps| + 1;
    hide IsRun;
    assert StatusRead(states[d], states[m], states[d], s) == EndedNoContest;
  }

  /** A run that ends with these two steps. */
  lemma TwoMore(rules: Rules, db: Db, a: Step, b: Step) returns (steps: seq<Step>, states: seq<Db>)
    requires Reached(rules, db) && Possible(rules, a) && Possible(rules, b)
    ensures IsRun(rules, steps, states) && |steps| >= 2
    ensures states[|steps| - 2] == db && states[|steps|] == Next(rules, Next(rules, db, a), b)
  {
    hide Next;
    var earlier, before :| Leads(rules, earlier, before, db);
    LeadsOn(rules, earlier, before, db, a);
    LeadsOn(rules, earlier + [a], before + [Next(rules, db, a)], Next(rules, db, a), b);
    steps := earlier + [a] + [b];
    states := before + [Next(rules, db, a)] + [Next(rules, Next(rules, db, a), b)];
  }

  /** The first submission of the honest session happens in some run. */
  lemma FirstReached(rules: Rules, plan: Plan)
    requires Honest(rules, plan)
    ensures Reached(rules, FirstSubmitted(rules, plan)) && FirstSubmitted(rules, plan).decisions == map[]
  {
    BothUploadsReached(rules, plan);
    FirstAwaits(rules, plan);
    assert FirstSubmitted(rules, plan).decisions == map[];
    hide Reached, Honest, Submit, BothUploaded, FirstSubmitted, Claimed;
    ReachedNext(rules, BothUploaded(rules, plan), SubmitResult(Claimed(rules, plan, P1), Quiet()));
  }

  lemma SessionOfClaim(rules: Rules, plan: Plan)
    ensures Claimed(rules, plan, P2).sessionId == plan.sessionId
  {
  }

  // ---------------------------------------------------------------- told to wait, shown as flagged

  /** The first player names somebody else as a participant. */
  function Misnamed(rules: Rules, plan: Plan, other: string): Request {
    Claimed(rules, plan, P1).(participants := {Account(rules, plan, P1), other})
  }

  function FirstFlagged(rules: Rules, plan: Plan, other: string): Db {
    Inserted(rules, BothUploaded(rules, plan), Misnamed(rules, plan, other), plan.winner)
  }

  lemma MisnamedIsSuspicious(rules: Rules, plan: Plan, other: string)
    requires Honest(rules, plan) && !IsParty(rules.parties(plan.sessionId), other)
    ensures Admit(rules, Misnamed(rules, plan, other)) == Ok(plan.winner)
    ensures IsSuspicious(rules.parties(plan.sessionId), Misnamed(rules, plan, other))
  {
    assert |{Account(rules, plan, P1), other}| == 2;
    assert other in Misnamed(rules, plan, other).participants;
  }

  lemma FirstIsFlagged(rules: Rules, plan: Plan, other: string)
    requires Honest(rules, plan) && !IsParty(rules.parties(plan.sessionId), other)
    ensures
      Submit(rules, BothUploaded(rules, plan), Misnamed(rules, plan, other), Quiet()) ==
        (FirstFlagged(rules, plan, other), Flagged)
  {
    var p := rules.parties(plan.sessionId);
    assert p.p1 != p.p2;
    MisnamedIsSuspicious(rules, plan, other);
    UploadVerifies(rules, plan, P1);
    hide ChainDigest, UploadedRows, Honest, Admit, IsSuspicious;
  }

  lemma SecondAwaits(rules: Rules, plan: Plan, other: string)
    requires Honest(rules, plan) && !IsParty(rules.parties(plan.sessionId), other)
    ensures Submit(rules, FirstFlagged(rules, plan, other), Claimed(rules, plan, P2), Quiet()).1 == Awaiting
  {
    var p, db := rules.parties(plan.sessionId), FirstFlagged(rules, plan, other);
    assert p.p1 != p.p2;
    FirstRowIsSuspicious(rules, plan, other);
    ClaimIsAdmitted(rules, plan, P2);
    UploadVerifies(rules, plan, P2);
    hide ChainDigest, UploadedRows, Honest, Admit, IsSuspicious;
  }

  lemma FirstRowIsSuspicious(rules: Rules, plan: Plan, other: string)
    requires Honest(rules, plan) && !IsParty(rules.parties(plan.sessionId), other)
    ensures
      var key, db := (plan.sessionId, Account(rules, plan, P1)), FirstFlagged(rules, plan, other);
      key in db.submissions && db.submissions[key].suspicious && HasFlag(db, plan.sessionId)
  {
    MisnamedIsSuspicious(rules, plan, other);
    hide IsSuspicious, Honest, Admit, UploadedRows;
    var key, db := (plan.sessionId, Account(rules, plan, P1)), FirstFlagged(rules, plan, other);
    assert key in db.submissions && db.submissions[key].suspicious;
  }

  /** A run in which a player is told to await the peer while the session already shows as flagged. */
  lemma AwaitingShowsFlagged(rules: Rules, plan: Plan, other: string)
    requires DigestsTellApart(rules) && Honest(rules, plan) && !IsParty(rules.parties(plan.sessionId), other)
    ensures
      exists before :: Reached(rules, before)
        && Submit(rules, before, Claimed(rules, plan, P2), Quiet()).1 == Awaiting
        && StatusAt(Submit(rules, before, Claimed(rules, plan, P2), Quiet()).0, plan.sessionId) == FlaggedForReview
  {
    BothUploadsReached(rules, plan);
    FirstIsFlagged(rules, plan, other);
    SecondAwaits(rules, plan, other);
    FirstRowIsSuspicious(rules, plan, other);
    SessionOfClaim(rules, plan);
    hide Honest, Submit, Claimed, Misnamed, FirstFlagged, BothUploaded, Reached, DigestsTellApart, StatusAt, HasFlag;
    ReachedNext(rules, BothUploaded(rules, plan), SubmitResult(Misnamed(rules, plan, other), Quiet()));
    var before := FirstFlagged(rules, plan, other);
    ReachedKeepsInv(rules, before);
    SubmissionIsTold(rules, before, Claimed(rules, plan, P2), Quiet());
  }

  lemma ReachedKeepsInv(rules: Rules, db: Db)
    requires DigestsTellApart(rules) && Reached(rules, db)
    ensures Inv(rules, db)
  {
    hide IsRun, Inv, DigestsTellApart;
    var steps, states :| Leads(rules, steps, states, db);
    RunKeepsInv(rules, steps, states, |steps|);
  }

  // ---------------------------------------------------------------- there is such a session

  /** Two rounds of one frame, a commitment a second, and the observation rate asked for in production. */
  function TwoRounds(frame: Frame): seq<Round> { [Round(0, [frame]), Round(1, [frame])] }

  function EverySecond(): nat -> int { (k: nat) => 1000 * k }

  function SmallRules(h: Hasher<Digest>, digest: Payload -> Digest): Rules {
    Rules(h, Policy(0.25, 16.0), (s: string) => Parties("first", "second"), (p: Payload) => Some(P1), digest,
          (a: int, b: int, winner: Side) => (10, -10))
  }

  lemma ShortSubmissions<D>(h: Hasher<D>, who: Participant, rounds: seq<Round>, k: nat)
    requires k < |BuildSpec(h, who, rounds)|
    ensures
      var s := BuildSpec(h, who, rounds)[k];
      s.endFrame - s.identity.startFrame + 1 <= MAX_FRAMES
  {
    CommitmentRoundTrip.LayoutSizes(rounds, who.side);
    LinkAt(h, who, Layout(Tracks(rounds, who.side)), k);
  }

  lemma SmallUploadOk(h: Hasher<Digest>, digest: Payload -> Digest, frame: Frame, sessionId: string, side: Side)
    ensures
      var plan := Plan(sessionId, Proof(sessionId, TwoRounds(frame)), P1, EverySecond(), EverySecond());
      UploadOk(SmallRules(h, digest), plan, side)
  {
    var rules, rounds := SmallRules(h, digest), TwoRounds(frame);
    var plan := Plan(sessionId, Proof(sessionId, rounds), P1, EverySecond(), EverySecond());
    var sent := Sent(rules, plan, side);
    CommitmentRoundTrip.TrackGrows(rounds, side);
    assert rounds[..1] == [Round(0, [frame])];
    CommitmentRoundTrip.TrackGrows(rounds[..1], side);
    assert rounds[..1][..0] == [];
    assert |sent| == 2;
    hide Sent, TimeFor, Link, Layout, Tracks;
    forall k | 0 < k < |sent|
      ensures (EverySecond()(k) - EverySecond()(k - 1)) as real
              >= TimeFor(sent[k].endFrame - sent[k].identity.startFrame + 1, rules.policy)
    {
      ShortSubmissions(h, Who(rules, plan, side), rounds, k);
      TimeForShort(sent[k].endFrame - sent[k].identity.startFrame + 1);
    }
  }

  lemma TimeForShort(frames: int)
    requires frames <= MAX_FRAMES
    ensures TimeFor(frames, Policy(0.25, 16.0)) <= 1000.0
  {
    assert 16.0 * 0.25 == 4.0;
  }

  /** The conditions of an honest session can be met, also under a policy that requires observation. */
  lemma HonestSessionExists(h: Hasher<Digest>, digest: Payload -> Digest, frame: Frame, sessionId: string)
    ensures exists rules, plan :: Honest(rules, plan) && rules.policy.minimumRatio == 0.25
  {
    var rules := SmallRules(h, digest);
    var plan := Plan(sessionId, Proof(sessionId, TwoRounds(frame)), P1, EverySecond(), EverySecond());
    SmallUploadOk(h, digest, frame, sessionId, P1);
    SmallUploadOk(h, digest, frame, sessionId, P2);
    hide UploadOk;
    assert Honest(rules, plan);
  }
}
