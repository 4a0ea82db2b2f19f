/** What a participant is told about a ranked session, and that it only moves forward. */
module RankedResultStatus {
  import opened Wrappers
  import CommitmentChain
  import opened RankedSettlement
  import opened RankedSettlementSafety
  import opened RankedSettlementTheorems

  datatype Status = AwaitingPeer | FlaggedForReview | AuthoritativePending | EndedNoContest | ResultAccepted

  function RulingIn(db: Db, s: string): Option<Ruling> {
    if s in db.decisions then Some(db.decisions[s].decision.ruling) else None
  }

  predicate HasFlag(db: Db, s: string) {
    exists k :: k in db.submissions && k.0 == s && db.submissions[k].suspicious
  }

  /** A settled match comes first, then a stored decision, then any suspicious submission. */
  function Select(settled: bool, ruling: Option<Ruling>, flagged: bool): Status {
    if settled then ResultAccepted
    else
      match ruling
      case Some(NoContest) => EndedNoContest
      case Some(Forfeited(_)) => AuthoritativePending
      case None => if flagged then FlaggedForReview else AwaitingPeer
  }

  /** The read route reads decision, match and submissions in separate queries. */
  function StatusRead(decisionRead: Db, matchRead: Db, submissionsRead: Db, s: string): Status {
    Select(s in matchRead.matches, RulingIn(decisionRead, s), HasFlag(submissionsRead, s))
  }

  function StatusAt(db: Db, s: string): Status { StatusRead(db, db, db, s) }

  function Rank(status: Status): nat {
    match status
    case AwaitingPeer => 0
    case FlaggedForReview => 1
    case AuthoritativePending => 2
    case EndedNoContest => 3
    case ResultAccepted => 3
  }

  /** Forward in the order of stages, and never away from an end. */
  predicate Forward(before: Status, after: Status) {
    Rank(before) <= Rank(after) && (Rank(before) == 3 ==> after == before)
  }

  lemma FlagStays(before: Db, after: Db, s: string)
    requires Extends(before, after) && HasFlag(before, s)
    ensures HasFlag(after, s)
  {
    var k :| k in before.submissions && k.0 == s && before.submissions[k].suspicious;
    assert k in after.submissions;
  }

  /** A no-contest that a reader saw together with, or before, an absent match stays without one. */
  lemma NoContestStays(rules: Rules, steps: seq<Step>, states: seq<Db>, d: nat, m: nat, n: nat, s: string)
    requires DigestsTellApart(rules) && IsRun(rules, steps, states) && d <= m <= n <= |steps|
    requires RulingIn(states[d], s) == Some(NoContest) && s !in states[m].matches
    ensures s !in states[n].matches && RulingIn(states[n], s) == Some(NoContest)
  {
    RunExtends(rules, steps, states, d, m);
    RunExtends(rules, steps, states, m, n);
    hide IsRun, DigestsTellApart, Inv;
    assert s in states[m].decisions;
    DecisionFirst(rules, steps, states, m, n, s);
  }

  /**
   A no-contest stored for a session without a match leaves it without one; stored later, the match
   was there first.
   */
  lemma NoContestBesideMatch(rules: Rules, steps: seq<Step>, states: seq<Db>, d: nat, n: nat, s: string)
    requires DigestsTellApart(rules) && IsRun(rules, steps, states) && d <= n <= |steps|
    requires RulingIn(states[d], s) == Some(NoContest)
    ensures s in states[n].matches <==> s in states[d].matches
  {
    RunExtends(rules, steps, states, d, n);
    MatchStays(states[d], states[n], s);
    if s !in states[d].matches { NoContestStays(rules, steps, states, d, d, n, s); }
    hide IsRun, DigestsTellApart, Extends;
  }

  /**
   Two reads one after the other, each with its queries in any order: the second steps back from the
   first exactly when the first read its decision after its match and the session was settled, and
   then got a no-contest decision, in between.
   */
  lemma StepsBackExactly(rules: Rules, steps: seq<Step>, states: seq<Db>, s: string,
                         d1: nat, m1: nat, u1: nat, d2: nat, m2: nat, u2: nat)
    requires DigestsTellApart(rules) && IsRun(rules, steps, states)
    requires Max3(d1, m1, u1) <= d2 <= |steps| && Max3(d1, m1, u1) <= m2 <= |steps| && Max3(d1, m1, u1) <= u2 <= |steps|
    ensures
      !Forward(StatusRead(states[d1], states[m1], states[u1], s), StatusRead(states[d2], states[m2], states[u2], s))
      <==> RulingIn(states[d1], s) == Some(NoContest) && s !in states[m1].matches && s in states[d1].matches
  {
    RunExtends(rules, steps, states, d1, d2);
    RunExtends(rules, steps, states, m1, m2);
    RunExtends(rules, steps, states, u1, u2);
    if RulingIn(states[d1], s) == Some(NoContest) { NoContestBesideMatch(rules, steps, states, d1, m2, s); }
    hide IsRun, DigestsTellApart, Forward;
    if HasFlag(states[u1], s) { FlagStays(states[u1], states[u2], s); }
    RulingStays(states[d1], states[d2], s);
    MatchStays(states[m1], states[m2], s);
    hide Extends;
    SelectForward(s in states[m1].matches, RulingIn(states[d1], s), HasFlag(states[u1], s),
                  s in states[m2].matches, RulingIn(states[d2], s), HasFlag(states[u2], s));
  }

  function Max3(a: nat, b: nat, c: nat): nat {
    if a >= b && a >= c then a else if b >= c then b else c
  }

  /** When the first read looks at the decision no later than at the match, nothing steps back. */
  lemma StatusMovesForward(rules: Rules, steps: seq<Step>, states: seq<Db>, s: string,
                           d1: nat, m1: nat, u1: nat, d2: nat, m2: nat, u2: nat)
    requires DigestsTellApart(rules) && IsRun(rules, steps, states) && d1 <= m1
    requires Max3(d1, m1, u1) <= d2 <= |steps| && Max3(d1, m1, u1) <= m2 <= |steps| && Max3(d1, m1, u1) <= u2 <= |steps|
    ensures
      Forward(StatusRead(states[d1], states[m1], states[u1], s), StatusRead(states[d2], states[m2], states[u2], s))
  {
    StepsBackExactly(rules, steps, states, s, d1, m1, u1, d2, m2, u2);
    RunExtends(rules, steps, states, d1, m1);
    MatchStays(states[d1], states[m1], s);
    hide IsRun, DigestsTellApart, Forward, StatusRead, Extends;
  }

  lemma RulingStays(before: Db, after: Db, s: string)
    requires Extends(before, after)
    ensures RulingIn(before, s).Some? ==> RulingIn(after, s) == RulingIn(before, s)
  {
  }

  lemma MatchStays(before: Db, after: Db, s: string)
    requires Extends(before, after)
    ensures s in before.matches ==> s in after.matches
  {
  }

  /** With inputs that only appear, the selection steps back exactly when a match appears beside a no-contest. */
  lemma SelectForward(m1: bool, r1: Option<Ruling>, f1: bool, m2: bool, r2: Option<Ruling>, f2: bool)
    requires (m1 ==> m2) && (r1.Some? ==> r2 == r1) && (f1 ==> f2)
    ensures Forward(Select(m1, r1, f1), Select(m2, r2, f2)) <==> !(r1 == Some(NoContest) && !m1 && m2)
  {
  }

  /** A submission that settles by consensus between the two queries of a read, followed by a no-contest decision. */
  lemma SettledBetweenReads(rules: Rules, db: Db, r: Request, memory: Memory, d: Decision)
    requires Submit(rules, db, r, memory).1 == Accepted
    requires d.ruling.NoContest? && d.parties == rules.parties(r.sessionId)
    ensures
      var settled := Next(rules, db, SubmitResult(r, memory));
      var decided := Next(rules, settled, EnqueueDecision(r.sessionId, d));
      && StatusRead(decided, db, decided, r.sessionId) == EndedNoContest
      && StatusAt(decided, r.sessionId) == ResultAccepted
  {
    var winner := Admit(rules, r).value;
    AcceptedMeansSettled(rules, db, r, memory, winner);
    hide SubmitTx, Admit, HasFlag;
  }

  lemma AcceptedMeansSettled(rules: Rules, db: Db, r: Request, memory: Memory, winner: CommitmentChain.Side)
    requires SubmitTx(rules, db, r, memory, winner).1 == Accepted
    ensures SubmitTx(rules, db, r, memory, winner).0.Some?
    ensures
      var after := SubmitTx(rules, db, r, memory, winner).0.value;
      && r.sessionId !in db.matches && r.sessionId in after.matches
      && r.sessionId !in db.decisions && after.decisions == db.decisions
  {
    hide ChainDigest, IsSuspicious, Agree;
  }

  // ---------------------------------------------------------------- what each status says

  /** What the three queries found, in terms of the tables. */
  lemma StatusSays(d: Db, m: Db, u: Db, s: string)
    ensures
      var told := StatusRead(d, m, u, s);
      var suspected := exists k :: k in u.submissions && k.0 == s && u.submissions[k].suspicious;
      && (told == ResultAccepted <==> s in m.matches)
      && (told == EndedNoContest <==> s !in m.matches && s in d.decisions && d.decisions[s].decision.ruling.NoContest?)
      && (told == AuthoritativePending <==>
            s !in m.matches && s in d.decisions && d.decisions[s].decision.ruling.Forfeited?)
      && (told == FlaggedForReview <==> s !in m.matches && s !in d.decisions && suspected)
      && (told == AwaitingPeer <==> s !in m.matches && s !in d.decisions && !suspected)
  {
    assert HasFlag(u, s) <==> exists k :: k in u.submissions && k.0 == s && u.submissions[k].suspicious;
  }

  /**
   What a submission is told is what a read then shows, with one exception: a submission that is told
   to await its peer when the peer's own is suspicious leaves a session that shows as flagged.
   */
  lemma SubmissionIsTold(rules: Rules, db: Db, r: Request, memory: Memory)
    requires DigestsTellApart(rules) && Inv(rules, db)
    ensures
      var (after, reply) := Submit(rules, db, r, memory);
      && (reply == Accepted ==> StatusAt(after, r.sessionId) == ResultAccepted)
      && (reply == Flagged ==> StatusAt(after, r.sessionId) == FlaggedForReview)
      && (reply == Awaiting ==>
            StatusAt(after, r.sessionId) == if HasFlag(db, r.sessionId) then FlaggedForReview else AwaitingPeer)
      && (reply.Refused? ==> after == db)
  {
    if Admit(rules, r).Ok? {
      var winner := Admit(rules, r).value;
      var tx := SubmitTx(rules, db, r, memory, winner);
      if tx.1 == Accepted { AcceptedMeansSettled(rules, db, r, memory, winner); }
      if tx.1 == Flagged || tx.1 == Awaiting { TakenInWithoutMatch(rules, db, r, memory, winner); }
      RefusedRollsBack(rules, db, r, memory, winner);
      hide SubmitTx, Inv, HasFlag, DigestsTellApart;
    }
  }

  lemma RefusedRollsBack(rules: Rules, db: Db, r: Request, memory: Memory, winner: CommitmentChain.Side)
    ensures SubmitTx(rules, db, r, memory, winner).1.Refused? ==> SubmitTx(rules, db, r, memory, winner).0.None?
  {
    hide ChainDigest, Settle, Inserted, PeerOf, Agree;
  }

  /** A submission that is taken in without settling: no match, no decision, and the flags it leaves. */
  lemma TakenInWithoutMatch(rules: Rules, db: Db, r: Request, memory: Memory, winner: CommitmentChain.Side)
    requires Inv(rules, db) && Admit(rules, r) == Ok(winner)
    requires
      var reply := SubmitTx(rules, db, r, memory, winner).1;
      reply == Flagged || reply == Awaiting
    ensures SubmitTx(rules, db, r, memory, winner).0.Some?
    ensures
      var (after, reply) := SubmitTx(rules, db, r, memory, winner);
      && r.sessionId !in after.value.matches && r.sessionId !in after.value.decisions
      && (reply == Flagged ==> HasFlag(after.value, r.sessionId))
      && (reply == Awaiting ==> (HasFlag(after.value, r.sessionId) <==> HasFlag(db, r.sessionId)))
  {
    AdmitsParties(rules, r);
    var own := TakenInAfterInsert(rules, db, r, memory, winner);
    NoMatchYet(rules, db, r.sessionId, r.accountId);
    InsertedFlags(rules, db, r, winner);
    HasOwnRow(rules, db, r, winner);
    hide Inv, SubmitTx, AfterInsert, Inserted, IsSuspicious, HasFlag, Admit;
    AfterInsertFlags(rules, Inserted(rules, db, r, winner), r, winner, own);
  }

  lemma TakenInAfterInsert(rules: Rules, db: Db, r: Request, memory: Memory, winner: CommitmentChain.Side)
      returns (own: Digest)
    requires
      var reply := SubmitTx(rules, db, r, memory, winner).1;
      reply == Flagged || reply == Awaiting
    ensures r.sessionId !in db.decisions && (r.sessionId, r.accountId) !in db.submissions
    ensures
      SubmitTx(rules, db, r, memory, winner) == AfterInsert(rules, Inserted(rules, db, r, winner), r, winner, own)
  {
    hide ChainDigest, AfterInsert, Inserted;
    var side := if rules.parties(r.sessionId).p1 == r.accountId then CommitmentChain.P1 else CommitmentChain.P2;
    own := ChainDigest(rules, r.payload.proof, r.accountId, side, RowsOf(db, r.sessionId, r.accountId)).value;
  }

  lemma AfterInsertFlags(rules: Rules, db: Db, r: Request, winner: CommitmentChain.Side, own: Digest)
    requires (r.sessionId, r.accountId) in db.submissions
    requires
      var reply := AfterInsert(rules, db, r, winner, own).1;
      reply == Flagged || reply == Awaiting
    ensures AfterInsert(rules, db, r, winner, own).0.Some?
    ensures
      var (after, reply) := AfterInsert(rules, db, r, winner, own);
      && after.value.matches == db.matches && after.value.decisions == db.decisions
      && (reply == Flagged ==> HasFlag(after.value, r.sessionId))
      && (reply == Awaiting ==> after.value == db && !db.submissions[(r.sessionId, r.accountId)].suspicious)
  {
    NeverTold(rules, db, r, winner);
    FlagAllFlags(db, r.sessionId, (r.sessionId, r.accountId));
    if db.submissions[(r.sessionId, r.accountId)].suspicious { OwnFlag(db, (r.sessionId, r.accountId)); }
    hide SettleAgreed, PeerOf, Agree, HasFlag, FlagAll;
  }

  lemma OwnFlag(db: Db, key: (string, string))
    requires key in db.submissions && db.submissions[key].suspicious
    ensures HasFlag(db, key.0)
  {
  }

  lemma AdmitsParties(rules: Rules, r: Request)
    requires Admit(rules, r).Ok?
    ensures IsParty(rules.parties(r.sessionId), r.accountId)
  {
  }

  /** Settling is told as accepted or refused, never as flagged or awaiting. */
  lemma NeverTold(rules: Rules, db: Db, r: Request, winner: CommitmentChain.Side)
    ensures
      forall own ::
        SettleAgreed(rules, db, r, winner, own).1 == Accepted || SettleAgreed(rules, db, r, winner, own).1.Refused?
  {
    hide ChainDigest, Settle;
  }

  lemma InsertedFlags(rules: Rules, db: Db, r: Request, winner: CommitmentChain.Side)
    requires (r.sessionId, r.accountId) !in db.submissions
    ensures
      var after := Inserted(rules, db, r, winner);
      && after.matches == db.matches && after.decisions == db.decisions
      && (HasFlag(after, r.sessionId) <==> HasFlag(db, r.sessionId) || IsSuspicious(rules.parties(r.sessionId), r))
  {
    hide IsSuspicious;
    var after, own := Inserted(rules, db, r, winner), (r.sessionId, r.accountId);
    assert forall k :: k in after.submissions ==>
      k == own || (k in db.submissions && after.submissions[k] == db.submissions[k]);
    assert after.submissions[own].suspicious == IsSuspicious(rules.parties(r.sessionId), r);
    if HasFlag(db, r.sessionId) {
      var k :| k in db.submissions && k.0 == r.sessionId && db.submissions[k].suspicious;
      assert after.submissions[k] == db.submissions[k];
    }
  }

  lemma FlagAllFlags(db: Db, s: string, key: (string, string))
    requires key in db.submissions && key.0 == s
    ensures
      var after := FlagAll(db, s);
      HasFlag(after, s) && after.matches == db.matches && after.decisions == db.decisions
  {
    assert key in FlagAll(db, s).submissions && FlagAll(db, s).submissions[key].suspicious;
  }
}
