/**
 What becomes of a stored decision: which step gives it which status, and that a worker that is left
 alone carries it out.
 */
module RankedWorkers {
  import opened Wrappers
  import opened CommitmentChain
  import opened CommitmentStore
  import opened RankedSettlement
  import opened RankedSettlementSafety
  import opened RankedSettlementTheorems

  /** The status a step gives to a stored decision. */
  function StatusAfter(db: Db, step: Step, s: string): DecisionStatus
    requires s in db.decisions
  {
    var status := db.decisions[s].status;
    match step
    case ClaimDecision(session) =>
      if session == s && (status.Pending? || (status.Processing? && !status.live)) then Processing(db.nextToken, true)
      else status
    case LoseLease(session) => if session == s && status.Processing? then status.(live := false) else status
    case MarkClaim(token) =>
      if token in db.claims && db.claims[token].sessionId == s && status == Processing(token, true)
      then EndOf(db.claims[token], status) else status
    case RetryClaim(token) =>
      if token in db.claims && db.claims[token].sessionId == s && status == Processing(token, true) then Pending
      else status
    case _ => status
  }

  /** What a worker marks: a no-contest is settled without a match, a forfeit as its resolution ended. */
  function EndOf(c: Claim, status: DecisionStatus): DecisionStatus {
    if c.decision.ruling.NoContest? then Settled(None)
    else
      match c.result
      case Some(WasSettled) => Settled(Some(c.sessionId))
      case Some(WasSuperseded) => Superseded
      case None => status
  }

  lemma AgreedLeaves(rules: Rules, db: Db, r: Request, winner: Side, own: Digest)
    ensures
      var after := SettleAgreed(rules, db, r, winner, own).0;
      after.Some? ==> after.value.decisions == db.decisions
  {
    hide ChainDigest, Settle;
    SettleLeaves(rules);
  }

  lemma AfterInsertLeaves(rules: Rules, db: Db, r: Request, winner: Side, own: Digest)
    requires (r.sessionId, r.accountId) in db.submissions
    ensures
      var after := AfterInsert(rules, db, r, winner, own).0;
      after.Some? ==> after.value.decisions == db.decisions
  {
    hide SettleAgreed, PeerOf, Agree;
    AgreedLeaves(rules, db, r, winner, own);
  }

  lemma SubmitLeavesDecisions(rules: Rules, db: Db, r: Request, memory: Memory)
    ensures Submit(rules, db, r, memory).0.decisions == db.decisions
  {
    hide Admit, ChainDigest, AfterInsert, Inserted, RowsOf;
    InsertedLeaves(rules, db, r);
    forall winner, own
      ensures
        var after := AfterInsert(rules, Inserted(rules, db, r, winner), r, winner, own).0;
        after.Some? ==> after.value.decisions == db.decisions
    {
      AfterInsertLeaves(rules, Inserted(rules, db, r, winner), r, winner, own);
    }
  }

  lemma InsertedLeaves(rules: Rules, db: Db, r: Request)
    ensures forall winner :: Inserted(rules, db, r, winner).decisions == db.decisions
  {
    hide IsSuspicious;
  }

  lemma SettleLeaves(rules: Rules)
    ensures forall db, s, m, w {:trigger Settle(rules, db, s, m, w)} ::
      Settle(rules, db, s, m, w).Some? ==> Settle(rules, db, s, m, w).value.decisions == db.decisions
  {
    hide MatchExists;
  }

  lemma ResolveLeavesDecisions(rules: Rules, db: Db, token: nat)
    ensures Resolve(rules, db, token).decisions == db.decisions
  {
    hide Settle;
    SettleLeaves(rules);
  }

  lemma AppendLeavesDecisions(rules: Rules, db: Db, step: Step)
    requires step.AppendCommitment?
    ensures Next(rules, db, step).decisions == db.decisions
  {
    hide RowsOf, IsParty;
  }

  lemma SetStatusAt(db: Db, session: string, status: DecisionStatus, s: string)
    requires session in db.decisions && s in db.decisions
    ensures
      var after := SetStatus(db, session, status).decisions;
      s in after && after[s] == if session == s then db.decisions[s].(status := status) else db.decisions[s]
  {
  }

  lemma ClaimFollows(db: Db, session: string, s: string)
    requires s in db.decisions
    ensures
      var claimed := ClaimTx(db, session);
      s in claimed.decisions
      && claimed.decisions[s] == db.decisions[s].(status := StatusAfter(db, ClaimDecision(session), s))
  {
    hide SetStatus;
    if session in db.decisions { SetStatusAt(db, session, Processing(db.nextToken, true), s); }
  }

  lemma ExpireFollows(db: Db, session: string, s: string)
    requires s in db.decisions
    ensures
      var expired := ExpireLease(db, session);
      s in expired.decisions
      && expired.decisions[s] == db.decisions[s].(status := StatusAfter(db, LoseLease(session), s))
  {
    hide SetStatus;
    if session in db.decisions && db.decisions[session].status.Processing? {
      SetStatusAt(db, session, db.decisions[session].status.(live := false), s);
    }
  }

  lemma MarkFollows(db: Db, token: nat, s: string)
    requires s in db.decisions
    ensures
      s in Mark(db, token).decisions
      && Mark(db, token).decisions[s] == db.decisions[s].(status := StatusAfter(db, MarkClaim(token), s))
  {
    hide SetStatus;
    if token in db.claims && HoldsClaim(db, db.claims[token].sessionId, token) {
      var c, done := db.claims[token], db.(claims := db.claims - {token});
      SetStatusAt(done, c.sessionId, EndOf(c, db.decisions[c.sessionId].status), s);
    }
  }

  lemma RetryFollows(db: Db, token: nat, s: string)
    requires s in db.decisions
    ensures
      s in Retry(db, token).decisions
      && Retry(db, token).decisions[s] == db.decisions[s].(status := StatusAfter(db, RetryClaim(token), s))
  {
    hide SetStatus;
    if token in db.claims && HoldsClaim(db, db.claims[token].sessionId, token) {
      SetStatusAt(db.(claims := db.claims - {token}), db.claims[token].sessionId, Pending, s);
    }
  }

  lemma EnqueueFollows(db: Db, session: string, d: Decision, s: string)
    requires s in db.decisions
    ensures
      Enqueue(db, session, d).Some? ==>
        s in Enqueue(db, session, d).value.decisions && Enqueue(db, session, d).value.decisions[s] == db.decisions[s]
  {
  }

  /** A step changes the status of a decision as said, and nothing else of it. */
  lemma StatusFollows(rules: Rules, db: Db, step: Step, s: string)
    requires s in db.decisions
    ensures
      var after := Next(rules, db, step);
      s in after.decisions && after.decisions[s] == db.decisions[s].(status := StatusAfter(db, step, s))
  {
    hide Submit, Resolve, AppendTx, ClaimTx, ExpireLease, Mark, Retry, Enqueue, EndOf;
    match step
    case AppendCommitment(_, _, _) => AppendLeavesDecisions(rules, db, step);
    case SubmitResult(r, memory) => SubmitLeavesDecisions(rules, db, r, memory);
    case EnqueueDecision(session, d) => EnqueueFollows(db, session, d, s);
    case ClaimDecision(session) => ClaimFollows(db, session, s);
    case LoseLease(session) => ExpireFollows(db, session, s);
    case ResolveClaim(token) => ResolveLeavesDecisions(rules, db, token);
    case MarkClaim(token) => MarkFollows(db, token, s);
    case RetryClaim(token) => RetryFollows(db, token, s);
    case CrashWorker(_) =>
  }

  // ---------------------------------------------------------------- what else is stored

  /**
   A decision is enqueued unless a different one is stored; a new one is pending, an equal one stays
   as it is.
   */
  lemma EnqueueMeans(db: Db, s: string, d: Decision)
    ensures
      var after := Enqueue(db, s, d);
      && (after.Some? <==> s !in db.decisions || db.decisions[s].decision == d)
      && (after.Some? && s in db.decisions ==> after.value == db)
      && (after.Some? && s !in db.decisions ==>
            after.value == db.(decisions := after.value.decisions)
            && after.value.decisions.Keys == db.decisions.Keys + {s}
            && after.value.decisions[s] == DecisionRow(d, Pending))
  {
  }

  /** A crash forgets the claim and changes nothing else; a resolution for a different decision rolls back. */
  lemma NothingIsLeft(rules: Rules, db: Db, token: nat)
    ensures Next(rules, db, CrashWorker(token)) == db.(claims := db.claims - {token})
    ensures token in db.claims ==>
      var c := db.claims[token];
      c.sessionId in db.resolutions && db.resolutions[c.sessionId].decision != c.decision ==>
        Next(rules, db, ResolveClaim(token)) == db
  {
  }

  /** The commitment is of a live session, by one of its players and for that player's own side. */
  predicate OwnCommitment(rules: Rules, c: Submission<Digest>, live: bool) {
    var p, id := rules.parties(c.identity.sessionId), c.identity;
    live && ((id.accountId == p.p1 && id.side == P1) || (id.accountId == p.p2 && id.accountId != p.p1 && id.side == P2))
  }

  /** A stored chain changes only when its own player's commitment is accepted, and then as the store says. */
  lemma ChainsFollow(rules: Rules, db: Db, c: Submission<Digest>, live: bool, nowMs: int, s: string, account: string)
    ensures
      var after, rows := AppendTx(rules, db, c, live, nowMs), RowsOf(db, s, account);
      var appended := Append(rules.h, rows, c, nowMs);
      && RowsOf(after, s, account) ==
           (if OwnCommitment(rules, c, live) && c.identity.sessionId == s && c.identity.accountId == account
               && appended.Ok? then appended.value.rows else rows)
      && after == db.(commitments := after.commitments)
  {
    hide Append;
  }

  // ---------------------------------------------------------------- a worker that is left alone

  predicate Unclaimed(db: Db, s: string) {
    s in db.decisions &&
    (db.decisions[s].status.Pending? || (db.decisions[s].status.Processing? && !db.decisions[s].status.live))
  }

  /** Claiming hands out the decision under a fresh token. */
  lemma ClaimHandsOut(db: Db, s: string)
    requires Unclaimed(db, s)
    ensures
      var t := db.nextToken;
      ClaimTx(db, s) ==
        db.(decisions := db.decisions[s := db.decisions[s].(status := Processing(t, true))],
            claims := db.claims[t := Claim(s, db.decisions[s].decision, None)], nextToken := t + 1)
  {
  }

  /** A no-contest is claimed and marked: the decision is settled, and no match or rating moves. */
  lemma NoContestIsCarriedOut(rules: Rules, db: Db, s: string)
    requires Unclaimed(db, s) && db.decisions[s].decision.ruling.NoContest?
    ensures
      var claimed := Next(rules, db, ClaimDecision(s));
      var marked := Next(rules, claimed, MarkClaim(db.nextToken));
      && s in marked.decisions && marked.decisions[s] == db.decisions[s].(status := Settled(None))
      && db.nextToken !in marked.claims
      && marked.matches == db.matches && marked.ratings == db.ratings && marked.deltas == db.deltas
  {
    ClaimHandsOut(db, s);
    hide ClaimTx;
  }

  /** The forfeit's match can be settled: both ratings stay positive. */
  predicate CanMove(rules: Rules, db: Db, s: string)
    requires s in db.decisions && db.decisions[s].decision.ruling.Forfeited?
  {
    var d := db.decisions[s].decision;
    var x, y := RatingOf(db.ratings, d.parties.p1), RatingOf(db.ratings, d.parties.p2);
    var change := rules.change(x, y, d.ruling.winner);
    d.parties.p1 != d.parties.p2 && x + change.0 > 0 && y + change.1 > 0
  }

  /**
   A forfeit of a session that is not settled is claimed, resolved and marked: the match is the
   ruling's, and the decision is settled with it.
   */
  lemma ForfeitIsCarriedOut(rules: Rules, db: Db, s: string)
    requires Inv(rules, db) && Unclaimed(db, s) && s !in db.matches
    requires db.decisions[s].decision.ruling.Forfeited? && CanMove(rules, db, s)
    ensures
      var d, t := db.decisions[s].decision, db.nextToken;
      var claimed := Next(rules, db, ClaimDecision(s));
      var marked := Next(rules, Next(rules, claimed, ResolveClaim(t)), MarkClaim(t));
      && s in marked.matches
      && marked.matches[s] == Match(s, d.parties, Forfeit, AccountOf(d.parties, d.ruling.winner), Authoritative)
      && s in marked.decisions && marked.decisions[s] == db.decisions[s].(status := Settled(Some(s)))
      && t !in marked.claims
  {
    var d, t := db.decisions[s].decision, db.nextToken;
    ClaimHandsOut(db, s);
    UnsettledIsUnresolved(rules, db, s);
    hide Inv, ClaimTx, ExpireLease, AppendTx, Submit, Enqueue, Retry;
    var claimed := ClaimTx(db, s);
    var m := Match(s, d.parties, Forfeit, AccountOf(d.parties, d.ruling.winner), Authoritative);
    assert !MatchExists(claimed.matches, s, s);
    SettlesForfeit(rules, claimed, s, d, t, m);
    MarksSettled(Resolve(rules, claimed, t), s, t);
    hide Resolve, Mark;
  }

  lemma UnsettledIsUnresolved(rules: Rules, db: Db, s: string)
    requires Inv(rules, db) && s !in db.matches
    ensures s !in db.resolutions && !MatchExists(db.matches, s, s)
  {
    if s in db.resolutions { ResolvedIsMatched(rules, db, s); }
    hide UploadsOk, RulingsOk, MoneyOk, AttestationsOk, Agreed, Ruled;
    assert forall other :: other in db.matches ==> MatchOk(rules, db, other, db.matches[other]);
  }

  lemma SettlesForfeit(rules: Rules, db: Db, s: string, d: Decision, t: nat, m: Match)
    requires t in db.claims && db.claims[t] == Claim(s, d, None) && d.ruling.Forfeited?
    requires s !in db.resolutions && !MatchExists(db.matches, s, s)
    requires
      var x, y := RatingOf(db.ratings, d.parties.p1), RatingOf(db.ratings, d.parties.p2);
      var change := rules.change(x, y, d.ruling.winner);
      d.parties.p1 != d.parties.p2 && x + change.0 > 0 && y + change.1 > 0
    requires m == Match(s, d.parties, Forfeit, AccountOf(d.parties, d.ruling.winner), Authoritative)
    ensures
      var after := Resolve(rules, db, t);
      && after.matches == db.matches[s := m] && after.decisions == db.decisions
      && after.claims == db.claims[t := Claim(s, d, Some(WasSettled))]
  {
    assert Settle(rules, db, s, m, d.ruling.winner).Some?;
    SettleShape(rules, db, s, m, d.ruling.winner);
    hide Settle, MatchExists;
  }

  lemma MarksSettled(db: Db, s: string, t: nat)
    requires t in db.claims && db.claims[t].sessionId == s && db.claims[t].decision.ruling.Forfeited?
    requires db.claims[t].result == Some(WasSettled) && HoldsClaim(db, s, t)
    ensures
      var after := Mark(db, t);
      && s in after.decisions && after.decisions[s] == db.decisions[s].(status := Settled(Some(s)))
      && after.matches == db.matches && t !in after.claims
  {
  }
}
