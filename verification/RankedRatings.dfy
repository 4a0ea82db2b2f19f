/**
 What a recorded rating change is: the rating rule applied to the two ratings as they stood before
 the match and to its winner, for every settlement of every run.
 */
module RankedRatings {
  import opened Wrappers
  import opened CommitmentChain
  import opened CommitmentStore
  import opened RankedSettlement
  import opened RankedSettlementSafety
  import opened RankedSettlementTheorems

  /** The side whose account won the match. */
  function WinningSide(m: Match): Side { if m.winner == m.parties.p1 then P1 else P2 }

  /** An account's rating after the first i recorded changes. */
  function RatingAfter(deltas: seq<Delta>, i: nat, account: string): int
    requires i <= |deltas|
  {
    INITIAL_RATING + Total(deltas[..i], account)
  }

  /** The p-th pair of changes is what the rating rule gives for this match. */
  ghost predicate ByRule(rules: Rules, deltas: seq<Delta>, p: nat, m: Match) {
    && PairOf(deltas, p, m) && m.winner == AccountOf(m.parties, WinningSide(m))
    && (deltas[2 * p].amount, deltas[2 * p + 1].amount) ==
         rules.change(RatingAfter(deltas, 2 * p, m.parties.p1), RatingAfter(deltas, 2 * p, m.parties.p2),
                      WinningSide(m))
  }

  ghost predicate AllByRule(rules: Rules, db: Db) {
    forall s, p: nat :: s in db.matches && PairOf(db.deltas, p, db.matches[s]) ==>
      ByRule(rules, db.deltas, p, db.matches[s])
  }

  ghost predicate AllPositive(db: Db) {
    forall a :: RatingOf(db.ratings, a) > 0
  }

  // ---------------------------------------------------------------- one step

  predicate Unmoved(before: Db, after: Db) {
    after.matches == before.matches && after.ratings == before.ratings && after.deltas == before.deltas
  }

  /** A match is added with the two changes of its participants, and both ratings stay positive. */
  ghost predicate Moved(rules: Rules, before: Db, after: Db, m: Match) {
    var p := m.parties;
    var change := rules.change(RatingOf(before.ratings, p.p1), RatingOf(before.ratings, p.p2), WinningSide(m));
    && m.matchId !in before.matches && after.matches == before.matches[m.matchId := m]
    && p.p1 != p.p2 && m.winner == AccountOf(p, WinningSide(m))
    && after.deltas == before.deltas + [Delta(m.matchId, p.p1, change.0), Delta(m.matchId, p.p2, change.1)]
    && RatingOf(after.ratings, p.p1) > 0 && RatingOf(after.ratings, p.p2) > 0
    && forall a :: a != p.p1 && a != p.p2 ==> RatingOf(after.ratings, a) == RatingOf(before.ratings, a)
  }

  ghost predicate Moves(rules: Rules, before: Db, after: Db) {
    Unmoved(before, after) || exists m :: Moved(rules, before, after, m)
  }

  lemma SettleMoves(rules: Rules, db: Db, m: Match, winner: Side, after: Db)
    requires Settle(rules, db, m.matchId, m, winner).Some? && m.winner == AccountOf(m.parties, winner)
    requires
      var settled := Settle(rules, db, m.matchId, m, winner).value;
      after.matches == settled.matches && after.ratings == settled.ratings && after.deltas == settled.deltas
    ensures Moved(rules, db, after, m)
  {
    hide MatchExists;
    assert m.matchId !in db.matches by { SettleShape(rules, db, m.matchId, m, winner); }
  }

  lemma FlagAllDoesNotMove(db: Db, s: string)
    ensures Unmoved(db, FlagAll(db, s))
  {
  }

  lemma InsertedDoesNotMove(rules: Rules, db: Db, r: Request, winner: Side)
    ensures Unmoved(db, Inserted(rules, db, r, winner))
  {
    hide IsSuspicious;
  }

  lemma AfterInsertMoves(rules: Rules, db: Db, r: Request, winner: Side, own: Digest)
    requires DigestsTellApart(rules) && Inv(rules, db) && Admit(rules, r) == Ok(winner)
    requires r.sessionId !in db.decisions && (r.sessionId, r.accountId) !in db.submissions
    requires
      var side := if rules.parties(r.sessionId).p1 == r.accountId then P1 else P2;
      ChainDigest(rules, r.payload.proof, r.accountId, side, RowsOf(db, r.sessionId, r.accountId)) == Some(own)
    ensures
      var after := AfterInsert(rules, Inserted(rules, db, r, winner), r, winner, own).0;
      after.Some? ==> Moves(rules, db, after.value)
  {
    hide Inv, ChainDigest, SettleAgreed, PeerOf, Agree, IsSuspicious, Admit, DigestsTellApart, Moved, FlagAll,
         Inserted, ReadyToSettle;
    var parties, inserted := rules.parties(r.sessionId), Inserted(rules, db, r, winner);
    var side := if parties.p1 == r.accountId then P1 else P2;
    var peer := PeerOf(inserted, r.sessionId, AccountOf(parties, Opposite(side)));
    HasOwnRow(rules, db, r, winner);
    InsertedDoesNotMove(rules, db, r, winner);
    FlagAllDoesNotMove(inserted, r.sessionId);
    if !IsSuspicious(parties, r) && peer.Some? && Agree(peer.value, inserted.submissions[(r.sessionId, r.accountId)])
       && SettleAgreed(rules, inserted, r, winner, own).0.Some? {
      SubmitReady(rules, db, r, winner, own, peer.value);
      AgreedMoves(rules, db, inserted, r, winner, own);
    }
  }

  lemma SubmitTxMoves(rules: Rules, db: Db, r: Request, memory: Memory, winner: Side)
    requires DigestsTellApart(rules) && Inv(rules, db) && Admit(rules, r) == Ok(winner)
    ensures
      var after := SubmitTx(rules, db, r, memory, winner).0;
      after.Some? ==> Moves(rules, db, after.value)
  {
    hide Inv, ChainDigest, AfterInsert, Inserted, Admit, DigestsTellApart, Moves, RowsOf;
    var side := if rules.parties(r.sessionId).p1 == r.accountId then P1 else P2;
    var own := ChainDigest(rules, r.payload.proof, r.accountId, side, RowsOf(db, r.sessionId, r.accountId));
    if r.sessionId !in db.decisions && (r.sessionId, r.accountId) !in db.submissions && own.Some? {
      AfterInsertMoves(rules, db, r, winner, own.value);
    }
  }

  lemma AgreedMoves(rules: Rules, db: Db, inserted: Db, r: Request, winner: Side, own: Digest)
    requires ReadyToSettle(rules, inserted, r, winner, own) && Unmoved(db, inserted)
    requires SettleAgreed(rules, inserted, r, winner, own).0.Some?
    ensures
      var m := Match(r.matchId, rules.parties(r.sessionId), r.outcome,
                     AccountOf(rules.parties(r.sessionId), winner), Consensus(r.accountId));
      Moved(rules, db, SettleAgreed(rules, inserted, r, winner, own).0.value, m)
  {
    var parties := rules.parties(r.sessionId);
    var m := Match(r.matchId, parties, r.outcome, AccountOf(parties, winner), Consensus(r.accountId));
    var after := SettleAgreed(rules, inserted, r, winner, own).0.value;
    AgreedSettles(rules, inserted, r, winner, own);
    hide ReadyToSettle, SettleAgreed, Settle;
    SettleMoves(rules, inserted.(proofs := after.proofs), m, winner, after);
  }

  lemma ResolveMoves(rules: Rules, db: Db, token: nat)
    ensures Moves(rules, db, Resolve(rules, db, token))
  {
    hide Settle, Moved;
    if token in db.claims && db.claims[token].decision.ruling.Forfeited? {
      var s, d := db.claims[token].sessionId, db.claims[token].decision;
      var m := Match(s, d.parties, Forfeit, AccountOf(d.parties, d.ruling.winner), Authoritative);
      var settled := Settle(rules, db, s, m, d.ruling.winner);
      if settled.Some? {
        SettleMoves(rules, db, m, d.ruling.winner, settled.value);
        StillMoved(rules, db, settled.value, Resolve(rules, db, token), m);
      }
    }
  }

  lemma StillMoved(rules: Rules, before: Db, settled: Db, after: Db, m: Match)
    requires Moved(rules, before, settled, m)
    ensures Unmoved(settled, after) ==> Moved(rules, before, after, m)
  {
  }

  lemma AppendDoesNotMove(rules: Rules, db: Db, s: Submission<Digest>, live: bool, nowMs: int)
    ensures Unmoved(db, AppendTx(rules, db, s, live, nowMs))
  {
    hide Append, IsParty, RowsOf;
  }

  lemma StatusDoesNotMove(db: Db, s: string, status: DecisionStatus)
    requires s in db.decisions
    ensures Unmoved(db, SetStatus(db, s, status))
  {
  }

  lemma ClaimDoesNotMove(db: Db, s: string)
    ensures Unmoved(db, ClaimTx(db, s)) && Unmoved(db, ExpireLease(db, s))
  {
    hide Claimable, SetStatus;
    if s in db.decisions {
      StatusDoesNotMove(db, s, Processing(db.nextToken, true));
      if db.decisions[s].status.Processing? { StatusDoesNotMove(db, s, db.decisions[s].status.(live := false)); }
    }
  }

  lemma MarkDoesNotMove(db: Db, token: nat)
    ensures Unmoved(db, Mark(db, token))
  {
    hide HoldsClaim, SetStatus;
    if token in db.claims && HoldsClaim(db, db.claims[token].sessionId, token) {
      var s, done := db.claims[token].sessionId, db.(claims := db.claims - {token});
      HolderHasRow(db, s, token);
      StatusDoesNotMove(done, s, Settled(None));
      StatusDoesNotMove(done, s, Settled(Some(s)));
      StatusDoesNotMove(done, s, Superseded);
    }
  }

  lemma RetryDoesNotMove(db: Db, token: nat)
    ensures Unmoved(db, Retry(db, token))
  {
    hide HoldsClaim, SetStatus;
    if token in db.claims && HoldsClaim(db, db.claims[token].sessionId, token) {
      HolderHasRow(db, db.claims[token].sessionId, token);
      StatusDoesNotMove(db.(claims := db.claims - {token}), db.claims[token].sessionId, Pending);
    }
  }

  lemma HolderHasRow(db: Db, s: string, token: nat)
    requires HoldsClaim(db, s, token)
    ensures s in db.decisions
  {
  }

  lemma EnqueueDoesNotMove(db: Db, s: string, d: Decision)
    ensures Enqueue(db, s, d).Some? ==> Unmoved(db, Enqueue(db, s, d).value)
  {
  }

  /** Only a submission and a resolution touch matches and ratings. */
  lemma OthersDoNotMove(rules: Rules, db: Db, step: Step)
    requires !step.SubmitResult? && !step.ResolveClaim?
    ensures Unmoved(db, Next(rules, db, step))
  {
    hide Submit, Resolve, AppendTx, ClaimTx, ExpireLease, Mark, Retry, Enqueue;
    match step
    case AppendCommitment(s, live, nowMs) => AppendDoesNotMove(rules, db, s, live, nowMs);
    case EnqueueDecision(s, d) => EnqueueDoesNotMove(db, s, d);
    case ClaimDecision(s) => ClaimDoesNotMove(db, s);
    case LoseLease(s) => ClaimDoesNotMove(db, s);
    case MarkClaim(token) => MarkDoesNotMove(db, token);
    case RetryClaim(token) => RetryDoesNotMove(db, token);
    case CrashWorker(_) =>
  }

  /** Every step leaves matches and ratings alone, or adds one match as the rating rule says. */
  lemma NextMoves(rules: Rules, db: Db, step: Step)
    requires DigestsTellApart(rules) && Inv(rules, db)
    ensures Moves(rules, db, Next(rules, db, step))
  {
    hide Inv, DigestsTellApart, SubmitTx, Admit, Resolve, Moved;
    match step
    case SubmitResult(r, memory) =>
      if Admit(rules, r).Ok? { SubmitTxMoves(rules, db, r, memory, Admit(rules, r).value); }
    case ResolveClaim(token) => ResolveMoves(rules, db, token);
    case _ =>
      OthersDoNotMove(rules, db, step);
      hide Next;
  }

  // ---------------------------------------------------------------- every run

  lemma TotalOfPrefix(deltas: seq<Delta>, longer: seq<Delta>, i: nat, account: string)
    requires deltas <= longer && i <= |deltas|
    ensures RatingAfter(longer, i, account) == RatingAfter(deltas, i, account)
  {
    assert longer[..i] == deltas[..i];
  }

  /** The new pair follows the rule, for the ratings are the recorded changes so far. */
  lemma NewPairByRule(rules: Rules, before: Db, after: Db, m: Match)
    requires RatingsOk(before) && |before.deltas| % 2 == 0 && Moved(rules, before, after, m)
    ensures ByRule(rules, after.deltas, |before.deltas| / 2, m)
  {
    var n := |before.deltas|;
    assert after.deltas[..n] == before.deltas;
    assert RatingOf(before.ratings, m.parties.p1) == INITIAL_RATING + Total(before.deltas, m.parties.p1);
    assert RatingOf(before.ratings, m.parties.p2) == INITIAL_RATING + Total(before.deltas, m.parties.p2);
  }

  lemma OldPairByRule(rules: Rules, deltas: seq<Delta>, longer: seq<Delta>, p: nat, m: Match)
    requires ByRule(rules, deltas, p, m) && deltas <= longer
    ensures ByRule(rules, longer, p, m)
  {
    TotalOfPrefix(deltas, longer, 2 * p, m.parties.p1);
    TotalOfPrefix(deltas, longer, 2 * p, m.parties.p2);
  }

  lemma NewPairIsLast(deltas: seq<Delta>, longer: seq<Delta>, m: Match, p: nat)
    requires deltas <= longer && |longer| == |deltas| + 2 && |deltas| % 2 == 0 && PairOf(longer, p, m)
    requires forall i :: 0 <= i < |deltas| ==> deltas[i].matchId != m.matchId
    ensures 2 * p == |deltas|
  {
    assert forall i :: 0 <= i < |deltas| ==> longer[i] == deltas[i];
  }

  lemma MovedKeepsRule(rules: Rules, before: Db, after: Db, m: Match)
    requires MoneyOk(before) && AllByRule(rules, before) && Moved(rules, before, after, m)
    requires forall s :: s in before.matches ==> before.matches[s].matchId == s
    ensures AllByRule(rules, after)
  {
    var n := |before.deltas|;
    NewPairByRule(rules, before, after, m);
    forall s, p: nat | s in after.matches && PairOf(after.deltas, p, after.matches[s])
      ensures ByRule(rules, after.deltas, p, after.matches[s])
    {
      if s == m.matchId {
        NewPairIsLast(before.deltas, after.deltas, m, p);
      } else {
        assert 2 * p < n;
        assert PairOf(before.deltas, p, before.matches[s]);
        OldPairByRule(rules, before.deltas, after.deltas, p, before.matches[s]);
      }
    }
  }

  lemma MatchIdsAreKeys(rules: Rules, db: Db)
    requires Inv(rules, db)
    ensures forall s :: s in db.matches ==> db.matches[s].matchId == s
  {
    hide UploadsOk, RulingsOk, MoneyOk, AttestationsOk, Agreed, Ruled;
  }

  lemma NextByRule(rules: Rules, db: Db, step: Step)
    requires DigestsTellApart(rules) && Inv(rules, db) && AllByRule(rules, db) && AllPositive(db)
    ensures AllByRule(rules, Next(rules, db, step)) && AllPositive(Next(rules, db, step))
  {
    hide Inv, Next, DigestsTellApart, AllByRule, Moved, MoneyOk;
    var after := Next(rules, db, step);
    NextMoves(rules, db, step);
    MatchIdsAreKeys(rules, db);
    if Unmoved(db, after) {
      UnmovedKeepsRule(rules, db, after);
    } else {
      var m :| Moved(rules, db, after, m);
      MoneyOfInv(rules, db);
      MovedKeepsRule(rules, db, after, m);
      MovedStaysPositive(rules, db, after, m);
    }
  }

  lemma StartsByRule(rules: Rules)
    ensures AllByRule(rules, Empty()) && AllPositive(Empty())
  {
  }

  lemma {:induction false} RunByRule(rules: Rules, steps: seq<Step>, states: seq<Db>, k: nat)
    requires DigestsTellApart(rules) && IsRun(rules, steps, states) && k <= |steps|
    ensures AllByRule(rules, states[k]) && AllPositive(states[k])
    decreases k
  {
    hide Inv, Next, DigestsTellApart, Possible, AllByRule, AllPositive;
    if k == 0 {
      StartsByRule(rules);
    } else {
      RunByRule(rules, steps, states, k - 1);
      RunKeepsInv(rules, steps, states, k - 1);
      assert states[k - 1 + 1] == Next(rules, states[k - 1], steps[k - 1]);
      NextByRule(rules, states[k - 1], steps[k - 1]);
    }
  }

  lemma MoneyOfInv(rules: Rules, db: Db)
    requires Inv(rules, db)
    ensures MoneyOk(db)
  {
  }

  lemma UnmovedKeepsRule(rules: Rules, before: Db, after: Db)
    requires AllByRule(rules, before) && Unmoved(before, after)
    ensures AllByRule(rules, after)
  {
  }

  lemma MovedStaysPositive(rules: Rules, before: Db, after: Db, m: Match)
    requires AllPositive(before) && Moved(rules, before, after, m)
    ensures AllPositive(after)
  {
    forall a ensures RatingOf(after.ratings, a) > 0 {
      if a != m.parties.p1 && a != m.parties.p2 {
        assert RatingOf(after.ratings, a) == RatingOf(before.ratings, a);
      }
    }
  }

  /**
   In every run, for every settled match, by consensus or by forfeit: its pair of recorded changes is
   what the rating rule gives for the two ratings before it, as the earlier changes add up, and for
   the side that won.
   */
  lemma ChangesFollowTheRule(rules: Rules, steps: seq<Step>, states: seq<Db>, k: nat, s: string, p: nat)
    requires DigestsTellApart(rules) && IsRun(rules, steps, states) && k <= |steps|
    requires s in states[k].matches && PairOf(states[k].deltas, p, states[k].matches[s])
    ensures ByRule(rules, states[k].deltas, p, states[k].matches[s])
    ensures states[k].matches[s].parties == rules.parties(s)
  {
    assert |states| == |steps| + 1;
    hide IsRun, DigestsTellApart, Inv, PairOf, AllByRule, AllPositive, ByRule;
    RunByRule(rules, steps, states, k);
    RunKeepsInv(rules, steps, states, k);
    PartiesOfMatch(rules, states[k], s);
    PairByRule(rules, states[k], s, p);
  }

  lemma PairByRule(rules: Rules, db: Db, s: string, p: nat)
    requires AllByRule(rules, db) && s in db.matches && PairOf(db.deltas, p, db.matches[s])
    ensures ByRule(rules, db.deltas, p, db.matches[s])
  {
  }

  lemma PartiesOfMatch(rules: Rules, db: Db, s: string)
    requires Inv(rules, db) && s in db.matches
    ensures db.matches[s].parties == rules.parties(s)
  {
    hide UploadsOk, RulingsOk, MoneyOk, AttestationsOk, Agreed, Ruled;
  }

  /** No rating ever falls to zero. */
  lemma RatingsStayPositive(rules: Rules, steps: seq<Step>, states: seq<Db>, k: nat, account: string)
    requires DigestsTellApart(rules) && IsRun(rules, steps, states) && k <= |steps|
    ensures RatingOf(states[k].ratings, account) > 0
  {
    assert |states| == |steps| + 1;
    hide IsRun, DigestsTellApart, AllByRule;
    RunByRule(rules, steps, states, k);
  }
}
