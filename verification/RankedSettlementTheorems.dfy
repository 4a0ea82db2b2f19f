/**
 The guarantees of ranked settlement over whole runs: one source per session, decisions and
 consensus exclude each other in the right way, ratings move exactly once, and a consensus rests
 on two agreeing submissions and two chains that attest the replayed proof.
 */
module RankedSettlementTheorems {
  import opened Wrappers
  import opened CommitmentChain
  import opened CommitmentStore
  import opened RankedSettlement
  import opened RankedSettlementSafety

  // ---------------------------------------------------------------- what one step can change

  /** Rows that are never rewritten: matches, decisions, and the mark of suspicion. */
  ghost predicate Extends(before: Db, after: Db) {
    && (forall s :: s in before.matches ==> s in after.matches && after.matches[s] == before.matches[s])
    && (forall s :: s in before.decisions ==> IsRowOf(after.decisions, s, before.decisions[s].decision))
    && (forall k :: k in before.submissions ==>
          k in after.submissions && (before.submissions[k].suspicious ==> after.submissions[k].suspicious))
    && (forall k :: k in before.commitments ==> RowsOf(before, k.0, k.1) <= RowsOf(after, k.0, k.1))
  }

  /** A consensus match appears only where no decision is stored, a ruled one only for a forfeit. */
  ghost predicate NewMatchesAllowed(before: Db, after: Db) {
    forall s :: s in after.matches && s !in before.matches ==>
      if after.matches[s].source.Consensus? then s !in before.decisions
      else s in before.decisions && before.decisions[s].decision.ruling.Forfeited?
  }

  lemma AppendExtends(rules: Rules, db: Db, s: Submission<Digest>, live: bool, nowMs: int)
    requires Inv(rules, db)
    ensures Extends(db, AppendTx(rules, db, s, live, nowMs))
    ensures NewMatchesAllowed(db, AppendTx(rules, db, s, live, nowMs))
  {
    var id := s.identity;
    var rows := RowsOf(db, id.sessionId, id.accountId);
    assert Chained(rules.h, rows) by { hide SourcesOk, RulingsOk, MoneyOk, SubmissionsOk, ProofsOk; }
    AppendKeepsChain(rules.h, rows, s, nowMs);
    hide Chained, Inv;
    var after := AppendTx(rules, db, s, live, nowMs);
    if after == db {
      SameExtends(db);
    } else {
      var a := Append(rules.h, rows, s, nowMs).value;
      hide Append, Extends, NewMatchesAllowed;
      RowsExtend(db, (id.sessionId, id.accountId), a.rows);
    }
  }

  lemma RowsExtend(db: Db, key: (string, string), rows: seq<Stored<Digest>>)
    requires RowsOf(db, key.0, key.1) <= rows
    ensures
      var after := db.(commitments := db.commitments[key := rows]);
      Extends(db, after) && NewMatchesAllowed(db, after)
  {
  }

  lemma SettledExtends(rules: Rules, db: Db, r: Request, winner: Side, own: Digest)
    requires r.sessionId !in db.decisions && SettleAgreed(rules, db, r, winner, own).0.Some?
    ensures
      var after := SettleAgreed(rules, db, r, winner, own).0.value;
      Extends(db, after) && NewMatchesAllowed(db, after)
  {
    hide ChainDigest, Settle;
    var parties := rules.parties(r.sessionId);
    var after := SettleAgreed(rules, db, r, winner, own).0.value;
    var attested := db.(proofs := after.proofs);
    var m := Match(r.matchId, parties, r.outcome, AccountOf(parties, winner), Consensus(r.accountId));
    SettledMatches(rules, db, r, winner, own);
  }

  lemma SettledMatches(rules: Rules, db: Db, r: Request, winner: Side, own: Digest)
    requires SettleAgreed(rules, db, r, winner, own).0.Some?
    ensures
      var after := SettleAgreed(rules, db, r, winner, own).0.value;
      && r.sessionId !in db.matches && r.sessionId in after.matches
      && after.matches == db.matches[r.sessionId := after.matches[r.sessionId]]
      && after.matches[r.sessionId].source.Consensus?
      && after.decisions == db.decisions && after.submissions == db.submissions && after.commitments == db.commitments
  {
    hide ChainDigest;
  }

  lemma InsertedExtends(rules: Rules, db: Db, r: Request, winner: Side)
    requires (r.sessionId, r.accountId) !in db.submissions
    ensures
      var after := Inserted(rules, db, r, winner);
      && Extends(db, after) && Extends(db, FlagAll(after, r.sessionId))
      && after.matches == db.matches && after.decisions == db.decisions
  {
    hide IsSuspicious;
  }

  lemma ExtendsTransitive(a: Db, b: Db, c: Db)
    requires Extends(a, b) && Extends(b, c)
    ensures Extends(a, c)
  {
    forall k | k in a.commitments ensures RowsOf(a, k.0, k.1) <= RowsOf(c, k.0, k.1) {
      assert RowsOf(a, k.0, k.1) <= RowsOf(b, k.0, k.1);
      if k in b.commitments { assert RowsOf(b, k.0, k.1) <= RowsOf(c, k.0, k.1); }
    }
  }

  lemma SubmitExtends(rules: Rules, db: Db, r: Request, memory: Memory, winner: Side)
    ensures
      var after := SubmitTx(rules, db, r, memory, winner).0;
      after.Some? ==> Extends(db, after.value) && NewMatchesAllowed(db, after.value)
  {
    hide ChainDigest, SettleAgreed, Inserted, FlagAll, PeerOf, Agree, IsSuspicious, Extends;
    if r.sessionId !in db.decisions && (r.sessionId, r.accountId) !in db.submissions {
      var parties := rules.parties(r.sessionId);
      var side := if parties.p1 == r.accountId then P1 else P2;
      var own := ChainDigest(rules, r.payload.proof, r.accountId, side, RowsOf(db, r.sessionId, r.accountId));
      InsertedExtends(rules, db, r, winner);
      HasOwnRow(rules, db, r, winner);
      FlagLeavesMatches(Inserted(rules, db, r, winner), r.sessionId);
      if own.Some? && SettleAgreed(rules, Inserted(rules, db, r, winner), r, winner, own.value).0.Some? {
        SettledExtends(rules, Inserted(rules, db, r, winner), r, winner, own.value);
        ExtendsTransitive(db, Inserted(rules, db, r, winner),
                          SettleAgreed(rules, Inserted(rules, db, r, winner), r, winner, own.value).0.value);
      }
    }
  }

  lemma FlagLeavesMatches(db: Db, sessionId: string)
    ensures FlagAll(db, sessionId).matches == db.matches
  {
  }

  lemma MatchAddedExtends(before: Db, after: Db, s: string)
    requires after.decisions == before.decisions && after.submissions == before.submissions
    requires after.commitments == before.commitments
    requires after.matches == before.matches ||
      (s !in before.matches && s in after.matches && after.matches == before.matches[s := after.matches[s]]
       && after.matches[s].source.Authoritative?
       && s in before.decisions && before.decisions[s].decision.ruling.Forfeited?)
    ensures Extends(before, after) && NewMatchesAllowed(before, after)
  {
  }

  lemma ResolveExtends(rules: Rules, db: Db, token: nat)
    requires Inv(rules, db)
    ensures Extends(db, Resolve(rules, db, token)) && NewMatchesAllowed(db, Resolve(rules, db, token))
  {
    hide Extends, NewMatchesAllowed;
    SameExtends(db);
    if token in db.claims && db.claims[token].decision.ruling.Forfeited? {
      var c := db.claims[token];
      ClaimIsOk(rules, db, token);
      hide Inv, ResultOk;
      if ResolveTx(rules, db, c.sessionId, c.decision).Some? {
        ResolvedShape(rules, db, c.sessionId, c.decision);
        hide ResolveTx;
        MatchAddedExtends(db, Resolve(rules, db, token), c.sessionId);
      }
    }
  }

  lemma ResolvedShape(rules: Rules, db: Db, sessionId: string, d: Decision)
    requires d.ruling.Forfeited? && ResolveTx(rules, db, sessionId, d).Some?
    ensures
      var after := ResolveTx(rules, db, sessionId, d).value.0;
      && after.decisions == db.decisions && after.submissions == db.submissions && after.commitments == db.commitments
      && (after.matches == db.matches ||
            (sessionId !in db.matches && sessionId in after.matches
             && after.matches == db.matches[sessionId := after.matches[sessionId]]
             && after.matches[sessionId].source.Authoritative?))
  {
    hide Settle;
    var m := Match(sessionId, d.parties, Forfeit, AccountOf(d.parties, d.ruling.winner), Authoritative);
    if Settle(rules, db, sessionId, m, d.ruling.winner).Some? { SettleShape(rules, db, sessionId, m, d.ruling.winner); }
  }

  /** Statuses, claims and new decision rows change nothing that counts here. */
  ghost predicate Leaves(before: Db, after: Db) {
    && after.matches == before.matches && after.submissions == before.submissions
    && after.commitments == before.commitments
    && forall s :: s in before.decisions ==> IsRowOf(after.decisions, s, before.decisions[s].decision)
  }

  lemma LeavesExtends(before: Db, after: Db)
    requires Leaves(before, after)
    ensures Extends(before, after) && NewMatchesAllowed(before, after)
  {
  }

  lemma EnqueueLeaves(db: Db, s: string, d: Decision)
    ensures Enqueue(db, s, d).Some? ==> Leaves(db, Enqueue(db, s, d).value)
  {
  }

  lemma StatusLeaves(db: Db, after: Db, s: string, status: DecisionStatus)
    requires s in db.decisions && after.decisions == SetStatus(db, s, status).decisions
    requires after.matches == db.matches && after.submissions == db.submissions && after.commitments == db.commitments
    ensures Leaves(db, after)
  {
  }

  lemma SameLeaves(db: Db, after: Db)
    requires after.decisions == db.decisions
    requires after.matches == db.matches && after.submissions == db.submissions && after.commitments == db.commitments
    ensures Leaves(db, after)
  {
  }

  lemma ClaimLeaves(db: Db, s: string)
    ensures Leaves(db, ClaimTx(db, s))
  {
    hide Leaves;
    SameLeaves(db, db);
    if s in db.decisions && Claimable(db.decisions[s].status) {
      StatusLeaves(db, ClaimTx(db, s), s, Processing(db.nextToken, true));
    }
  }

  lemma ExpireLeaves(db: Db, s: string)
    ensures Leaves(db, ExpireLease(db, s))
  {
    hide Leaves;
    SameLeaves(db, db);
    if s in db.decisions && db.decisions[s].status.Processing? {
      StatusLeaves(db, ExpireLease(db, s), s, db.decisions[s].status.(live := false));
    }
  }

  lemma DropLeaves(db: Db, token: nat)
    ensures Leaves(db, db.(claims := db.claims - {token})) && Leaves(db, db)
  {
    hide Leaves;
    SameLeaves(db, db);
    SameLeaves(db, db.(claims := db.claims - {token}));
  }

  lemma GivenStatusLeaves(db: Db, token: nat, s: string, status: DecisionStatus)
    requires s in db.decisions
    ensures Leaves(db, SetStatus(db.(claims := db.claims - {token}), s, status))
  {
    StatusLeaves(db, SetStatus(db.(claims := db.claims - {token}), s, status), s, status);
  }

  lemma MarkLeaves(db: Db, token: nat)
    ensures Leaves(db, Mark(db, token)) && Leaves(db, Retry(db, token))
  {
    hide Leaves, SetStatus;
    DropLeaves(db, token);
    if token in db.claims && HoldsClaim(db, db.claims[token].sessionId, token) {
      var c := db.claims[token];
      GivenStatusLeaves(db, token, c.sessionId, Pending);
      if MarkedStatus(c).Some? { GivenStatusLeaves(db, token, c.sessionId, MarkedStatus(c).value); }
    }
  }

  lemma DecisionStepsExtend(rules: Rules, db: Db, step: Step)
    requires !step.AppendCommitment? && !step.SubmitResult? && !step.ResolveClaim?
    ensures Extends(db, Next(rules, db, step)) && NewMatchesAllowed(db, Next(rules, db, step))
  {
    assert Leaves(db, Next(rules, db, step)) by {
      hide Leaves, Extends, NewMatchesAllowed, Enqueue, ClaimTx, ExpireLease, Mark, Retry;
      match step
      case EnqueueDecision(s, d) => EnqueueLeaves(db, s, d); DropLeaves(db, 0);
      case ClaimDecision(s) => ClaimLeaves(db, s);
      case LoseLease(s) => ExpireLeaves(db, s);
      case MarkClaim(token) => MarkLeaves(db, token);
      case RetryClaim(token) => MarkLeaves(db, token);
      case CrashWorker(token) => DropLeaves(db, token);
    }
    hide Leaves, Extends, NewMatchesAllowed, Next;
    LeavesExtends(db, Next(rules, db, step));
  }

  lemma NextExtends(rules: Rules, db: Db, step: Step)
    requires Inv(rules, db)
    ensures Extends(db, Next(rules, db, step)) && NewMatchesAllowed(db, Next(rules, db, step))
  {
    hide Inv, Extends, NewMatchesAllowed, AppendTx, SubmitTx, Admit, Resolve;
    match step
    case AppendCommitment(s, live, nowMs) => AppendExtends(rules, db, s, live, nowMs);
    case SubmitResult(r, memory) =>
      SameExtends(db);
      if Admit(rules, r).Ok? { SubmitExtends(rules, db, r, memory, Admit(rules, r).value); }
    case ResolveClaim(token) => ResolveExtends(rules, db, token);
    case _ => DecisionStepsExtend(rules, db, step);
  }

  lemma SameExtends(db: Db)
    ensures Extends(db, db) && NewMatchesAllowed(db, db)
  {
  }

  lemma {:induction false} RunExtends(rules: Rules, steps: seq<Step>, states: seq<Db>, k: nat, n: nat)
    requires DigestsTellApart(rules) && IsRun(rules, steps, states) && k <= n <= |steps|
    ensures Extends(states[k], states[n])
    decreases n
  {
    hide Inv, Next, Possible, DigestsTellApart, Extends;
    assert |states| == |steps| + 1;
    hide IsRun;
    if k == n {
      SameExtends(states[k]);
    } else {
      StateAfter(rules, steps, states, n - 1);
      RunExtends(rules, steps, states, k, n - 1);
      NextExtends(rules, states[n - 1], steps[n - 1]);
      ExtendsTransitive(states[k], states[n - 1], states[n]);
    }
  }

  // ---------------------------------------------------------------- decision first

  /** This decision is stored, and a settlement, if there is one, is by this decision. */
  ghost predicate DecisionHolds(db: Db, s: string, d: Decision) {
    && IsRowOf(db.decisions, s, d)
    && (s in db.matches ==> db.matches[s].source.Authoritative? && d.ruling.Forfeited?)
  }

  lemma StepKeepsDecision(rules: Rules, db: Db, step: Step, s: string, d: Decision)
    requires Inv(rules, db) && DecisionHolds(db, s, d)
    ensures DecisionHolds(Next(rules, db, step), s, d)
  {
    NextExtends(rules, db, step);
    hide Inv, Next;
  }

  lemma {:induction false} DecisionStays(rules: Rules, steps: seq<Step>, states: seq<Db>, k: nat, n: nat, s: string,
                                         d: Decision)
    requires DigestsTellApart(rules) && IsRun(rules, steps, states) && k <= n <= |steps|
    requires DecisionHolds(states[k], s, d)
    ensures DecisionHolds(states[n], s, d)
    decreases n
  {
    hide Inv, Next, Possible, DigestsTellApart, DecisionHolds;
    assert |states| == |steps| + 1;
    hide IsRun;
    if k < n {
      StateAfter(rules, steps, states, n - 1);
      DecisionStays(rules, steps, states, k, n - 1, s, d);
      StepKeepsDecision(rules, states[n - 1], steps[n - 1], s, d);
    }
  }

  /** One step of a run, from a state that keeps the invariant. */
  lemma StateAfter(rules: Rules, steps: seq<Step>, states: seq<Db>, k: nat)
    requires DigestsTellApart(rules) && IsRun(rules, steps, states) && k < |steps|
    ensures |states| == |steps| + 1 && states[k + 1] == Next(rules, states[k], steps[k]) && Inv(rules, states[k])
  {
    RunKeepsInv(rules, steps, states, k);
    hide Next, Possible, Inv, DigestsTellApart;
  }

  /**
   Decision first: once a decision is stored for an unsettled session, no run settles the session
   by consensus. A no-contest never becomes a match and moves no rating; a forfeit settles, if at
   all, for the winner the decision names.
   */
  lemma DecisionFirst(rules: Rules, steps: seq<Step>, states: seq<Db>, k: nat, n: nat, s: string)
    requires DigestsTellApart(rules) && IsRun(rules, steps, states) && k <= n <= |steps|
    requires s in states[k].decisions && s !in states[k].matches
    ensures
      var ruling := states[k].decisions[s].decision.ruling;
      && !ByConsensus(states[n].matches, s)
      && (ruling.NoContest? ==> s !in states[n].matches && forall d :: d in states[n].deltas ==> d.matchId != s)
      && (s in states[n].matches ==>
            ruling.Forfeited? && states[n].matches[s].winner == AccountOf(rules.parties(s), ruling.winner))
  {
    DecisionStays(rules, steps, states, k, n, s, states[k].decisions[s].decision);
    RunKeepsInv(rules, steps, states, n);
    hide IsRun, DigestsTellApart, UploadsOk, AttestationsOk, RulingsOk, RatingsOk, Agreed, PairOf, PairsApart;
    assert s in states[n].matches ==> MatchOk(rules, states[n], s, states[n].matches[s]);
  }

  // ---------------------------------------------------------------- consensus first

  /**
   Consensus first: the settlement stays as it is, and a decision stored later can only end
   superseded (or, for a no-contest, settled without a match); its resolution never settles.
   */
  lemma ConsensusFirst(rules: Rules, steps: seq<Step>, states: seq<Db>, k: nat, n: nat, s: string)
    requires DigestsTellApart(rules) && IsRun(rules, steps, states) && k <= n <= |steps|
    requires ByConsensus(states[k].matches, s)
    ensures s in states[n].matches && states[n].matches[s] == states[k].matches[s]
    ensures s in states[n].resolutions ==> states[n].resolutions[s].status.WasSuperseded?
    ensures s in states[n].decisions ==>
      var row := states[n].decisions[s];
      && (row.decision.ruling.Forfeited? ==> !row.status.Settled?)
      && (row.status.Settled? ==> row.status.matchId == None)
  {
    RunExtends(rules, steps, states, k, n);
    RunKeepsInv(rules, steps, states, n);
    hide IsRun, DigestsTellApart;
    assert ByConsensus(states[n].matches, s) by { hide Inv; }
    hide Extends;
    ConsensusRows(rules, states[n], s);
    hide Inv;
  }

  lemma ConsensusRows(rules: Rules, db: Db, s: string)
    requires Inv(rules, db) && ByConsensus(db.matches, s)
    ensures s in db.resolutions ==> db.resolutions[s].status.WasSuperseded?
    ensures s in db.decisions ==>
      var row := db.decisions[s];
      && (row.decision.ruling.Forfeited? ==> !row.status.Settled?)
      && (row.status.Settled? ==> row.status.matchId == None)
  {
    hide UploadsOk, SourcesOk, MoneyOk, ClaimsOk;
    if s in db.decisions { RowIsOk(rules, db, s); }
  }

  lemma ClaimAgreesWithResolution(rules: Rules, db: Db, token: nat)
    requires Inv(rules, db) && token in db.claims
    ensures
      var c := db.claims[token];
      c.sessionId in db.resolutions ==> db.resolutions[c.sessionId].decision == c.decision
  {
    ClaimIsOk(rules, db, token);
    hide UploadsOk, SourcesOk, MoneyOk, DecisionsOk, ClaimsOk, ResultOk;
  }

  /** Resolving a session that is settled already only records how it was settled. */
  lemma ResolveSettled(rules: Rules, db: Db, token: nat)
    requires Inv(rules, db) && token in db.claims && db.claims[token].sessionId in db.matches
    requires db.claims[token].decision.ruling.Forfeited?
    ensures
      var c := db.claims[token];
      var status := if ByConsensus(db.matches, c.sessionId) then WasSuperseded else WasSettled;
      var after := Resolve(rules, db, token);
      && after.claims == db.claims[token := c.(result := Some(status))]
      && after.decisions == db.decisions && after.matches == db.matches
      && after.ratings == db.ratings && after.deltas == db.deltas
  {
    hide Inv, ResolveTx, ByConsensus, Resolve;
    var c := db.claims[token];
    ClaimAgreesWithResolution(rules, db, token);
    MatchedResolution(rules, db, c.sessionId, c.decision);
    var status := if ByConsensus(db.matches, c.sessionId) then WasSuperseded else WasSettled;
    var after := db.(resolutions := db.resolutions[c.sessionId := Resolution(c.decision, status)]);
    Resolved(rules, db, token, after, status);
  }

  lemma Resolved(rules: Rules, db: Db, token: nat, after: Db, status: Verdicted)
    requires token in db.claims && db.claims[token].decision.ruling.Forfeited?
    requires ResolveTx(rules, db, db.claims[token].sessionId, db.claims[token].decision) == Some((after, status))
    ensures
      Resolve(rules, db, token) ==
        after.(claims := after.claims[token := db.claims[token].(result := Some(status))])
  {
    hide ResolveTx;
  }

  lemma MatchedResolution(rules: Rules, db: Db, s: string, d: Decision)
    requires d.ruling.Forfeited? && s in db.matches && (s in db.resolutions ==> db.resolutions[s].decision == d)
    ensures
      var status := if ByConsensus(db.matches, s) then WasSuperseded else WasSettled;
      ResolveTx(rules, db, s, d) == Some((db.(resolutions := db.resolutions[s := Resolution(d, status)]), status))
  {
    hide Settle;
  }

  /** A worker that finishes a forfeit of a session settled by consensus marks it superseded. */
  lemma LateForfeitIsSuperseded(rules: Rules, db: Db, token: nat)
    requires Inv(rules, db) && token in db.claims && ByConsensus(db.matches, db.claims[token].sessionId)
    requires db.claims[token].decision.ruling.Forfeited?
    requires HoldsClaim(db, db.claims[token].sessionId, token)
    ensures
      var s := db.claims[token].sessionId;
      var resolved := Resolve(rules, db, token);
      && s in Mark(resolved, token).decisions && Mark(resolved, token).decisions[s].status.Superseded?
      && resolved.ratings == db.ratings && resolved.deltas == db.deltas && resolved.matches == db.matches
  {
    assert db.claims[token].sessionId in db.matches;
    hide Inv, Resolve, ResolveTx;
    ResolveSettled(rules, db, token);
  }

  // ---------------------------------------------------------------- ratings

  /** Ratings are the initial rating plus the recorded changes; every match has recorded exactly one pair. */
  lemma RatingsMoveOnce(rules: Rules, steps: seq<Step>, states: seq<Db>, k: nat, s: string, i: nat, j: nat)
    requires DigestsTellApart(rules) && IsRun(rules, steps, states) && k <= |steps|
    ensures forall a :: RatingOf(states[k].ratings, a) == INITIAL_RATING + Total(states[k].deltas, a)
    ensures s in states[k].matches ==> exists p :: PairOf(states[k].deltas, p, states[k].matches[s])
    ensures
      var deltas, matches := states[k].deltas, states[k].matches;
      s in matches && PairOf(deltas, i, matches[s]) && PairOf(deltas, j, matches[s]) ==> i == j
    ensures forall d :: d in states[k].deltas ==> d.matchId in states[k].matches
  {
    RunKeepsInv(rules, steps, states, k);
    hide IsRun, DigestsTellApart, UploadsOk, SourcesOk, RulingsOk, Total;
    if s in states[k].matches && PairOf(states[k].deltas, i, states[k].matches[s])
       && PairOf(states[k].deltas, j, states[k].matches[s]) {
      OnePair(states[k].deltas, i, j, states[k].matches[s]);
    }
  }

  lemma OnePair(deltas: seq<Delta>, i: nat, j: nat, m: Match)
    requires PairsApart(deltas) && PairOf(deltas, i, m) && PairOf(deltas, j, m)
    ensures i == j
  {
    var low, high := if i < j then i else j, if i < j then j else i;
    PairsApartAt(deltas, 2 * low, 2 * high + 1);
  }

  lemma PairsApartAt(deltas: seq<Delta>, i: nat, j: nat)
    requires PairsApart(deltas) && i < j < |deltas| && deltas[i].matchId == deltas[j].matchId
    ensures j == i + 1
  {
  }

  // ---------------------------------------------------------------- what a consensus rests on

  /**
   A session settled by consensus has exactly two submissions, one from each assigned side,
   neither suspicious, with equal outcome, winner and proof; the proof replays to that winner; and
   a prefix of each side's stored chain attests that proof.
   */
  lemma ConsensusIsAttested(rules: Rules, steps: seq<Step>, states: seq<Db>, k: nat, s: string)
    requires DigestsTellApart(rules) && IsRun(rules, steps, states) && k <= |steps|
    requires ByConsensus(states[k].matches, s)
    ensures
      var db, p := states[k], rules.parties(s);
      && p.p1 != p.p2
      && (forall a :: (s, a) in db.submissions <==> IsParty(p, a))
      && var x, y := db.submissions[(s, p.p1)], db.submissions[(s, p.p2)];
      && !x.suspicious && !y.suspicious && Agree(x, y)
      && x.outcome == db.matches[s].outcome && x.winner == db.matches[s].winner
      && x.digest in db.proofs && db.proofs[x.digest].attestation.Some?
      && var payload := db.proofs[x.digest].payload;
      && rules.replay(payload).Some? && x.outcome == OutcomeOf(rules.replay(payload).value)
      && (exists rows :: rows <= RowsOf(db, s, p.p1) && Attests(rules.h, payload.proof, Participant(s, p.p1, P1), rows))
      && (exists rows :: rows <= RowsOf(db, s, p.p2) && Attests(rules.h, payload.proof, Participant(s, p.p2, P2), rows))
  {
    RunKeepsInv(rules, steps, states, k);
    hide IsRun, DigestsTellApart, Inv, Attests, RowsOf, Agree;
    ConsensusSubmissions(rules, states[k], s);
    ConsensusChains(rules, states[k], s);
  }

  lemma ConsensusSubmissions(rules: Rules, db: Db, s: string)
    requires Inv(rules, db) && ByConsensus(db.matches, s)
    ensures
      var p := rules.parties(s);
      && p.p1 != p.p2
      && (forall a :: (s, a) in db.submissions <==> IsParty(p, a))
      && var x, y := db.submissions[(s, p.p1)], db.submissions[(s, p.p2)];
      && !x.suspicious && !y.suspicious && Agree(x, y)
      && x.outcome == db.matches[s].outcome && x.winner == db.matches[s].winner
      && x.digest in db.proofs && db.proofs[x.digest].attestation.Some?
      && var payload := db.proofs[x.digest].payload;
      && rules.replay(payload).Some? && x.outcome == OutcomeOf(rules.replay(payload).value)
  {
    var p := rules.parties(s);
    assert MatchOk(rules, db, s, db.matches[s]) by { hide UploadsOk, RulingsOk, MoneyOk, AttestationsOk, MatchOk; }
    OnlyParties(rules, db, s);
    assert SubmittedOk(rules, db.proofs, s, p.p1, db.submissions[(s, p.p1)]) by {
      hide SourcesOk, RulingsOk, MoneyOk, ChainsOk, ProofsOk, SubmittedOk, ChainDigest;
      assert (s, p.p1) in db.submissions;
    }
    hide Inv, ChainDigest, RowsOf;
  }

  lemma ConsensusChains(rules: Rules, db: Db, s: string)
    requires Inv(rules, db) && ByConsensus(db.matches, s)
    ensures
      var p := rules.parties(s);
      && (s, p.p1) in db.submissions && db.submissions[(s, p.p1)].digest in db.proofs
      && var proof := db.proofs[db.submissions[(s, p.p1)].digest].payload.proof;
      && (exists rows :: rows <= RowsOf(db, s, p.p1) && Attests(rules.h, proof, Participant(s, p.p1, P1), rows))
      && (exists rows :: rows <= RowsOf(db, s, p.p2) && Attests(rules.h, proof, Participant(s, p.p2, P2), rows))
  {
    var p := rules.parties(s);
    assert MatchOk(rules, db, s, db.matches[s]) by { hide UploadsOk, RulingsOk, MoneyOk, AttestationsOk, MatchOk; }
    hide Inv, ChainDigest, RowsOf, Attests;
    var proof := db.proofs[db.submissions[(s, p.p1)].digest].payload.proof;
    ChainAttests(rules, proof, p.p1, P1, db.evidence[s].p1);
    ChainAttests(rules, proof, p.p2, P2, db.evidence[s].p2);
  }

  lemma OnlyParties(rules: Rules, db: Db, s: string)
    requires Inv(rules, db)
    ensures forall a :: (s, a) in db.submissions ==> IsParty(rules.parties(s), a)
  {
    hide SourcesOk, RulingsOk, MoneyOk, ChainsOk, ProofsOk;
    forall a | (s, a) in db.submissions ensures IsParty(rules.parties(s), a) {
      assert SubmittedOk(rules, db.proofs, (s, a).0, (s, a).1, db.submissions[(s, a)]);
    }
  }

  /** An accepted chain is the linked announcement of chunks that cover the proof. */
  lemma ChainAttests(rules: Rules, proof: Proof, account: string, side: Side, rows: seq<Stored<Digest>>)
    requires ChainDigest(rules, proof, account, side, rows).Some?
    ensures Attests(rules.h, proof, Participant(proof.sessionId, account, side), rows)
  {
    hide Attests, Judge, Ordered;
    VerdictIsSound(rules.h, proof, Participant(proof.sessionId, account, side), rows, rules.policy);
  }

  /** A session with a suspicious submission is never settled by consensus, then or later. */
  lemma SuspicionIsFinal(rules: Rules, steps: seq<Step>, states: seq<Db>, k: nat, n: nat, s: string, a: string)
    requires DigestsTellApart(rules) && IsRun(rules, steps, states) && k <= n <= |steps|
    requires (s, a) in states[k].submissions && states[k].submissions[(s, a)].suspicious
    ensures !ByConsensus(states[n].matches, s)
  {
    RunExtends(rules, steps, states, k, n);
    RunKeepsInv(rules, steps, states, n);
    hide IsRun, DigestsTellApart, ChainsOk, ProofsOk, RulingsOk, MoneyOk, AttestationsOk, ChainDigest;
    var db := states[n];
    assert SubmittedOk(rules, db.proofs, (s, a).0, (s, a).1, db.submissions[(s, a)]);
    assert ByConsensus(db.matches, s) ==> Agreed(rules, db, s, db.matches[s]) by {
      assert s in db.matches ==> MatchOk(rules, db, s, db.matches[s]);
    }
  }

  /** A proof carries a match-level attestation exactly when its session was settled on it by consensus. */
  lemma AttestedIffSettled(rules: Rules, steps: seq<Step>, states: seq<Db>, k: nat, g: Digest)
    requires DigestsTellApart(rules) && IsRun(rules, steps, states) && k <= |steps| && g in states[k].proofs
    ensures
      var db := states[k];
      var s := db.proofs[g].payload.proof.sessionId;
      db.proofs[g].attestation.Some? <==>
        ByConsensus(db.matches, s) && (s, rules.parties(s).p1) in db.submissions
        && db.submissions[(s, rules.parties(s).p1)].digest == g
  {
    RunKeepsInv(rules, steps, states, k);
    hide IsRun, DigestsTellApart, UploadsOk, RulingsOk, MoneyOk, ChainDigest;
    var db := states[k];
    var s := db.proofs[g].payload.proof.sessionId;
    assert ByConsensus(db.matches, s) ==> Agreed(rules, db, s, db.matches[s]) by {
      assert s in db.matches ==> MatchOk(rules, db, s, db.matches[s]);
    }
  }

  /** When the transaction comes to settle, the match table never holds the session or the match id. */
  lemma MatchCheckNeverFires(rules: Rules, db: Db, r: Request)
    requires Inv(rules, db) && r.sessionId !in db.decisions && r.matchId == r.sessionId
    requires IsParty(rules.parties(r.sessionId), r.accountId) && (r.sessionId, r.accountId) !in db.submissions
    ensures !MatchExists(db.matches, r.matchId, r.sessionId)
  {
    NoMatchYet(rules, db, r.sessionId, r.accountId);
    hide UploadsOk, RulingsOk, MoneyOk, AttestationsOk, Agreed, Ruled;
    assert forall s :: s in db.matches ==> MatchOk(rules, db, s, db.matches[s]);
  }
}
