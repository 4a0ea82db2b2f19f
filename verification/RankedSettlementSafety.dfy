/**
 What every run of ranked settlement keeps: each match is justified by its source, decisions and
 workers only ever claim what the match table says, and ratings are the sum of recorded changes.
 */
module RankedSettlementSafety {
  import opened Wrappers
  import opened CommitmentChain
  import opened CommitmentStore
  import opened RankedSettlement

  // ---------------------------------------------------------------- tables of uploads

  ghost predicate ChainsOk(rules: Rules, db: Db) {
    forall k :: k in db.commitments ==> Chained(rules.h, db.commitments[k])
  }

  /** A stored submission carries a verified proof of its own session. */
  ghost predicate SubmittedOk(rules: Rules, proofs: map<Digest, ProofRow>, sessionId: string, account: string,
                              s: Submitted)
  {
    && IsParty(rules.parties(sessionId), account)
    && s.digest in proofs
    && proofs[s.digest].payload.proof.sessionId == sessionId && proofs[s.digest].payload.matchId == s.matchId
    && (!s.suspicious ==> s.matchId == sessionId)
    && var replayed := rules.replay(proofs[s.digest].payload);
    && replayed.Some? && s.outcome == OutcomeOf(replayed.value)
    && s.winner == AccountOf(rules.parties(sessionId), replayed.value)
  }

  ghost predicate SubmissionsOk(rules: Rules, proofs: map<Digest, ProofRow>,
                                submissions: map<(string, string), Submitted>)
  {
    forall k :: k in submissions ==> SubmittedOk(rules, proofs, k.0, k.1, submissions[k])
  }

  ghost predicate ProofsOk(rules: Rules, proofs: map<Digest, ProofRow>) {
    forall g :: g in proofs ==> rules.digest(proofs[g].payload) == g
  }

  // ---------------------------------------------------------------- matches and their sources

  /** Two agreeing, unsuspicious submissions, one per side, and both input chains over one proof. */
  ghost predicate Agreed(rules: Rules, db: Db, sessionId: string, m: Match) {
    var p := rules.parties(sessionId);
    && (sessionId, p.p1) in db.submissions && (sessionId, p.p2) in db.submissions
    && var a, b := db.submissions[(sessionId, p.p1)], db.submissions[(sessionId, p.p2)];
    && !a.suspicious && !b.suspicious && Agree(a, b)
    && a.outcome == m.outcome && a.winner == m.winner
    && a.digest in db.proofs && sessionId in db.evidence
    && var row, evidence := db.proofs[a.digest], db.evidence[sessionId];
    && row.payload.proof.sessionId == sessionId && row.attestation.Some?
    && evidence.p1 <= RowsOf(db, sessionId, p.p1) && evidence.p2 <= RowsOf(db, sessionId, p.p2)
    && ChainDigest(rules, row.payload.proof, p.p1, P1, evidence.p1) == Some(row.attestation.value.p1)
    && ChainDigest(rules, row.payload.proof, p.p2, P2, evidence.p2) == Some(row.attestation.value.p2)
  }

  /** A forfeit decision for the session, resolved in its favour. */
  ghost predicate Ruled(db: Db, sessionId: string, m: Match) {
    && sessionId in db.decisions && sessionId in db.resolutions
    && db.resolutions[sessionId].status.WasSettled?
    && var ruling := db.decisions[sessionId].decision.ruling;
    && ruling.Forfeited? && m.outcome == Forfeit && m.winner == AccountOf(m.parties, ruling.winner)
  }

  ghost predicate MatchOk(rules: Rules, db: Db, sessionId: string, m: Match) {
    && m.matchId == sessionId && m.parties == rules.parties(sessionId) && m.parties.p1 != m.parties.p2
    && (m.source.Consensus? ==> Agreed(rules, db, sessionId, m))
    && (m.source.Authoritative? ==> Ruled(db, sessionId, m))
  }

  ghost predicate MatchesOk(rules: Rules, db: Db) {
    forall s :: s in db.matches ==> MatchOk(rules, db, s, db.matches[s])
  }

  predicate ByConsensus(matches: map<string, Match>, sessionId: string) {
    sessionId in matches && matches[sessionId].source.Consensus?
  }

  predicate ByRuling(matches: map<string, Match>, sessionId: string) {
    sessionId in matches && matches[sessionId].source.Authoritative?
  }

  /** An attested proof is the proof its session was settled on. */
  ghost predicate AttestationsOk(rules: Rules, db: Db) {
    forall g :: g in db.proofs && db.proofs[g].attestation.Some? ==>
      var s := db.proofs[g].payload.proof.sessionId;
      && ByConsensus(db.matches, s)
      && (s, rules.parties(s).p1) in db.submissions && db.submissions[(s, rules.parties(s).p1)].digest == g
  }

  // ---------------------------------------------------------------- decisions and workers

  ghost predicate DecisionOk(rules: Rules, matches: map<string, Match>, sessionId: string, row: DecisionRow) {
    && row.decision.parties == rules.parties(sessionId)
    && (row.status.Settled? ==>
          if row.decision.ruling.NoContest? then row.status.matchId == None
          else row.status.matchId == Some(sessionId) && ByRuling(matches, sessionId))
    && (row.status.Superseded? ==> row.decision.ruling.Forfeited? && ByConsensus(matches, sessionId))
  }

  ghost predicate DecisionsOk(rules: Rules, db: Db) {
    forall s :: s in db.decisions ==> DecisionOk(rules, db.matches, s, db.decisions[s])
  }

  ghost predicate ResultOk(matches: map<string, Match>, sessionId: string, status: Verdicted) {
    if status.WasSettled? then ByRuling(matches, sessionId) else ByConsensus(matches, sessionId)
  }

  ghost predicate IsRowOf(decisions: map<string, DecisionRow>, sessionId: string, d: Decision) {
    sessionId in decisions && decisions[sessionId].decision == d
  }

  ghost predicate ResolutionsOk(db: Db) {
    forall s :: s in db.resolutions ==>
      && IsRowOf(db.decisions, s, db.resolutions[s].decision)
      && db.resolutions[s].decision.ruling.Forfeited?
      && ResultOk(db.matches, s, db.resolutions[s].status)
  }

  ghost predicate ClaimsOk(db: Db) {
    forall t :: t in db.claims ==>
      var c := db.claims[t];
      && t < db.nextToken && IsRowOf(db.decisions, c.sessionId, c.decision)
      && (c.result.Some? ==> c.decision.ruling.Forfeited? && ResultOk(db.matches, c.sessionId, c.result.value))
  }

  // ---------------------------------------------------------------- ratings

  function Total(deltas: seq<Delta>, account: string): int {
    if deltas == [] then 0
    else
      var last := deltas[|deltas| - 1];
      Total(deltas[..|deltas| - 1], account) + if last.accountId == account then last.amount else 0
  }

  ghost predicate RatingsOk(db: Db) {
    forall a :: RatingOf(db.ratings, a) == INITIAL_RATING + Total(db.deltas, a)
  }

  /** The k-th pair of rating changes belongs to this match. */
  ghost predicate PairOf(deltas: seq<Delta>, k: nat, m: Match) {
    && 2 * k + 1 < |deltas|
    && deltas[2 * k].matchId == m.matchId && deltas[2 * k].accountId == m.parties.p1
    && deltas[2 * k + 1].matchId == m.matchId && deltas[2 * k + 1].accountId == m.parties.p2
  }

  /** Rating changes come in pairs, one pair for each match. */
  ghost predicate DeltasOk(db: Db) {
    && |db.deltas| % 2 == 0
    && (forall s :: s in db.matches ==> exists k :: PairOf(db.deltas, k, db.matches[s]))
    && (forall i :: 0 <= i < |db.deltas| ==> db.deltas[i].matchId in db.matches)
    && PairsApart(db.deltas)
  }

  ghost predicate UploadsOk(rules: Rules, db: Db) {
    ChainsOk(rules, db) && ProofsOk(rules, db.proofs) && SubmissionsOk(rules, db.proofs, db.submissions)
  }

  ghost predicate SourcesOk(rules: Rules, db: Db) {
    MatchesOk(rules, db) && AttestationsOk(rules, db)
  }

  ghost predicate RulingsOk(rules: Rules, db: Db) {
    DecisionsOk(rules, db) && ResolutionsOk(db) && ClaimsOk(db)
  }

  ghost predicate MoneyOk(db: Db) { RatingsOk(db) && DeltasOk(db) }

  ghost predicate Inv(rules: Rules, db: Db) {
    UploadsOk(rules, db) && SourcesOk(rules, db) && RulingsOk(rules, db) && MoneyOk(db)
  }

  // ---------------------------------------------------------------- what a step leaves alone

  lemma UploadsFrame(rules: Rules, db: Db, after: Db)
    requires UploadsOk(rules, db)
    requires after.commitments == db.commitments && after.proofs == db.proofs && after.submissions == db.submissions
    ensures UploadsOk(rules, after)
  {
    hide Chained, SubmissionsOk, ProofsOk;
  }

  lemma MoneyFrame(db: Db, after: Db)
    requires MoneyOk(db)
    requires after.matches == db.matches && after.ratings == db.ratings && after.deltas == db.deltas
    ensures MoneyOk(after)
  {
    hide PairOf, Total;
  }

  /** A justification survives when decisions and settled resolutions do. */
  lemma MatchFrame(rules: Rules, db: Db, after: Db, s: string, m: Match)
    requires MatchOk(rules, db, s, m)
    requires after.commitments == db.commitments && after.proofs == db.proofs && after.submissions == db.submissions
    requires after.evidence == db.evidence
    requires s in db.decisions ==> IsRowOf(after.decisions, s, db.decisions[s].decision)
    requires s in db.resolutions && db.resolutions[s].status.WasSettled? ==>
      s in after.resolutions && after.resolutions[s].status.WasSettled?
    ensures MatchOk(rules, after, s, m)
  {
    hide ChainDigest;
  }

  lemma SourcesFrame(rules: Rules, db: Db, after: Db)
    requires SourcesOk(rules, db) && after.matches == db.matches
    requires after.commitments == db.commitments && after.proofs == db.proofs && after.submissions == db.submissions
    requires after.evidence == db.evidence
    requires forall s :: s in db.decisions ==> IsRowOf(after.decisions, s, db.decisions[s].decision)
    requires forall s :: s in db.resolutions && db.resolutions[s].status.WasSettled? ==>
      s in after.resolutions && after.resolutions[s].status.WasSettled?
    ensures SourcesOk(rules, after)
  {
    forall s | s in after.matches ensures MatchOk(rules, after, s, after.matches[s]) {
      hide MatchOk;
      MatchFrame(rules, db, after, s, db.matches[s]);
    }
    hide MatchOk;
  }

  // ---------------------------------------------------------------- input commitments

  lemma AppendKeepsInv(rules: Rules, db: Db, s: Submission<Digest>, live: bool, nowMs: int)
    requires Inv(rules, db)
    ensures Inv(rules, AppendTx(rules, db, s, live, nowMs))
  {
    var id := s.identity;
    var rows := RowsOf(db, id.sessionId, id.accountId);
    assert Chained(rules.h, rows) by { hide SourcesOk, RulingsOk, MoneyOk, SubmissionsOk, ProofsOk; }
    AppendKeepsChain(rules.h, rows, s, nowMs);
    var after := AppendTx(rules, db, s, live, nowMs);
    if after != db {
      var a := Append(rules.h, rows, s, nowMs).value;
      hide Append, Chained;
      ExtendKeepsInv(rules, db, (id.sessionId, id.accountId), a.rows);
    }
  }

  lemma LongerChainKeepsMatch(rules: Rules, db: Db, after: Db, s: string, m: Match)
    requires MatchOk(rules, db, s, m)
    requires after == db.(commitments := after.commitments)
    requires forall t, a :: RowsOf(db, t, a) <= RowsOf(after, t, a)
    ensures MatchOk(rules, after, s, m)
  {
    hide ChainDigest, RowsOf;
    var p := rules.parties(s);
    assert RowsOf(db, s, p.p1) <= RowsOf(after, s, p.p1) && RowsOf(db, s, p.p2) <= RowsOf(after, s, p.p2);
    if m.source.Consensus? {
      PrefixTransitive(db.evidence[s].p1, RowsOf(db, s, p.p1), RowsOf(after, s, p.p1));
      PrefixTransitive(db.evidence[s].p2, RowsOf(db, s, p.p2), RowsOf(after, s, p.p2));
    }
  }

  lemma ExtendKeepsSources(rules: Rules, db: Db, after: Db)
    requires SourcesOk(rules, db)
    requires after == db.(commitments := after.commitments)
    requires forall t, a :: RowsOf(db, t, a) <= RowsOf(after, t, a)
    ensures SourcesOk(rules, after)
  {
    hide MatchOk, RowsOf;
    forall s | s in after.matches ensures MatchOk(rules, after, s, after.matches[s]) {
      LongerChainKeepsMatch(rules, db, after, s, db.matches[s]);
    }
  }

  lemma ExtendKeepsUploads(rules: Rules, db: Db, key: (string, string), rows: seq<Stored<Digest>>)
    requires UploadsOk(rules, db) && Chained(rules.h, rows)
    ensures UploadsOk(rules, db.(commitments := db.commitments[key := rows]))
  {
    hide Chained, SubmissionsOk, ProofsOk;
  }

  lemma RowsGrow(db: Db, key: (string, string), rows: seq<Stored<Digest>>)
    requires RowsOf(db, key.0, key.1) <= rows
    ensures forall t, a :: RowsOf(db, t, a) <= RowsOf(db.(commitments := db.commitments[key := rows]), t, a)
  {
  }

  lemma ExtendKeepsInv(rules: Rules, db: Db, key: (string, string), rows: seq<Stored<Digest>>)
    requires Inv(rules, db) && Chained(rules.h, rows) && RowsOf(db, key.0, key.1) <= rows
    ensures Inv(rules, db.(commitments := db.commitments[key := rows]))
  {
    var after := db.(commitments := db.commitments[key := rows]);
    hide Chained, UploadsOk, SourcesOk, RulingsOk, MoneyOk;
    RowsGrow(db, key, rows);
    hide RowsOf;
    ExtendKeepsUploads(rules, db, key, rows);
    ExtendKeepsSources(rules, db, after);
    RulingsFrame(rules, db, after);
    MoneyFrame(db, after);
  }

  // ---------------------------------------------------------------- submissions

  /** A participant who has not submitted, in a session without a decision, finds no match. */
  lemma NoMatchYet(rules: Rules, db: Db, sessionId: string, account: string)
    requires Inv(rules, db) && sessionId !in db.decisions
    requires IsParty(rules.parties(sessionId), account) && (sessionId, account) !in db.submissions
    ensures sessionId !in db.matches
  {
    hide UploadsOk, RulingsOk, MoneyOk, AttestationsOk, ChainDigest;
    assert sessionId in db.matches ==> MatchOk(rules, db, sessionId, db.matches[sessionId]);
  }

  /** Rows of other sessions may change only where no match depends on them. */
  ghost predicate SameElsewhere(before: Db, after: Db, sessionId: string) {
    && (forall k :: k in before.submissions && k.0 != sessionId ==>
          k in after.submissions && after.submissions[k] == before.submissions[k])
    && (forall k :: k in after.submissions && k.0 != sessionId ==> k in before.submissions)
    && (forall g :: g in before.proofs ==> g in after.proofs && after.proofs[g] == before.proofs[g])
    && (forall g :: g in after.proofs && after.proofs[g].attestation.Some? ==> g in before.proofs)
    && after == before.(submissions := after.submissions, proofs := after.proofs)
  }

  lemma UploadKeepsMatch(rules: Rules, db: Db, after: Db, sessionId: string, s: string, m: Match)
    requires MatchOk(rules, db, s, m) && s != sessionId && SameElsewhere(db, after, sessionId)
    ensures MatchOk(rules, after, s, m)
  {
    hide ChainDigest;
  }

  lemma UploadKeepsAttestations(rules: Rules, db: Db, after: Db, sessionId: string)
    requires AttestationsOk(rules, db) && sessionId !in db.matches && SameElsewhere(db, after, sessionId)
    ensures AttestationsOk(rules, after)
  {
    forall g | g in after.proofs && after.proofs[g].attestation.Some?
      ensures
        var s := after.proofs[g].payload.proof.sessionId;
        && ByConsensus(after.matches, s)
        && (s, rules.parties(s).p1) in after.submissions && after.submissions[(s, rules.parties(s).p1)].digest == g
    {
      assert g in db.proofs && db.proofs[g] == after.proofs[g];
    }
  }

  lemma UploadKeepsInv(rules: Rules, db: Db, after: Db, sessionId: string)
    requires Inv(rules, db) && sessionId !in db.matches && SameElsewhere(db, after, sessionId)
    requires ProofsOk(rules, after.proofs) && SubmissionsOk(rules, after.proofs, after.submissions)
    ensures Inv(rules, after)
  {
    assert after.matches == db.matches && after.commitments == db.commitments;
    UploadKeepsAttestations(rules, db, after, sessionId) by {
      hide SameElsewhere, AttestationsOk, MatchesOk, UploadsOk, RulingsOk, MoneyOk;
    }
    assert MatchesOk(rules, after) by {
      hide SameElsewhere, MatchOk, AttestationsOk, UploadsOk, RulingsOk, MoneyOk;
      forall s | s in after.matches ensures MatchOk(rules, after, s, after.matches[s]) {
        UploadKeepsMatch(rules, db, after, sessionId, s, db.matches[s]);
      }
    }
    hide SubmissionsOk, ProofsOk, Chained, MatchesOk, AttestationsOk, RulingsOk, MoneyOk;
    assert UploadsOk(rules, after);
    hide UploadsOk;
    RulingsFrame(rules, db, after);
    MoneyFrame(db, after);
  }

  lemma SubmissionsFollow(rules: Rules, proofs: map<Digest, ProofRow>, after: map<Digest, ProofRow>,
                          submissions: map<(string, string), Submitted>)
    requires SubmissionsOk(rules, proofs, submissions)
    requires forall g :: g in proofs ==> g in after && after[g].payload == proofs[g].payload
    ensures SubmissionsOk(rules, after, submissions)
  {
    forall k | k in submissions ensures SubmittedOk(rules, after, k.0, k.1, submissions[k]) {
      assert SubmittedOk(rules, proofs, k.0, k.1, submissions[k]);
    }
  }

  /** The request that passed the admission checks, as the stored row will show it. */
  lemma AdmittedRowIsOk(rules: Rules, db: Db, r: Request, winner: Side)
    requires DigestsTellApart(rules) && ProofsOk(rules, db.proofs) && Admit(rules, r) == Ok(winner)
    ensures
      var after := Inserted(rules, db, r, winner);
      SubmittedOk(rules, after.proofs, r.sessionId, r.accountId, after.submissions[(r.sessionId, r.accountId)])
    ensures ProofsOk(rules, Inserted(rules, db, r, winner).proofs)
  {
    var g := rules.digest(r.payload);
    if g in db.proofs { assert rules.digest(db.proofs[g].payload) == rules.digest(r.payload); }
  }

  lemma InsertedElsewhere(rules: Rules, db: Db, r: Request, winner: Side)
    ensures SameElsewhere(db, Inserted(rules, db, r, winner), r.sessionId)
  {
    hide IsSuspicious;
  }

  lemma InsertedSubmissions(rules: Rules, db: Db, r: Request, winner: Side)
    requires DigestsTellApart(rules) && UploadsOk(rules, db) && Admit(rules, r) == Ok(winner)
    ensures
      var after := Inserted(rules, db, r, winner);
      ProofsOk(rules, after.proofs) && SubmissionsOk(rules, after.proofs, after.submissions)
  {
    var after := Inserted(rules, db, r, winner);
    AdmittedRowIsOk(rules, db, r, winner);
    SubmissionsFollow(rules, db.proofs, after.proofs, db.submissions);
    hide SubmittedOk, ChainsOk, ProofsOk, DigestsTellApart, Admit, IsSuspicious;
  }

  lemma InsertedKeepsInv(rules: Rules, db: Db, r: Request, winner: Side)
    requires DigestsTellApart(rules) && Inv(rules, db) && Admit(rules, r) == Ok(winner)
    requires r.sessionId !in db.decisions && (r.sessionId, r.accountId) !in db.submissions
    ensures Inv(rules, Inserted(rules, db, r, winner)) && r.sessionId !in Inserted(rules, db, r, winner).matches
  {
    assert IsParty(rules.parties(r.sessionId), r.accountId) by { hide Replayed, Inv, DigestsTellApart; }
    hide SourcesOk, RulingsOk, MoneyOk, UploadsOk, DigestsTellApart, Admit, SameElsewhere, IsSuspicious, IsParty;
    NoMatchYet(rules, db, r.sessionId, r.accountId);
    InsertedElsewhere(rules, db, r, winner);
    InsertedSubmissions(rules, db, r, winner);
    UploadKeepsInv(rules, db, Inserted(rules, db, r, winner), r.sessionId);
  }

  lemma FlagAllKeepsInv(rules: Rules, db: Db, sessionId: string)
    requires Inv(rules, db) && sessionId !in db.matches
    ensures Inv(rules, FlagAll(db, sessionId))
  {
    var after := FlagAll(db, sessionId);
    forall k | k in after.submissions ensures SubmittedOk(rules, after.proofs, k.0, k.1, after.submissions[k]) {
      assert SubmittedOk(rules, db.proofs, k.0, k.1, db.submissions[k]);
    }
    hide SubmittedOk, SourcesOk, RulingsOk, MoneyOk, ChainsOk, ProofsOk;
    assert SubmissionsOk(rules, after.proofs, after.submissions);
    hide SubmissionsOk;
    UploadKeepsInv(rules, db, after, sessionId);
  }

  // ---------------------------------------------------------------- moving ratings

  lemma TotalAppend(deltas: seq<Delta>, d: Delta, account: string)
    ensures Total(deltas + [d], account) == Total(deltas, account) + if d.accountId == account then d.amount else 0
  {
    assert (deltas + [d])[..|deltas|] == deltas;
  }

  lemma SettleKeepsRatings(rules: Rules, db: Db, sessionId: string, m: Match, winner: Side)
    requires RatingsOk(db) && Settle(rules, db, sessionId, m, winner).Some?
    ensures RatingsOk(Settle(rules, db, sessionId, m, winner).value)
  {
    var after := Settle(rules, db, sessionId, m, winner).value;
    var n := |db.deltas|;
    var d1, d2 := after.deltas[n], after.deltas[n + 1];
    assert after.deltas == db.deltas + [d1] + [d2];
    forall a ensures RatingOf(after.ratings, a) == INITIAL_RATING + Total(after.deltas, a) {
      assert RatingOf(db.ratings, a) == INITIAL_RATING + Total(db.deltas, a);
      TotalAppend(db.deltas, d1, a);
      TotalAppend(db.deltas + [d1], d2, a);
    }
  }

  lemma PairsFollow(deltas: seq<Delta>, longer: seq<Delta>, m: Match)
    requires deltas <= longer && exists k :: PairOf(deltas, k, m)
    ensures exists k :: PairOf(longer, k, m)
  {
    var k :| PairOf(deltas, k, m);
    assert PairOf(longer, k, m);
  }

  ghost predicate PairsApart(deltas: seq<Delta>) {
    forall i, j :: 0 <= i < j < |deltas| && deltas[i].matchId == deltas[j].matchId ==> i % 2 == 0 && j == i + 1
  }

  lemma AddPairApart(deltas: seq<Delta>, a: Delta, b: Delta)
    requires PairsApart(deltas) && |deltas| % 2 == 0 && a.matchId == b.matchId
    requires forall i :: 0 <= i < |deltas| ==> deltas[i].matchId != a.matchId
    ensures PairsApart(deltas + [a, b])
  {
    var n, longer := |deltas|, deltas + [a, b];
    assert longer[n] == a && longer[n + 1] == b;
    assert forall i :: 0 <= i < n ==> longer[i] == deltas[i];
    forall i, j | 0 <= i < j < |longer| && longer[i].matchId == longer[j].matchId ensures i % 2 == 0 && j == i + 1 {
      if j < n { assert deltas[i].matchId == deltas[j].matchId; }
    }
  }

  /** A pair of changes for a match that has none yet. */
  lemma AddPair(db: Db, m: Match, first: int, second: int)
    requires DeltasOk(db) && m.matchId !in db.matches
    ensures
      var longer := db.deltas + [Delta(m.matchId, m.parties.p1, first), Delta(m.matchId, m.parties.p2, second)];
      DeltasOk(db.(matches := db.matches[m.matchId := m], deltas := longer))
  {
    var n := |db.deltas|;
    var a, b := Delta(m.matchId, m.parties.p1, first), Delta(m.matchId, m.parties.p2, second);
    var longer := db.deltas + [a, b];
    var matches := db.matches[m.matchId := m];
    AddPairApart(db.deltas, a, b);
    hide PairsApart;
    forall s | s in matches ensures exists k :: PairOf(longer, k, matches[s]) {
      if s == m.matchId {
        assert PairOf(longer, n / 2, m);
      } else {
        hide PairOf;
        PairsFollow(db.deltas, longer, db.matches[s]);
      }
    }
    hide PairOf;
    assert forall i :: 0 <= i < n ==> longer[i] == db.deltas[i];
  }

  lemma SettleKeepsDeltas(rules: Rules, db: Db, sessionId: string, m: Match, winner: Side)
    requires DeltasOk(db) && Settle(rules, db, sessionId, m, winner).Some? && m.matchId == sessionId
    ensures DeltasOk(Settle(rules, db, sessionId, m, winner).value)
  {
    var after := Settle(rules, db, sessionId, m, winner).value;
    var n := |db.deltas|;
    AddPair(db, m, after.deltas[n].amount, after.deltas[n + 1].amount);
    assert after.deltas == db.deltas + [Delta(m.matchId, m.parties.p1, after.deltas[n].amount),
                                        Delta(m.matchId, m.parties.p2, after.deltas[n + 1].amount)];
    hide PairOf;
  }

  lemma SettleShape(rules: Rules, db: Db, sessionId: string, m: Match, winner: Side)
    requires Settle(rules, db, sessionId, m, winner).Some?
    ensures
      var after := Settle(rules, db, sessionId, m, winner).value;
      && sessionId !in db.matches && m.parties.p1 != m.parties.p2
      && after.matches == db.matches[sessionId := m]
      && after == db.(matches := after.matches, ratings := after.ratings, deltas := after.deltas)
  {
  }

  /** A new match changes nothing about the justification of the others. */
  lemma OthersKeepRulings(rules: Rules, db: Db, sessionId: string, m: Match)
    requires RulingsOk(rules, db) && sessionId !in db.matches
    ensures RulingsOk(rules, db.(matches := db.matches[sessionId := m]))
  {
  }

  // ---------------------------------------------------------------- settling by consensus

  /** A session the submitting side may settle: its own chain and row are in place. */
  ghost predicate ReadyToSettle(rules: Rules, db: Db, r: Request, winner: Side, own: Digest) {
    var parties := rules.parties(r.sessionId);
    var side := if parties.p1 == r.accountId then P1 else P2;
    var peer := AccountOf(parties, Opposite(side));
    && IsParty(parties, r.accountId) && r.matchId == r.sessionId && r.sessionId !in db.matches
    && r.payload.proof.sessionId == r.sessionId
    && ChainDigest(rules, r.payload.proof, r.accountId, side, RowsOf(db, r.sessionId, r.accountId)) == Some(own)
    && (r.sessionId, r.accountId) in db.submissions && (r.sessionId, peer) in db.submissions
    && var mine, theirs := db.submissions[(r.sessionId, r.accountId)], db.submissions[(r.sessionId, peer)];
    && !mine.suspicious && !theirs.suspicious && Agree(theirs, mine)
    && mine.outcome == r.outcome && mine.winner == AccountOf(parties, winner)
    && mine.digest == rules.digest(r.payload) && mine.digest in db.proofs
    && db.proofs[mine.digest].payload == r.payload
  }

  /** The rows a consensus settlement writes, before the match itself. */
  lemma AgreedAfter(rules: Rules, db: Db, r: Request, winner: Side, own: Digest)
    requires ReadyToSettle(rules, db, r, winner, own)
    requires SettleAgreed(rules, db, r, winner, own).0.Some?
    ensures
      var after := SettleAgreed(rules, db, r, winner, own).0.value;
      && r.sessionId in after.matches && after.matches[r.sessionId].source == Consensus(r.accountId)
      && MatchOk(rules, after, r.sessionId, after.matches[r.sessionId])
  {
    hide ChainDigest;
  }

  lemma AgreedShape(rules: Rules, db: Db, r: Request, winner: Side, own: Digest)
    requires ReadyToSettle(rules, db, r, winner, own)
    requires SettleAgreed(rules, db, r, winner, own).0.Some?
    ensures
      var after := SettleAgreed(rules, db, r, winner, own).0.value;
      var g := rules.digest(r.payload);
      && after.submissions == db.submissions && after.commitments == db.commitments
      && after.decisions == db.decisions && after.resolutions == db.resolutions
      && after.claims == db.claims && after.nextToken == db.nextToken
      && g in db.proofs && g in after.proofs
      && after.proofs == db.proofs[g := after.proofs[g]] && after.proofs[g].payload == db.proofs[g].payload
      && r.sessionId in after.matches && after.matches == db.matches[r.sessionId := after.matches[r.sessionId]]
      && after.matches[r.sessionId].source.Consensus?
      && r.sessionId in after.evidence
      && after.evidence == db.evidence[r.sessionId := after.evidence[r.sessionId]]
  {
    hide ChainDigest;
  }

  /** Attesting one proof and recording evidence leaves matches of other sessions justified. */
  lemma OtherMatchFollows(rules: Rules, db: Db, after: Db, g: Digest, sessionId: string, s: string, m: Match)
    requires MatchOk(rules, db, s, m) && s != sessionId
    requires after.commitments == db.commitments && after.submissions == db.submissions
    requires after.decisions == db.decisions && after.resolutions == db.resolutions
    requires g in db.proofs && g in after.proofs && after.proofs == db.proofs[g := after.proofs[g]]
    requires db.proofs[g].payload.proof.sessionId == sessionId
    requires sessionId in after.evidence && after.evidence == db.evidence[sessionId := after.evidence[sessionId]]
    ensures MatchOk(rules, after, s, m)
  {
    hide ChainDigest;
  }

  lemma AgreedKeepsSources(rules: Rules, db: Db, r: Request, winner: Side, own: Digest)
    requires ReadyToSettle(rules, db, r, winner, own) && UploadsOk(rules, db) && SourcesOk(rules, db)
    requires SettleAgreed(rules, db, r, winner, own).0.Some?
    ensures SourcesOk(rules, SettleAgreed(rules, db, r, winner, own).0.value)
  {
    var after := SettleAgreed(rules, db, r, winner, own).0.value;
    AgreedShape(rules, db, r, winner, own);
    AgreedAfter(rules, db, r, winner, own);
    forall s | s in after.matches ensures MatchOk(rules, after, s, after.matches[s]) {
      hide MatchOk, SettleAgreed, ChainDigest;
      if s != r.sessionId {
        OtherMatchFollows(rules, db, after, rules.digest(r.payload), r.sessionId, s, db.matches[s]);
      }
    }
    hide MatchOk, SettleAgreed, UploadsOk, ChainDigest;
    assert MatchesOk(rules, after);
    forall g | g in after.proofs && after.proofs[g].attestation.Some?
      ensures
        var s := after.proofs[g].payload.proof.sessionId;
        && ByConsensus(after.matches, s)
        && (s, rules.parties(s).p1) in after.submissions && after.submissions[(s, rules.parties(s).p1)].digest == g
    {
      hide MatchesOk;
      if g == rules.digest(r.payload) {
        var first := AccountOf(rules.parties(r.sessionId), P1);
        assert Agree(db.submissions[(r.sessionId, first)], db.submissions[(r.sessionId, r.accountId)]);
      } else {
        assert db.proofs[g] == after.proofs[g];
      }
    }
  }

  /** The consensus settlement in terms of `Settle`. */
  lemma AgreedSettles(rules: Rules, db: Db, r: Request, winner: Side, own: Digest)
    requires ReadyToSettle(rules, db, r, winner, own)
    requires SettleAgreed(rules, db, r, winner, own).0.Some?
    ensures
      var parties := rules.parties(r.sessionId);
      var after := SettleAgreed(rules, db, r, winner, own).0.value;
      var m := Match(r.matchId, parties, r.outcome, AccountOf(parties, winner), Consensus(r.accountId));
      var settled := Settle(rules, db.(proofs := after.proofs), r.sessionId, m, winner);
      && settled.Some? && m.matchId == r.sessionId
      && after.matches == settled.value.matches && after.ratings == settled.value.ratings
      && after.deltas == settled.value.deltas
  {
    hide ChainDigest, MatchExists;
  }

  lemma AgreedKeepsMoney(rules: Rules, db: Db, r: Request, winner: Side, own: Digest)
    requires ReadyToSettle(rules, db, r, winner, own) && MoneyOk(db)
    requires SettleAgreed(rules, db, r, winner, own).0.Some?
    ensures MoneyOk(SettleAgreed(rules, db, r, winner, own).0.value)
  {
    var parties := rules.parties(r.sessionId);
    var after := SettleAgreed(rules, db, r, winner, own).0.value;
    var m := Match(r.matchId, parties, r.outcome, AccountOf(parties, winner), Consensus(r.accountId));
    var attested := db.(proofs := after.proofs);
    AgreedSettles(rules, db, r, winner, own);
    hide ChainDigest, Settle, SettleAgreed, ReadyToSettle, RatingsOk, DeltasOk;
    MoneyFrame(db, attested);
    SettleKeepsRatings(rules, attested, r.sessionId, m, winner);
    SettleKeepsDeltas(rules, attested, r.sessionId, m, winner);
    MoneyFrame(Settle(rules, attested, r.sessionId, m, winner).value, after);
  }

  lemma AgreedKeepsUploads(rules: Rules, db: Db, after: Db, g: Digest)
    requires UploadsOk(rules, db)
    requires after.commitments == db.commitments && after.submissions == db.submissions
    requires g in db.proofs && g in after.proofs && after.proofs == db.proofs[g := after.proofs[g]]
    requires after.proofs[g].payload == db.proofs[g].payload
    ensures UploadsOk(rules, after)
  {
    SubmissionsFollow(rules, db.proofs, after.proofs, db.submissions);
    hide SubmissionsOk, Chained;
  }

  lemma RulingsFrame(rules: Rules, db: Db, after: Db)
    requires RulingsOk(rules, db) && after.matches == db.matches
    requires after.decisions == db.decisions && after.resolutions == db.resolutions
    requires after.claims == db.claims && after.nextToken == db.nextToken
    ensures RulingsOk(rules, after)
  {
    hide DecisionOk, ResultOk, IsRowOf;
  }

  lemma AgreedKeepsInv(rules: Rules, db: Db, r: Request, winner: Side, own: Digest)
    requires Inv(rules, db) && ReadyToSettle(rules, db, r, winner, own)
    requires SettleAgreed(rules, db, r, winner, own).0.Some?
    ensures Inv(rules, SettleAgreed(rules, db, r, winner, own).0.value)
  {
    var after := SettleAgreed(rules, db, r, winner, own).0.value;
    var s := r.sessionId;
    AgreedShape(rules, db, r, winner, own);
    assert s !in db.matches;
    hide SettleAgreed, ReadyToSettle, UploadsOk, SourcesOk, RulingsOk, MoneyOk;
    AgreedKeepsSources(rules, db, r, winner, own);
    AgreedKeepsMoney(rules, db, r, winner, own);
    AgreedKeepsUploads(rules, db, after, rules.digest(r.payload));
    OthersKeepRulings(rules, db, s, after.matches[s]);
    RulingsFrame(rules, db.(matches := db.matches[s := after.matches[s]]), after);
  }

  // ---------------------------------------------------------------- the submit transaction

  lemma SubmitReady(rules: Rules, db: Db, r: Request, winner: Side, own: Digest, peer: Submitted)
    requires DigestsTellApart(rules) && Inv(rules, db) && Admit(rules, r) == Ok(winner)
    requires r.sessionId !in db.decisions && (r.sessionId, r.accountId) !in db.submissions
    requires !IsSuspicious(rules.parties(r.sessionId), r)
    requires
      var side := if rules.parties(r.sessionId).p1 == r.accountId then P1 else P2;
      var inserted := Inserted(rules, db, r, winner);
      && ChainDigest(rules, r.payload.proof, r.accountId, side, RowsOf(db, r.sessionId, r.accountId)) == Some(own)
      && PeerOf(inserted, r.sessionId, AccountOf(rules.parties(r.sessionId), Opposite(side))) == Some(peer)
      && Agree(peer, inserted.submissions[(r.sessionId, r.accountId)])
    ensures ReadyToSettle(rules, Inserted(rules, db, r, winner), r, winner, own)
  {
    NoMatchYet(rules, db, r.sessionId, r.accountId);
    AdmittedRowIsOk(rules, db, r, winner);
    assert ProofsOk(rules, db.proofs) by { hide SourcesOk, RulingsOk, MoneyOk, ChainsOk, SubmissionsOk; }
    hide ChainDigest, Inv;
    var g := rules.digest(r.payload);
    if g in db.proofs { assert rules.digest(db.proofs[g].payload) == g; }
  }

  /** The part of the transaction after the insert. */
  lemma SettlingKeepsInv(rules: Rules, db: Db, r: Request, winner: Side, own: Digest, peer: Submitted)
    requires DigestsTellApart(rules) && Inv(rules, db) && Admit(rules, r) == Ok(winner)
    requires r.sessionId !in db.decisions && (r.sessionId, r.accountId) !in db.submissions
    requires !IsSuspicious(rules.parties(r.sessionId), r)
    requires
      var side := if rules.parties(r.sessionId).p1 == r.accountId then P1 else P2;
      var inserted := Inserted(rules, db, r, winner);
      && ChainDigest(rules, r.payload.proof, r.accountId, side, RowsOf(db, r.sessionId, r.accountId)) == Some(own)
      && PeerOf(inserted, r.sessionId, AccountOf(rules.parties(r.sessionId), Opposite(side))) == Some(peer)
      && Agree(peer, inserted.submissions[(r.sessionId, r.accountId)])
    ensures
      var after := SettleAgreed(rules, Inserted(rules, db, r, winner), r, winner, own).0;
      after.Some? ==> Inv(rules, after.value)
  {
    SubmitReady(rules, db, r, winner, own, peer);
    hide Inv, ChainDigest, SettleAgreed, PeerOf, Agree, IsSuspicious, Admit, DigestsTellApart, ReadyToSettle;
    InsertedKeepsInv(rules, db, r, winner);
    var inserted := Inserted(rules, db, r, winner);
    if SettleAgreed(rules, inserted, r, winner, own).0.Some? { AgreedKeepsInv(rules, inserted, r, winner, own); }
  }

  lemma HasOwnRow(rules: Rules, db: Db, r: Request, winner: Side)
    ensures
      Inserted(rules, db, r, winner).submissions[(r.sessionId, r.accountId)].suspicious
      == IsSuspicious(rules.parties(r.sessionId), r)
  {
    hide IsSuspicious;
  }

  lemma SubmitTxKeepsInv(rules: Rules, db: Db, r: Request, memory: Memory, winner: Side)
    requires DigestsTellApart(rules) && Inv(rules, db) && Admit(rules, r) == Ok(winner)
    ensures
      var after := SubmitTx(rules, db, r, memory, winner).0;
      after.Some? ==> Inv(rules, after.value)
  {
    hide Inv, ChainDigest, SettleAgreed, Inserted, FlagAll, PeerOf, Agree, IsSuspicious, Admit, DigestsTellApart;
    if r.sessionId !in db.decisions && (r.sessionId, r.accountId) !in db.submissions {
      var parties := rules.parties(r.sessionId);
      var side := if parties.p1 == r.accountId then P1 else P2;
      var own := ChainDigest(rules, r.payload.proof, r.accountId, side, RowsOf(db, r.sessionId, r.accountId));
      InsertedKeepsInv(rules, db, r, winner);
      HasOwnRow(rules, db, r, winner);
      var inserted := Inserted(rules, db, r, winner);
      FlagAllKeepsInv(rules, inserted, r.sessionId);
      var peer := PeerOf(inserted, r.sessionId, AccountOf(parties, Opposite(side)));
      if !IsSuspicious(parties, r) && peer.Some? && own.Some?
         && Agree(peer.value, inserted.submissions[(r.sessionId, r.accountId)]) {
        SettlingKeepsInv(rules, db, r, winner, own.value, peer.value);
      }
    }
  }

  // ---------------------------------------------------------------- decisions

  lemma EnqueueKeepsRulings(rules: Rules, db: Db, sessionId: string, d: Decision)
    requires RulingsOk(rules, db) && d.parties == rules.parties(sessionId) && sessionId !in db.decisions
    ensures RulingsOk(rules, db.(decisions := db.decisions[sessionId := DecisionRow(d, Pending)]))
  {
    hide ResultOk;
  }

  lemma EnqueueKeepsInv(rules: Rules, db: Db, sessionId: string, d: Decision)
    requires Inv(rules, db) && d.parties == rules.parties(sessionId)
    requires sessionId !in db.decisions
    ensures Inv(rules, db.(decisions := db.decisions[sessionId := DecisionRow(d, Pending)]))
  {
    hide UploadsOk, SourcesOk, RulingsOk, MoneyOk;
    var after := db.(decisions := db.decisions[sessionId := DecisionRow(d, Pending)]);
    UploadsFrame(rules, db, after);
    MoneyFrame(db, after);
    SourcesFrame(rules, db, after);
    EnqueueKeepsRulings(rules, db, sessionId, d);
  }

  /** Statuses change, contents do not. */
  ghost predicate SameRows(before: map<string, DecisionRow>, after: map<string, DecisionRow>) {
    && after.Keys == before.Keys
    && forall s :: s in before ==> after[s].decision == before[s].decision
  }

  lemma SameRowsKeepResolutions(db: Db, after: Db)
    requires ResolutionsOk(db) && SameRows(db.decisions, after.decisions)
    requires after.matches == db.matches && after.resolutions == db.resolutions
    ensures ResolutionsOk(after)
  {
    hide ResultOk;
  }

  /** Changing only statuses and claims keeps everything that does not speak of them. */
  lemma BookkeepingKeepsInv(rules: Rules, db: Db, after: Db)
    requires Inv(rules, db)
    requires after == db.(decisions := after.decisions, claims := after.claims, nextToken := after.nextToken)
    requires SameRows(db.decisions, after.decisions)
    requires DecisionsOk(rules, after) && ClaimsOk(after)
    ensures Inv(rules, after)
  {
    hide UploadsOk, SourcesOk, MoneyOk, ResolutionsOk, DecisionsOk, ClaimsOk;
    UploadsFrame(rules, db, after);
    MoneyFrame(db, after);
    SourcesFrame(rules, db, after);
    SameRowsKeepResolutions(db, after);
  }

  lemma StatusKeepsDecisions(rules: Rules, db: Db, sessionId: string, status: DecisionStatus)
    requires DecisionsOk(rules, db) && sessionId in db.decisions
    requires DecisionOk(rules, db.matches, sessionId, db.decisions[sessionId].(status := status))
    ensures DecisionsOk(rules, SetStatus(db, sessionId, status))
  {
    hide DecisionOk;
  }

  lemma StatusKeepsClaims(db: Db, sessionId: string, status: DecisionStatus)
    requires ClaimsOk(db) && sessionId in db.decisions
    ensures ClaimsOk(SetStatus(db, sessionId, status))
    ensures SameRows(db.decisions, SetStatus(db, sessionId, status).decisions)
  {
    hide ResultOk;
  }

  lemma StatusKeepsInv(rules: Rules, db: Db, sessionId: string, status: DecisionStatus)
    requires Inv(rules, db) && sessionId in db.decisions
    requires DecisionOk(rules, db.matches, sessionId, db.decisions[sessionId].(status := status))
    ensures Inv(rules, SetStatus(db, sessionId, status))
  {
    assert RulingsOk(rules, db) by { hide UploadsOk, SourcesOk, MoneyOk, RulingsOk; }
    hide DecisionOk, Inv, DecisionsOk, ClaimsOk, SameRows;
    StatusKeepsDecisions(rules, db, sessionId, status);
    StatusKeepsClaims(db, sessionId, status);
    BookkeepingKeepsInv(rules, db, SetStatus(db, sessionId, status));
  }

  lemma RowIsOk(rules: Rules, db: Db, sessionId: string)
    requires Inv(rules, db) && sessionId in db.decisions
    ensures DecisionOk(rules, db.matches, sessionId, db.decisions[sessionId])
  {
    hide UploadsOk, SourcesOk, MoneyOk, ResolutionsOk, ClaimsOk, DecisionOk;
  }

  lemma ClaimKeepsInv(rules: Rules, db: Db, sessionId: string)
    requires Inv(rules, db)
    ensures Inv(rules, ClaimTx(db, sessionId))
  {
    if sessionId in db.decisions && Claimable(db.decisions[sessionId].status) {
      RowIsOk(rules, db, sessionId);
      var after := ClaimTx(db, sessionId);
      StatusKeepsInv(rules, db, sessionId, Processing(db.nextToken, true));
      hide UploadsOk, SourcesOk, MoneyOk, ResolutionsOk, DecisionOk;
      assert DecisionsOk(rules, after) && ClaimsOk(after);
      hide DecisionsOk, ClaimsOk;
      BookkeepingKeepsInv(rules, SetStatus(db, sessionId, Processing(db.nextToken, true)), after);
    }
  }

  lemma ExpireKeepsInv(rules: Rules, db: Db, sessionId: string)
    requires Inv(rules, db)
    ensures Inv(rules, ExpireLease(db, sessionId))
  {
    if sessionId in db.decisions && db.decisions[sessionId].status.Processing? {
      RowIsOk(rules, db, sessionId);
      hide Inv;
      StatusKeepsInv(rules, db, sessionId, db.decisions[sessionId].status.(live := false));
    }
  }

  lemma DropClaimKeepsInv(rules: Rules, db: Db, token: nat)
    requires Inv(rules, db)
    ensures Inv(rules, db.(claims := db.claims - {token}))
  {
    var after := db.(claims := db.claims - {token});
    hide UploadsOk, SourcesOk, MoneyOk, ResolutionsOk, DecisionOk;
    assert DecisionsOk(rules, after) && ClaimsOk(after);
    hide DecisionsOk, ClaimsOk;
    BookkeepingKeepsInv(rules, db, after);
  }

  lemma ClaimIsOk(rules: Rules, db: Db, token: nat)
    requires Inv(rules, db) && token in db.claims
    ensures
      var c := db.claims[token];
      && IsRowOf(db.decisions, c.sessionId, c.decision)
      && (c.result.Some? ==> c.decision.ruling.Forfeited? && ResultOk(db.matches, c.sessionId, c.result.value))
  {
    hide UploadsOk, SourcesOk, MoneyOk, ResolutionsOk, DecisionsOk, ResultOk;
  }

  /** The status a worker marks its decision with, if it has anything to say. */
  function MarkedStatus(c: Claim): Option<DecisionStatus> {
    if c.decision.ruling.NoContest? then Some(Settled(None))
    else if c.result == Some(WasSettled) then Some(Settled(Some(c.sessionId)))
    else if c.result == Some(WasSuperseded) then Some(Superseded)
    else None
  }

  lemma StatusIsOk(rules: Rules, matches: map<string, Match>, s: string, row: DecisionRow, c: Claim,
                   status: DecisionStatus)
    requires DecisionOk(rules, matches, s, row) && row.decision == c.decision && c.sessionId == s
    requires c.result.Some? ==> c.decision.ruling.Forfeited? && ResultOk(matches, s, c.result.value)
    requires status == Pending || MarkedStatus(c) == Some(status)
    ensures DecisionOk(rules, matches, s, row.(status := status))
  {
  }

  /** The status a worker may give is the one its resolution ended with. */
  lemma MarkedStatusIsOk(rules: Rules, db: Db, token: nat, status: DecisionStatus)
    requires Inv(rules, db) && token in db.claims
    requires status == Pending || MarkedStatus(db.claims[token]) == Some(status)
    ensures
      var s := db.claims[token].sessionId;
      s in db.decisions && DecisionOk(rules, db.matches, s, db.decisions[s].(status := status))
  {
    hide Inv, DecisionOk, ResultOk, MarkedStatus;
    ClaimIsOk(rules, db, token);
    RowIsOk(rules, db, db.claims[token].sessionId);
    StatusIsOk(rules, db.matches, db.claims[token].sessionId, db.decisions[db.claims[token].sessionId],
               db.claims[token], status);
  }

  lemma GivenStatusKeepsInv(rules: Rules, db: Db, token: nat, status: DecisionStatus)
    requires Inv(rules, db) && token in db.claims && db.claims[token].sessionId in db.decisions
    requires status == Pending || MarkedStatus(db.claims[token]) == Some(status)
    ensures Inv(rules, SetStatus(db.(claims := db.claims - {token}), db.claims[token].sessionId, status))
  {
    hide Inv, DecisionOk, MarkedStatus;
    MarkedStatusIsOk(rules, db, token, status);
    DropClaimKeepsInv(rules, db, token);
    StatusKeepsInv(rules, db.(claims := db.claims - {token}), db.claims[token].sessionId, status);
  }

  lemma MarkKeepsInv(rules: Rules, db: Db, token: nat)
    requires Inv(rules, db)
    ensures Inv(rules, Mark(db, token)) && Inv(rules, Retry(db, token))
  {
    hide Inv;
    if token in db.claims {
      var c := db.claims[token];
      DropClaimKeepsInv(rules, db, token);
      if HoldsClaim(db, c.sessionId, token) {
        hide SetStatus;
        GivenStatusKeepsInv(rules, db, token, Pending);
        if MarkedStatus(c).Some? { GivenStatusKeepsInv(rules, db, token, MarkedStatus(c).value); }
      }
    }
  }

  // ---------------------------------------------------------------- resolving

  lemma ResolutionKeepsRulings(rules: Rules, db: Db, sessionId: string, d: Decision, status: Verdicted)
    requires RulingsOk(rules, db) && IsRowOf(db.decisions, sessionId, d) && d.ruling.Forfeited?
    requires ResultOk(db.matches, sessionId, status)
    ensures RulingsOk(rules, db.(resolutions := db.resolutions[sessionId := Resolution(d, status)]))
  {
    hide ResultOk, DecisionOk;
  }

  /** The status of an existing resolution cannot change: the match table never does. */
  lemma SettledStaysSettled(db: Db, sessionId: string, status: Verdicted)
    requires ResolutionsOk(db) && ResultOk(db.matches, sessionId, status)
    ensures sessionId in db.resolutions ==> db.resolutions[sessionId].status == status
  {
    hide IsRowOf;
  }

  /** Writing a resolution that tells the truth about the match table. */
  lemma ResolutionKeepsInv(rules: Rules, db: Db, sessionId: string, d: Decision, status: Verdicted)
    requires Inv(rules, db) && IsRowOf(db.decisions, sessionId, d) && d.ruling.Forfeited?
    requires ResultOk(db.matches, sessionId, status)
    ensures Inv(rules, db.(resolutions := db.resolutions[sessionId := Resolution(d, status)]))
  {
    var after := db.(resolutions := db.resolutions[sessionId := Resolution(d, status)]);
    SettledStaysSettled(db, sessionId, status) by { hide UploadsOk, SourcesOk, MoneyOk, ResolutionsOk, ResultOk; }
    hide UploadsOk, SourcesOk, RulingsOk, MoneyOk, ResultOk;
    UploadsFrame(rules, db, after);
    MoneyFrame(db, after);
    SourcesFrame(rules, db, after);
    ResolutionKeepsRulings(rules, db, sessionId, d, status);
  }

  /** Settling a forfeit together with its resolution row. */
  lemma RuledKeepsInv(rules: Rules, db: Db, sessionId: string, d: Decision, m: Match)
    requires Inv(rules, db) && IsRowOf(db.decisions, sessionId, d) && d.ruling.Forfeited?
    requires m == Match(sessionId, d.parties, Forfeit, AccountOf(d.parties, d.ruling.winner), Authoritative)
    requires Settle(rules, db, sessionId, m, d.ruling.winner).Some?
    ensures
      var settled := Settle(rules, db, sessionId, m, d.ruling.winner).value;
      Inv(rules, settled.(resolutions := settled.resolutions[sessionId := Resolution(d, WasSettled)]))
  {
    var settled := Settle(rules, db, sessionId, m, d.ruling.winner).value;
    var after := settled.(resolutions := settled.resolutions[sessionId := Resolution(d, WasSettled)]);
    RowIsOk(rules, db, sessionId);
    assert m.parties == rules.parties(sessionId) by { hide Inv, Settle; }
    SettleShape(rules, db, sessionId, m, d.ruling.winner);
    hide Settle, UploadsOk, SourcesOk, RulingsOk, RatingsOk, DeltasOk, DecisionOk;
    SettleKeepsRatings(rules, db, sessionId, m, d.ruling.winner);
    SettleKeepsDeltas(rules, db, sessionId, m, d.ruling.winner);
    RuledSources(rules, db, after, sessionId, m, d);
    UploadsFrame(rules, db, after);
    OthersKeepRulings(rules, db, sessionId, m);
    ResolutionKeepsRulings(rules, db.(matches := db.matches[sessionId := m]), sessionId, d, WasSettled);
    var ruled := db.(matches := db.matches[sessionId := m]);
    RulingsFrame(rules, ruled.(resolutions := ruled.resolutions[sessionId := Resolution(d, WasSettled)]), after);
    MoneyFrame(settled, after);
  }

  lemma RuledSources(rules: Rules, db: Db, after: Db, sessionId: string, m: Match, d: Decision)
    requires SourcesOk(rules, db) && IsRowOf(db.decisions, sessionId, d) && d.ruling.Forfeited?
    requires sessionId !in db.matches && m.parties == rules.parties(sessionId) && m.parties.p1 != m.parties.p2
    requires m == Match(sessionId, d.parties, Forfeit, AccountOf(d.parties, d.ruling.winner), Authoritative)
    requires after == db.(matches := db.matches[sessionId := m], ratings := after.ratings, deltas := after.deltas,
                          resolutions := db.resolutions[sessionId := Resolution(d, WasSettled)])
    ensures SourcesOk(rules, after)
  {
    hide ChainDigest;
    forall s | s in after.matches ensures MatchOk(rules, after, s, after.matches[s]) {
      if s != sessionId { assert MatchOk(rules, db, s, db.matches[s]); }
    }
    hide MatchOk;
  }

  lemma ResolveTxKeepsInv(rules: Rules, db: Db, sessionId: string, d: Decision)
    requires Inv(rules, db) && IsRowOf(db.decisions, sessionId, d) && d.ruling.Forfeited?
    ensures
      var result := ResolveTx(rules, db, sessionId, d);
      result.Some? ==> Inv(rules, result.value.0) && ResultOk(result.value.0.matches, sessionId, result.value.1)
  {
    hide Inv, Settle, IsRowOf;
    var m := Match(sessionId, d.parties, Forfeit, AccountOf(d.parties, d.ruling.winner), Authoritative);
    if sessionId in db.matches {
      var how := if db.matches[sessionId].source.Authoritative? then WasSettled else WasSuperseded;
      ResolutionKeepsInv(rules, db, sessionId, d, how);
    } else if sessionId in db.resolutions {
      ResolvedIsMatched(rules, db, sessionId);
    } else if Settle(rules, db, sessionId, m, d.ruling.winner).Some? {
      RuledKeepsInv(rules, db, sessionId, d, m);
      SettleShape(rules, db, sessionId, m, d.ruling.winner);
    }
  }

  /** The resolver touches no claim and no decision row. */
  lemma ResolveTxLeaves(rules: Rules, db: Db, sessionId: string, d: Decision)
    requires d.ruling.Forfeited? && ResolveTx(rules, db, sessionId, d).Some?
    ensures
      var after := ResolveTx(rules, db, sessionId, d).value.0;
      after.claims == db.claims && after.decisions == db.decisions
  {
    hide MatchExists;
  }

  lemma ResolvedIsMatched(rules: Rules, db: Db, sessionId: string)
    requires Inv(rules, db) && sessionId in db.resolutions
    ensures sessionId in db.matches
  {
    hide UploadsOk, SourcesOk, MoneyOk, ClaimsOk, DecisionsOk;
  }

  lemma ResolveKeepsInv(rules: Rules, db: Db, token: nat)
    requires Inv(rules, db)
    ensures Inv(rules, Resolve(rules, db, token))
  {
    if token in db.claims && db.claims[token].decision.ruling.Forfeited? {
      var c := db.claims[token];
      ClaimIsOk(rules, db, token);
      ResolveTxKeepsInv(rules, db, c.sessionId, c.decision);
      var result := ResolveTx(rules, db, c.sessionId, c.decision);
      if result.Some? {
        hide ResolveTx, Inv, ResultOk;
        ResolveTxLeaves(rules, db, c.sessionId, c.decision);
        RememberKeepsInv(rules, result.value.0, token, result.value.1);
      }
    }
  }

  lemma RememberKeepsInv(rules: Rules, db: Db, token: nat, status: Verdicted)
    requires Inv(rules, db) && token in db.claims && db.claims[token].decision.ruling.Forfeited?
    requires ResultOk(db.matches, db.claims[token].sessionId, status)
    ensures Inv(rules, db.(claims := db.claims[token := db.claims[token].(result := Some(status))]))
  {
    var after := db.(claims := db.claims[token := db.claims[token].(result := Some(status))]);
    hide UploadsOk, SourcesOk, MoneyOk, ResolutionsOk, DecisionOk, ResultOk;
    assert DecisionsOk(rules, after) && ClaimsOk(after);
    hide DecisionsOk, ClaimsOk;
    BookkeepingKeepsInv(rules, db, after);
  }

  // ---------------------------------------------------------------- every run

  lemma NextKeepsInv(rules: Rules, db: Db, step: Step)
    requires DigestsTellApart(rules) && Inv(rules, db) && Possible(rules, step)
    ensures Inv(rules, Next(rules, db, step))
  {
    hide Inv, DigestsTellApart, AppendTx, SubmitTx, Admit, ClaimTx, ExpireLease, Resolve, Mark, Retry;
    match step
    case AppendCommitment(s, live, nowMs) => AppendKeepsInv(rules, db, s, live, nowMs);
    case SubmitResult(r, memory) =>
      if Admit(rules, r).Ok? { SubmitTxKeepsInv(rules, db, r, memory, Admit(rules, r).value); }
    case EnqueueDecision(sessionId, d) =>
      if sessionId !in db.decisions { EnqueueKeepsInv(rules, db, sessionId, d); }
    case ClaimDecision(sessionId) => ClaimKeepsInv(rules, db, sessionId);
    case LoseLease(sessionId) => ExpireKeepsInv(rules, db, sessionId);
    case ResolveClaim(token) => ResolveKeepsInv(rules, db, token);
    case MarkClaim(token) => MarkKeepsInv(rules, db, token);
    case RetryClaim(token) => MarkKeepsInv(rules, db, token);
    case CrashWorker(token) => DropClaimKeepsInv(rules, db, token);
  }

  lemma {:induction false} RunKeepsInv(rules: Rules, steps: seq<Step>, states: seq<Db>, k: nat)
    requires DigestsTellApart(rules) && IsRun(rules, steps, states) && k <= |steps|
    ensures Inv(rules, states[k])
    decreases k
  {
    if k == 0 {
      hide Next, DigestsTellApart;
    } else {
      hide Inv, Next, DigestsTellApart, Possible;
      RunKeepsInv(rules, steps, states, k - 1);
      assert states[k - 1 + 1] == Next(rules, states[k - 1], steps[k - 1]);
      NextKeepsInv(rules, states[k - 1], steps[k - 1]);
    }
  }
}
