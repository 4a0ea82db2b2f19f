/**
 Ranked settlement as the routes and the worker write it: statements on tables that a transaction
 takes back when it fails. Each method is proved to do what the matching step of
 `RankedSettlement` says.
 */
module RankedTables {
  import opened Wrappers
  import opened CommitmentChain
  import opened CommitmentStore
  import opened RankedSettlement
  import opened RankedSettlementSafety

  /** What a batch does for one claimed decision: resolve a forfeit, then mark or give back. */
  function ProcessOne(rules: Rules, db: Db, token: nat): Db {
    if token !in db.claims then db
    else if db.claims[token].decision.ruling.NoContest? then Mark(db, token)
    else
      match ResolveTx(rules, db, db.claims[token].sessionId, db.claims[token].decision)
      case None => Retry(db, token)
      case Some(_) => Mark(Resolve(rules, db, token), token)
  }

  /** A batch handles its claims in order; one that fails does not stop the others. */
  function ProcessBatch(rules: Rules, db: Db, tokens: seq<nat>): Db {
    if tokens == [] then db
    else ProcessOne(rules, ProcessBatch(rules, db, tokens[..|tokens| - 1]), tokens[|tokens| - 1])
  }

  /** A batch is made of the steps of the protocol, so it keeps what every run keeps. */
  lemma {:induction false} BatchKeepsInv(rules: Rules, db: Db, tokens: seq<nat>)
    requires Inv(rules, db)
    ensures Inv(rules, ProcessBatch(rules, db, tokens))
  {
    hide Inv, Mark, Retry, Resolve, ResolveTx;
    if tokens != [] {
      var n := |tokens| - 1;
      BatchKeepsInv(rules, db, tokens[..n]);
      var before := ProcessBatch(rules, db, tokens[..n]);
      MarkKeepsInv(rules, before, tokens[n]);
      ResolveKeepsInv(rules, before, tokens[n]);
      MarkKeepsInv(rules, Resolve(rules, before, tokens[n]), tokens[n]);
    }
  }

  class Tables {
    const rules: Rules
    var commitments: map<(string, string), seq<Stored<Digest>>>
    var submissions: map<(string, string), Submitted>
    var proofs: map<Digest, ProofRow>
    var decisions: map<string, DecisionRow>
    var resolutions: map<string, Resolution>
    var matches: map<string, Match>
    var ratings: map<string, int>
    var deltas: seq<Delta>
    var claims: map<nat, Claim>
    var nextToken: nat
    /** A record of what each consensus was judged on, never read. */
    var evidence: map<string, Evidence>

    constructor (rules: Rules)
      ensures this.rules == rules && View() == Empty()
    {
      this.rules := rules;
      commitments, submissions, proofs, decisions, resolutions := map[], map[], map[], map[], map[];
      matches, ratings, deltas, claims, nextToken, evidence := map[], map[], [], map[], 0, map[];
    }

    ghost function View(): Db
      reads this
    {
      Db(commitments, submissions, proofs, decisions, resolutions, matches, ratings, deltas, claims, nextToken,
         evidence)
    }

    /** Insert the match, record both changes, update both ratings. */
    method SettleMatch(sessionId: string, m: Match, winner: Side) returns (ok: bool)
      modifies this`matches, this`ratings, this`deltas
      ensures ok == Settle(rules, old(View()), sessionId, m, winner).Some?
      ensures View() == if ok then Settle(rules, old(View()), sessionId, m, winner).value else old(View())
    {
      var p1, p2 := m.parties.p1, m.parties.p2;
      if p1 == p2 || MatchExists(matches, m.matchId, sessionId) {
        return false;
      }
      var pre1, pre2 := RatingOf(ratings, p1), RatingOf(ratings, p2);
      var change := rules.change(pre1, pre2, winner);
      if pre1 + change.0 <= 0 || pre2 + change.1 <= 0 {
        return false;
      }
      matches := matches[sessionId := m];
      deltas := deltas + [Delta(m.matchId, p1, change.0)];
      ratings := ratings[p1 := pre1 + change.0];
      deltas := deltas + [Delta(m.matchId, p2, change.1)];
      ratings := ratings[p2 := pre2 + change.1];
      assert deltas == old(deltas) + [Delta(m.matchId, p1, change.0), Delta(m.matchId, p2, change.1)];
      ok := true;
    }

    /** One account's stored chain in a session. */
    method ReadRows(sessionId: string, accountId: string) returns (rows: seq<Stored<Digest>>)
      ensures rows == RowsOf(View(), sessionId, accountId)
    {
      rows := if (sessionId, accountId) in commitments then commitments[(sessionId, accountId)] else [];
    }

    /** Write the match-level attestation on a stored proof. */
    method Attest(g: Digest, attestation: Attestation)
      modifies this`proofs
      ensures
        View() == if g in old(proofs)
                  then old(View()).(proofs := old(proofs)[g := old(proofs)[g].(attestation := Some(attestation))])
                  else old(View())
    {
      if g in proofs {
        proofs := proofs[g := proofs[g].(attestation := Some(attestation))];
      }
    }

    /** The settling part of the submit route; a failure undoes the attestation. */
    method SettleByConsensus(r: Request, winner: Side, own: Digest) returns (ok: bool, reply: Reply)
      modifies this`proofs, this`matches, this`ratings, this`deltas, this`evidence
      ensures
        var tx := SettleAgreed(rules, old(View()), r, winner, own);
        ok == tx.0.Some? && reply == tx.1 && View() == (if ok then tx.0.value else old(View()))
    {
      hide Settle, ChainDigest, RowsOf, AccountOf, Opposite;
      var parties := rules.parties(r.sessionId);
      var side := if parties.p1 == r.accountId then P1 else P2;
      var peer := AccountOf(parties, Opposite(side));
      var ownRows := ReadRows(r.sessionId, r.accountId);
      var peerRows := ReadRows(r.sessionId, peer);
      var other := ChainDigest(rules, r.payload.proof, peer, Opposite(side), peerRows);
      if other.None? {
        return false, Refused(PeerChainInvalid);
      }
      var before := proofs;
      var g := rules.digest(r.payload);
      var attestation := if side.P1? then Attestation(own, other.value) else Attestation(other.value, own);
      Attest(g, attestation);
      var m := Match(r.matchId, parties, r.outcome, AccountOf(parties, winner), Consensus(r.accountId));
      ok := SettleMatch(r.sessionId, m, winner);
      if !ok {
        proofs := before;
        return false, Refused(AlreadyProcessed);
      }
      evidence := evidence[r.sessionId :=
        if side.P1? then Evidence(ownRows, peerRows) else Evidence(peerRows, ownRows)];
      reply := Accepted;
    }

    /** One forfeit: write the resolution, then settle unless the session is settled already. */
    method ResolveForfeit(sessionId: string, d: Decision) returns (result: Option<Verdicted>)
      requires d.ruling.Forfeited?
      modifies this`resolutions, this`matches, this`ratings, this`deltas
      ensures
        var tx := ResolveTx(rules, old(View()), sessionId, d);
        && View() == (if tx.Some? then tx.value.0 else old(View()))
        && result == (if tx.Some? then Some(tx.value.1) else None)
    {
      hide Settle;
      if sessionId in resolutions && resolutions[sessionId].decision != d {
        return None;
      }
      if sessionId in matches {
        var status := if matches[sessionId].source.Authoritative? then WasSettled else WasSuperseded;
        resolutions := resolutions[sessionId := Resolution(d, status)];
        return Some(status);
      }
      if sessionId in resolutions && resolutions[sessionId].status.WasSuperseded? {
        return Some(WasSuperseded);
      }
      var m := Match(sessionId, d.parties, Forfeit, AccountOf(d.parties, d.ruling.winner), Authoritative);
      var ok := SettleMatch(sessionId, m, d.ruling.winner);
      if !ok {
        return None;
      }
      resolutions := resolutions[sessionId := Resolution(d, WasSettled)];
      return Some(WasSettled);
    }

    /** The worker's loop over the claims of one batch. */
    method ProcessClaims(tokens: seq<nat>)
      modifies this`resolutions, this`matches, this`ratings, this`deltas, this`claims, this`decisions
      ensures View() == ProcessBatch(rules, old(View()), tokens)
    {
      hide ResolveTx;
      for i := 0 to |tokens|
        invariant View() == ProcessBatch(rules, old(View()), tokens[..i])
      {
        assert tokens[..i + 1][..i] == tokens[..i];
        ProcessClaim(tokens[i]);
      }
      assert tokens[..|tokens|] == tokens;
    }

    method ProcessClaim(token: nat)
      modifies this`resolutions, this`matches, this`ratings, this`deltas, this`claims, this`decisions
      ensures View() == ProcessOne(rules, old(View()), token)
    {
      hide ResolveTx;
      if token !in claims {
        return;
      }
      var c := claims[token];
      if c.decision.ruling.NoContest? {
        MarkDecision(token);
        return;
      }
      var result := ResolveForfeit(c.sessionId, c.decision);
      if result.None? {
        ReleaseClaim(token);
        return;
      }
      claims := claims[token := c.(result := result)];
      MarkDecision(token);
    }

    method MarkDecision(token: nat)
      modifies this`claims, this`decisions
      ensures View() == Mark(old(View()), token)
    {
      if token !in claims {
        return;
      }
      var c := claims[token];
      claims := claims - {token};
      if c.sessionId in decisions && decisions[c.sessionId].status == Processing(token, true) {
        var row := decisions[c.sessionId];
        if c.decision.ruling.NoContest? {
          decisions := decisions[c.sessionId := row.(status := Settled(None))];
        } else if c.result == Some(WasSettled) {
          decisions := decisions[c.sessionId := row.(status := Settled(Some(c.sessionId)))];
        } else if c.result == Some(WasSuperseded) {
          decisions := decisions[c.sessionId := row.(status := Superseded)];
        }
      }
    }

    method ReleaseClaim(token: nat)
      modifies this`claims, this`decisions
      ensures View() == Retry(old(View()), token)
    {
      if token !in claims {
        return;
      }
      var c := claims[token];
      claims := claims - {token};
      if c.sessionId in decisions && decisions[c.sessionId].status == Processing(token, true) {
        decisions := decisions[c.sessionId := decisions[c.sessionId].(status := Pending)];
      }
    }

    /** The submit route after its admission checks: insert, flag, await, or settle. */
    method SubmitResult(r: Request, memory: Memory) returns (reply: Reply)
      modifies this`submissions, this`proofs, this`matches, this`ratings, this`deltas, this`evidence
      ensures View() == Submit(rules, old(View()), r, memory).0 && reply == Submit(rules, old(View()), r, memory).1
    {
      hide SubmitTx;
      var admitted := Admit(rules, r);
      if admitted.Err? {
        return Refused(admitted.error);
      }
      reply := SubmitAdmitted(r, memory, admitted.value);
    }

    method SubmitAdmitted(r: Request, memory: Memory, winner: Side) returns (reply: Reply)
      modifies this`submissions, this`proofs, this`matches, this`ratings, this`deltas, this`evidence
      ensures
        var tx := SubmitTx(rules, old(View()), r, memory, winner);
        View() == (if tx.0.Some? then tx.0.value else old(View())) && reply == tx.1
    {
      hide ChainDigest, RowsOf, Inserted, AfterInsert;
      var parties := rules.parties(r.sessionId);
      var side := if parties.p1 == r.accountId then P1 else P2;
      if memory.decisionPending || r.sessionId in decisions {
        return Refused(TerminalDecision);
      }
      if !memory.sessionKnown {
        return Refused(SessionUnknown);
      }
      var key := (r.sessionId, r.accountId);
      var rows := ReadRows(r.sessionId, r.accountId);
      var own := ChainDigest(rules, r.payload.proof, r.accountId, side, rows);
      if own.None? {
        return Refused(OwnChainInvalid);
      }
      if key in submissions {
        return Refused(AlreadySubmitted);
      }
      var before := (proofs, submissions);
      InsertSubmission(r, winner);
      var ok;
      ok, reply := DecideSubmission(r, winner, own.value);
      if !ok {
        proofs, submissions := before.0, before.1;
      }
    }

    method InsertSubmission(r: Request, winner: Side)
      modifies this`submissions, this`proofs
      ensures View() == Inserted(rules, old(View()), r, winner)
    {
      hide IsSuspicious;
      var parties := rules.parties(r.sessionId);
      var g := rules.digest(r.payload);
      if g !in proofs {
        proofs := proofs[g := ProofRow(r.payload, None)];
      }
      var row := Submitted(r.matchId, r.outcome, AccountOf(parties, winner), g, IsSuspicious(parties, r));
      submissions := submissions[(r.sessionId, r.accountId) := row];
    }

    method DecideSubmission(r: Request, winner: Side, own: Digest) returns (ok: bool, reply: Reply)
      requires (r.sessionId, r.accountId) in submissions
      modifies this`submissions, this`proofs, this`matches, this`ratings, this`deltas, this`evidence
      ensures
        var tx := AfterInsert(rules, old(View()), r, winner, own);
        ok == tx.0.Some? && reply == tx.1 && View() == (if ok then tx.0.value else old(View()))
    {
      hide ChainDigest, Settle, SettleAgreed, Agree;
      var parties := rules.parties(r.sessionId);
      var side := if parties.p1 == r.accountId then P1 else P2;
      var row := submissions[(r.sessionId, r.accountId)];
      if row.suspicious {
        return true, Flagged;
      }
      var peer := (r.sessionId, AccountOf(parties, Opposite(side)));
      if peer !in submissions || submissions[peer].suspicious {
        return true, Awaiting;
      }
      if !Agree(submissions[peer], row) {
        submissions := map k | k in submissions ::
          if k.0 == r.sessionId then submissions[k].(suspicious := true) else submissions[k];
        return true, Flagged;
      }
      ok, reply := SettleByConsensus(r, winner, own);
    }
  }
}
