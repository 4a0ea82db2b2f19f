/**
 What the reply to a result submission means, and which submission gets which reply, in terms of the
 request and the tables.
 */
module RankedReplies {
  import opened Wrappers
  import opened CommitmentChain
  import opened RankedSettlement
  import opened RankedSettlementSafety
  import opened RankedSettlementTheorems

  /** The request names the session as match, its two accounts, its own among them, and one of them as winner. */
  predicate Clean(p: Parties, r: Request) {
    && r.matchId == r.sessionId && r.participants == {p.p1, p.p2} && r.accountId in r.participants
    && (r.winner.Some? ==> r.winner.value in {p.p1, p.p2})
  }

  /** The proof is of this session and match, and replays to what the request claims. */
  predicate Proves(rules: Rules, r: Request) {
    var p, replayed := rules.parties(r.sessionId), rules.replay(r.payload);
    && r.payload.proof.sessionId == r.sessionId && r.payload.matchId == r.matchId && replayed.Some?
    && r.outcome == (if replayed.value.P1? then P1Win else P2Win)
    && r.winner == Some(if replayed.value.P1? then p.p1 else p.p2)
  }

  /**
   The session is live, has no decision, and this account has not submitted, at the first look and in
   the transaction.
   */
  predicate Open(db: Db, r: Request, memory: Memory) {
    && r.earlier.sessionKnown && memory.sessionKnown
    && !r.earlier.decisionPending && !r.earlier.decided && !memory.decisionPending && r.sessionId !in db.decisions
    && !r.earlier.submitted && (r.sessionId, r.accountId) !in db.submissions
  }

  /** The final digest of the stored chain of one side, if it covers the proof. */
  function Chain(rules: Rules, db: Db, r: Request, side: Side): Option<Digest> {
    var account := AccountOf(rules.parties(r.sessionId), side);
    ChainDigest(rules, r.payload.proof, account, side, RowsOf(db, r.sessionId, account))
  }

  function SideOf(p: Parties, account: string): Side { if account == p.p1 then P1 else P2 }

  /** The submission is taken in: whatever comes of it, nothing speaks against storing it. */
  predicate Fit(rules: Rules, db: Db, r: Request, memory: Memory) {
    var p := rules.parties(r.sessionId);
    && |r.participants| == 2 && r.accountId in {p.p1, p.p2} && Open(db, r, memory) && Proves(rules, r)
    && Chain(rules, db, r, SideOf(p, r.accountId)).Some?
  }

  /** The other side's submission, unless it is suspicious. */
  function Peer(rules: Rules, db: Db, r: Request): Option<Submitted> {
    var p := rules.parties(r.sessionId);
    var key := (r.sessionId, if r.accountId == p.p1 then p.p2 else p.p1);
    if key in db.submissions && !db.submissions[key].suspicious then Some(db.submissions[key]) else None
  }

  /** The peer claims the same outcome and winner on the same proof. */
  predicate Confirms(rules: Rules, peer: Submitted, r: Request)
    requires r.winner.Some?
  {
    peer.outcome == r.outcome && peer.winner == r.winner.value && peer.digest == rules.digest(r.payload)
  }

  // ---------------------------------------------------------------- before the transaction

  lemma AdmitMeans(rules: Rules, r: Request)
    ensures
      Admit(rules, r).Ok? <==>
        && |r.participants| == 2 && r.earlier.sessionKnown && IsParty(rules.parties(r.sessionId), r.accountId)
        && !r.earlier.decisionPending && !r.earlier.decided && !r.earlier.submitted && Proves(rules, r)
    ensures
      Admit(rules, r).Ok? ==>
        rules.replay(r.payload) == Some(Admit(rules, r).value)
        && r.winner == Some(AccountOf(rules.parties(r.sessionId), Admit(rules, r).value))
  {
  }

  lemma CleanMeans(p: Parties, r: Request)
    ensures Clean(p, r) <==> !IsSuspicious(p, r)
  {
  }

  /** What each refusal says. */
  lemma RefusalMeans(rules: Rules, db: Db, r: Request, memory: Memory)
    ensures
      var p, reply := rules.parties(r.sessionId), Submit(rules, db, r, memory).1;
      reply.Refused? ==>
        match reply.why
        case BadRequest => |r.participants| != 2 || (r.outcome.Forfeit? && r.winner.None?)
        case SessionUnknown => !r.earlier.sessionKnown || !memory.sessionKnown
        case NotAParticipant => r.accountId !in {p.p1, p.p2}
        case TerminalDecision =>
          r.earlier.decisionPending || r.earlier.decided || memory.decisionPending || r.sessionId in db.decisions
        case AlreadySubmitted => r.earlier.submitted || (r.sessionId, r.accountId) in db.submissions
        case DrawIsNoContest => r.outcome.Draw?
        case ProofRequired => r.outcome.Forfeit?
        case InvalidProof =>
          || r.payload.proof.sessionId != r.sessionId || r.payload.matchId != r.matchId
          || rules.replay(r.payload).None?
        case OutcomeMismatch =>
          rules.replay(r.payload).Some? && r.outcome != (if rules.replay(r.payload).value.P1? then P1Win else P2Win)
        case WinnerMismatch =>
          rules.replay(r.payload).Some?
          && r.winner != Some(if rules.replay(r.payload).value.P1? then p.p1 else p.p2)
        case OwnChainInvalid => Chain(rules, db, r, SideOf(p, r.accountId)).None?
        case PeerChainInvalid =>
          Fit(rules, db, r, memory) && Chain(rules, db, r, Opposite(SideOf(p, r.accountId))).None?
        case AlreadyProcessed => Fit(rules, db, r, memory)
  {
    hide ChainDigest, IsSuspicious, Settle, FlagAll;
    AdmitMeans(rules, r);
  }

  // ---------------------------------------------------------------- in the transaction

  lemma UnfitIsRefused(rules: Rules, db: Db, r: Request, memory: Memory)
    requires !Fit(rules, db, r, memory)
    ensures Submit(rules, db, r, memory).1.Refused?
  {
    hide ChainDigest, IsSuspicious, Settle, FlagAll, AfterInsert, Proves, Admit;
    AdmitMeans(rules, r);
  }

  /** A fit submission is stored, and what follows decides. */
  lemma FitIsInserted(rules: Rules, db: Db, r: Request, memory: Memory)
    requires Fit(rules, db, r, memory)
    ensures Admit(rules, r).Ok?
    ensures
      var winner := Admit(rules, r).value;
      var own := Chain(rules, db, r, SideOf(rules.parties(r.sessionId), r.accountId)).value;
      && r.winner == Some(AccountOf(rules.parties(r.sessionId), winner)) && rules.replay(r.payload) == Some(winner)
      && SubmitTx(rules, db, r, memory, winner) ==
           AfterInsert(rules, Inserted(rules, db, r, winner), r, winner, own)
  {
    hide ChainDigest, IsSuspicious, AfterInsert, Proves, Admit, Inserted;
    AdmitMeans(rules, r);
  }

  lemma TwoDiffer(p: Parties, r: Request)
    requires |r.participants| == 2
    ensures Clean(p, r) ==> p.p1 != p.p2
  {
    assert |{p.p1}| == 1;
  }

  /** The stored row of this submission. */
  lemma OwnRow(rules: Rules, db: Db, r: Request, winner: Side)
    ensures
      var p, own := rules.parties(r.sessionId), (r.sessionId, r.accountId);
      Inserted(rules, db, r, winner).submissions[own] ==
        Submitted(r.matchId, r.outcome, AccountOf(p, winner), rules.digest(r.payload), !Clean(p, r))
  {
    CleanMeans(rules.parties(r.sessionId), r);
    hide IsSuspicious, Clean;
  }

  /** Storing it does not change what is found of the peer. */
  lemma PeerStays(rules: Rules, db: Db, r: Request, winner: Side)
    requires rules.parties(r.sessionId).p1 != rules.parties(r.sessionId).p2
    requires IsParty(rules.parties(r.sessionId), r.accountId)
    ensures
      var p := rules.parties(r.sessionId);
      PeerOf(Inserted(rules, db, r, winner), r.sessionId, AccountOf(p, Opposite(SideOf(p, r.accountId)))) ==
        Peer(rules, db, r)
  {
    hide IsSuspicious;
  }

  /** What the transaction sees once the submission is stored. */
  lemma InsertedShows(rules: Rules, db: Db, r: Request, winner: Side)
    requires r.winner == Some(AccountOf(rules.parties(r.sessionId), winner))
    requires IsParty(rules.parties(r.sessionId), r.accountId) && |r.participants| == 2
    ensures
      var p, inserted, own := rules.parties(r.sessionId), Inserted(rules, db, r, winner), (r.sessionId, r.accountId);
      var peer := PeerOf(inserted, r.sessionId, AccountOf(p, Opposite(SideOf(p, r.accountId))));
      && (inserted.submissions[own].suspicious <==> !Clean(p, r))
      && (Clean(p, r) ==> peer == Peer(rules, db, r))
      && (Clean(p, r) && peer.Some? ==>
            (Agree(peer.value, inserted.submissions[own]) <==> Confirms(rules, peer.value, r)))
  {
    OwnRow(rules, db, r, winner);
    TwoDiffer(rules.parties(r.sessionId), r);
    if Clean(rules.parties(r.sessionId), r) { PeerStays(rules, db, r, winner); }
    hide Inserted, Clean, PeerOf, Peer;
  }

  /**
   Which reply a submission gets: refused unless it is fit; else flagged when it is not clean or
   contradicts its peer, awaiting when there is no unsuspicious peer, and settled or refused by the
   peer's chain or the match table when both agree.
   */
  lemma ReplyMeans(rules: Rules, db: Db, r: Request, memory: Memory)
    ensures
      var p, reply, peer := rules.parties(r.sessionId), Submit(rules, db, r, memory).1, Peer(rules, db, r);
      if !Fit(rules, db, r, memory) then reply.Refused?
      else if !Clean(p, r) then reply == Flagged
      else if peer.None? then reply == Awaiting
      else if !Confirms(rules, peer.value, r) then reply == Flagged
      else if Chain(rules, db, r, Opposite(SideOf(p, r.accountId))).None? then reply == Refused(PeerChainInvalid)
      else reply == Accepted || reply == Refused(AlreadyProcessed)
  {
    if Fit(rules, db, r, memory) {
      FitIsInserted(rules, db, r, memory);
      InsertedShows(rules, db, r, Admit(rules, r).value);
      hide ChainDigest, Admit, SubmitTx, Inserted, PeerOf, Agree, Clean, Peer, Settle, Proves, Open, FlagAll;
    } else {
      UnfitIsRefused(rules, db, r, memory);
      hide Submit, Clean, Fit, Peer;
    }
  }

  /** The two ratings stay positive. */
  predicate StaysPositive(rules: Rules, db: Db, s: string, winner: Side) {
    var p := rules.parties(s);
    var change := rules.change(RatingOf(db.ratings, p.p1), RatingOf(db.ratings, p.p2), winner);
    RatingOf(db.ratings, p.p1) + change.0 > 0 && RatingOf(db.ratings, p.p2) + change.1 > 0
  }

  /** In tables that a run can reach, the match table never stands in the way: only the ratings can. */
  lemma AcceptedExactly(rules: Rules, db: Db, r: Request, memory: Memory)
    requires Inv(rules, db)
    ensures
      var p, peer := rules.parties(r.sessionId), Peer(rules, db, r);
      Submit(rules, db, r, memory).1 == Accepted <==>
        && Fit(rules, db, r, memory) && Clean(p, r) && peer.Some? && Confirms(rules, peer.value, r)
        && Chain(rules, db, r, Opposite(SideOf(p, r.accountId))).Some?
        && StaysPositive(rules, db, r.sessionId, rules.replay(r.payload).value)
  {
    var p, peer := rules.parties(r.sessionId), Peer(rules, db, r);
    ReplyMeans(rules, db, r, memory);
    hide Inv, Clean, Peer, Proves, Open;
    if Fit(rules, db, r, memory) && Clean(p, r) && peer.Some? && Confirms(rules, peer.value, r)
       && Chain(rules, db, r, Opposite(SideOf(p, r.accountId))).Some? {
      AgreedIsSettled(rules, db, r, memory);
    }
    hide Submit, Fit, Chain, StaysPositive;
  }

  lemma AgreedIsSettled(rules: Rules, db: Db, r: Request, memory: Memory)
    requires Inv(rules, db) && Fit(rules, db, r, memory) && Clean(rules.parties(r.sessionId), r)
    requires Peer(rules, db, r).Some? && Confirms(rules, Peer(rules, db, r).value, r)
    requires Chain(rules, db, r, Opposite(SideOf(rules.parties(r.sessionId), r.accountId))).Some?
    ensures
      Submit(rules, db, r, memory).1 == Accepted <==>
        StaysPositive(rules, db, r.sessionId, rules.replay(r.payload).value)
  {
    var p, winner := rules.parties(r.sessionId), Admit(rules, r).value;
    var own := Chain(rules, db, r, SideOf(p, r.accountId)).value;
    assert r.matchId == r.sessionId && IsParty(p, r.accountId) && |r.participants| == 2;
    TwoDiffer(p, r);
    FitIsInserted(rules, db, r, memory);
    InsertedShows(rules, db, r, winner);
    MatchCheckNeverFires(rules, db, r);
    hide Inv, ChainDigest, Admit, Inserted, PeerOf, Agree, Clean, Peer, Proves, Open, SubmitTx, FlagAll;
    InsertedKeeps(rules, db, r, winner);
    SettlesIfPositive(rules, db, Inserted(rules, db, r, winner), r, winner, own);
  }

  lemma InsertedKeeps(rules: Rules, db: Db, r: Request, winner: Side)
    ensures
      var after := Inserted(rules, db, r, winner);
      after.matches == db.matches && after.ratings == db.ratings && after.commitments == db.commitments
  {
    hide IsSuspicious;
  }

  lemma SettlesIfPositive(rules: Rules, db: Db, inserted: Db, r: Request, winner: Side, own: Digest)
    requires inserted.matches == db.matches && inserted.ratings == db.ratings && inserted.commitments == db.commitments
    requires !MatchExists(db.matches, r.matchId, r.sessionId)
    requires rules.parties(r.sessionId).p1 != rules.parties(r.sessionId).p2
    requires Chain(rules, db, r, Opposite(SideOf(rules.parties(r.sessionId), r.accountId))).Some?
    ensures
      SettleAgreed(rules, inserted, r, winner, own).1 ==
        if StaysPositive(rules, db, r.sessionId, winner) then Accepted else Refused(AlreadyProcessed)
  {
    hide ChainDigest, MatchExists;
  }
}
