/**
 Settling a ranked session. Two participants submit results that carry a replayable proof; the
 server settles by consensus once both agree and both input chains cover the proof. A server-owned
 terminal decision can race them: workers claim it under a token that expires, resolve it, and
 mark it.

 The tables are maps. Each step is one database transaction, taken under the session's lock, or
 one action of a worker between transactions.
 */
module RankedSettlement {
  import opened Wrappers
  import opened CommitmentChain
  import opened CommitmentStore

  type Digest(==, !new)

  const INITIAL_RATING: int := 1200

  /** The accounts the matchmaker assigned to the two sides of a session. */
  datatype Parties = Parties(p1: string, p2: string)

  /** What a participant uploads to be replayed. */
  datatype Payload = Payload(proof: Proof, matchId: string)

  datatype Outcome = P1Win | P2Win | Draw | Forfeit

  /** The parts of the system this protocol calls: the replay verifier, digests, the rating rule. */
  datatype Rules = Rules(
    h: Hasher<Digest>,
    policy: Policy,
    parties: string -> Parties,
    replay: Payload -> Option<Side>,
    digest: Payload -> Digest,
    change: (int, int, Side) -> (int, int))

  ghost predicate DigestsTellApart(rules: Rules) {
    forall a, b {:trigger rules.digest(a), rules.digest(b)} :: rules.digest(a) == rules.digest(b) ==> a == b
  }

  // ---------------------------------------------------------------- tables

  datatype Submitted = Submitted(matchId: string, outcome: Outcome, winner: string, digest: Digest, suspicious: bool)

  /** The final chain digests of both sides, stored with a settled proof. */
  datatype Attestation = Attestation(p1: Digest, p2: Digest)

  datatype ProofRow = ProofRow(payload: Payload, attestation: Option<Attestation>)

  datatype Ruling = NoContest | Forfeited(winner: Side)

  datatype Decision = Decision(ruling: Ruling, parties: Parties, dueAt: int)

  datatype DecisionStatus =
    | Pending
    | Processing(token: nat, live: bool)
    | Settled(matchId: Option<string>)
    | Superseded

  datatype DecisionRow = DecisionRow(decision: Decision, status: DecisionStatus)

  /** How a resolver's attempt ended. */
  datatype Verdicted = WasSettled | WasSuperseded

  datatype Resolution = Resolution(decision: Decision, status: Verdicted)

  datatype Source = Consensus(submitter: string) | Authoritative

  datatype Match = Match(matchId: string, parties: Parties, outcome: Outcome, winner: string, source: Source)

  datatype Delta = Delta(matchId: string, accountId: string, amount: int)

  /** A worker that has claimed a decision, and the result of its resolution once it has one. */
  datatype Claim = Claim(sessionId: string, decision: Decision, result: Option<Verdicted>)

  /** The stored chains a consensus was judged on; a record only, never read. */
  datatype Evidence = Evidence(p1: seq<Stored<Digest>>, p2: seq<Stored<Digest>>)

  datatype Db = Db(
    commitments: map<(string, string), seq<Stored<Digest>>>,
    submissions: map<(string, string), Submitted>,
    proofs: map<Digest, ProofRow>,
    decisions: map<string, DecisionRow>,
    resolutions: map<string, Resolution>,
    matches: map<string, Match>,
    ratings: map<string, int>,
    deltas: seq<Delta>,
    claims: map<nat, Claim>,
    nextToken: nat,
    evidence: map<string, Evidence>)

  function Empty(): Db {
    Db(map[], map[], map[], map[], map[], map[], map[], [], map[], 0, map[])
  }

  // ---------------------------------------------------------------- settlement

  function OutcomeOf(winner: Side): Outcome { if winner.P1? then P1Win else P2Win }

  function AccountOf(parties: Parties, side: Side): string { if side.P1? then parties.p1 else parties.p2 }

  function Opposite(side: Side): Side { if side.P1? then P2 else P1 }

  function RatingOf(ratings: map<string, int>, account: string): int {
    if account in ratings then ratings[account] else INITIAL_RATING
  }

  /** Match rows are unique by session, which is their key here, and by match id. */
  predicate MatchExists(matches: map<string, Match>, matchId: string, sessionId: string) {
    sessionId in matches || exists s :: s in matches && matches[s].matchId == matchId
  }

  /** Insert the match and move both ratings; a rating that would not stay positive aborts. */
  function Settle(rules: Rules, db: Db, sessionId: string, m: Match, winner: Side): Option<Db> {
    var p := m.parties;
    var pre := (RatingOf(db.ratings, p.p1), RatingOf(db.ratings, p.p2));
    var change := rules.change(pre.0, pre.1, winner);
    if p.p1 == p.p2 || MatchExists(db.matches, m.matchId, sessionId) then None
    else if pre.0 + change.0 <= 0 || pre.1 + change.1 <= 0 then None
    else
      Some(db.(matches := db.matches[sessionId := m],
               ratings := db.ratings[p.p1 := pre.0 + change.0][p.p2 := pre.1 + change.1],
               deltas := db.deltas + [Delta(m.matchId, p.p1, change.0), Delta(m.matchId, p.p2, change.1)]))
  }

  // ---------------------------------------------------------------- submitting a result

  /** What the reads before the transaction found; all of it may have changed since. */
  datatype Glance = Glance(sessionKnown: bool, decisionPending: bool, decided: bool, submitted: bool)

  datatype Request = Request(
    sessionId: string, matchId: string, accountId: string, outcome: Outcome,
    participants: set<string>, winner: Option<string>, payload: Payload, earlier: Glance)

  /** What the process memory says when the transaction holds the lock. */
  datatype Memory = Memory(sessionKnown: bool, decisionPending: bool)

  datatype Refusal =
    | BadRequest | NotAParticipant | DrawIsNoContest | ProofRequired | InvalidProof
    | OutcomeMismatch | WinnerMismatch | TerminalDecision | SessionUnknown
    | OwnChainInvalid | AlreadySubmitted | PeerChainInvalid | AlreadyProcessed

  datatype Reply = Refused(why: Refusal) | Flagged | Awaiting | Accepted

  predicate IsParty(parties: Parties, account: string) { account == parties.p1 || account == parties.p2 }

  /** The replayed winner of a proof that belongs to this session and match. */
  function Replayed(rules: Rules, r: Request): Option<Side> {
    if r.payload.proof.sessionId != r.sessionId || r.payload.matchId != r.matchId then None
    else rules.replay(r.payload)
  }

  /** The checks before the transaction, in order; on success the replayed winner. */
  function Admit(rules: Rules, r: Request): Result<Side, Refusal> {
    var parties := rules.parties(r.sessionId);
    if |r.participants| != 2 || (r.outcome.Forfeit? && r.winner.None?) then Err(BadRequest)
    else if !r.earlier.sessionKnown then Err(SessionUnknown)
    else if !IsParty(parties, r.accountId) then Err(NotAParticipant)
    else if r.earlier.decisionPending || r.earlier.decided then Err(TerminalDecision)
    else if r.earlier.submitted then Err(AlreadySubmitted)
    else if r.outcome.Draw? then Err(DrawIsNoContest)
    else if r.outcome.Forfeit? then Err(ProofRequired)
    else
      match Replayed(rules, r)
      case None => Err(InvalidProof)
      case Some(winner) =>
        if r.outcome != OutcomeOf(winner) then Err(OutcomeMismatch)
        else if r.winner != Some(AccountOf(parties, winner)) then Err(WinnerMismatch)
        else Ok(winner)
  }

  predicate IsSuspicious(parties: Parties, r: Request) {
    || r.matchId != r.sessionId
    || r.participants != {parties.p1, parties.p2}
    || r.accountId !in r.participants
    || (r.winner.Some? && !IsParty(parties, r.winner.value))
  }

  /** A session with one account on both sides gets no unsuspicious submission. */
  lemma EqualPartiesAreFlagged(rules: Rules, r: Request)
    requires rules.parties(r.sessionId).p1 == rules.parties(r.sessionId).p2 && Admit(rules, r).Ok?
    ensures IsSuspicious(rules.parties(r.sessionId), r)
  {
    var account := rules.parties(r.sessionId).p1;
    assert r.participants == {account} ==> |r.participants| == 1;
  }

  function RowsOf(db: Db, sessionId: string, accountId: string): seq<Stored<Digest>> {
    if (sessionId, accountId) in db.commitments then db.commitments[(sessionId, accountId)] else []
  }

  /** The final digest of a chain that covers the proof. */
  function ChainDigest(rules: Rules, proof: Proof, accountId: string, side: Side, rows: seq<Stored<Digest>>)
    : Option<Digest>
  {
    if !WellShaped(rows) then None
    else
      match Judge(rules.h, proof, Participant(proof.sessionId, accountId, side), rows, rules.policy)
      case Rejected(_) => None
      case Verified(finalDigest, _) => Some(finalDigest)
  }

  /** The proof, unless stored already, and the submission row. */
  function Inserted(rules: Rules, db: Db, r: Request, winner: Side): (after: Db)
    ensures (r.sessionId, r.accountId) in after.submissions
  {
    var g := rules.digest(r.payload);
    var parties := rules.parties(r.sessionId);
    db.(proofs := if g in db.proofs then db.proofs else db.proofs[g := ProofRow(r.payload, None)],
        submissions := db.submissions[(r.sessionId, r.accountId) :=
          Submitted(r.matchId, r.outcome, AccountOf(parties, winner), g, IsSuspicious(parties, r))])
  }

  /** The other participant's submission, if it is not suspicious. */
  function PeerOf(db: Db, sessionId: string, peer: string): Option<Submitted> {
    if (sessionId, peer) in db.submissions && !db.submissions[(sessionId, peer)].suspicious
    then Some(db.submissions[(sessionId, peer)])
    else None
  }

  predicate Agree(a: Submitted, b: Submitted) {
    a.outcome == b.outcome && a.winner == b.winner && a.digest == b.digest
  }

  /** Every submission of the session becomes suspicious. */
  function FlagAll(db: Db, sessionId: string): Db {
    db.(submissions := map k | k in db.submissions ::
          if k.0 == sessionId then db.submissions[k].(suspicious := true) else db.submissions[k])
  }

  /** Settle an agreed session: both chains must cover the proof of this request. */
  function SettleAgreed(rules: Rules, db: Db, r: Request, winner: Side, own: Digest): (Option<Db>, Reply) {
    var parties := rules.parties(r.sessionId);
    var side := if parties.p1 == r.accountId then P1 else P2;
    var peer := AccountOf(parties, Opposite(side));
    var peerRows := RowsOf(db, r.sessionId, peer);
    match ChainDigest(rules, r.payload.proof, peer, Opposite(side), peerRows)
    case None => (None, Refused(PeerChainInvalid))
    case Some(other) =>
      var ownRows := RowsOf(db, r.sessionId, r.accountId);
      var g := rules.digest(r.payload);
      var attestation := if side.P1? then Attestation(own, other) else Attestation(other, own);
      var evidence := if side.P1? then Evidence(ownRows, peerRows) else Evidence(peerRows, ownRows);
      var attested :=
        if g in db.proofs then db.(proofs := db.proofs[g := db.proofs[g].(attestation := Some(attestation))]) else db;
      var m := Match(r.matchId, parties, r.outcome, AccountOf(parties, winner), Consensus(r.accountId));
      match Settle(rules, attested, r.sessionId, m, winner)
      case None => (None, Refused(AlreadyProcessed))
      case Some(settled) => (Some(settled.(evidence := settled.evidence[r.sessionId := evidence])), Accepted)
  }

  /** With the submission inserted: flag it, await the peer, flag the session, or settle. */
  function AfterInsert(rules: Rules, inserted: Db, r: Request, winner: Side, own: Digest): (Option<Db>, Reply)
    requires (r.sessionId, r.accountId) in inserted.submissions
  {
    var parties := rules.parties(r.sessionId);
    var side := if parties.p1 == r.accountId then P1 else P2;
    var row := inserted.submissions[(r.sessionId, r.accountId)];
    if row.suspicious then (Some(inserted), Flagged)
    else
      match PeerOf(inserted, r.sessionId, AccountOf(parties, Opposite(side)))
      case None => (Some(inserted), Awaiting)
      case Some(peer) =>
        if !Agree(peer, row) then (Some(FlagAll(inserted, r.sessionId)), Flagged)
        else SettleAgreed(rules, inserted, r, winner, own)
  }

  /** The transaction: `None` when it rolls back. */
  function SubmitTx(rules: Rules, db: Db, r: Request, memory: Memory, winner: Side): (Option<Db>, Reply) {
    var parties := rules.parties(r.sessionId);
    var side := if parties.p1 == r.accountId then P1 else P2;
    if memory.decisionPending || r.sessionId in db.decisions then (None, Refused(TerminalDecision))
    else if !memory.sessionKnown then (None, Refused(SessionUnknown))
    else
      match ChainDigest(rules, r.payload.proof, r.accountId, side, RowsOf(db, r.sessionId, r.accountId))
      case None => (None, Refused(OwnChainInvalid))
      case Some(own) =>
        if (r.sessionId, r.accountId) in db.submissions then (None, Refused(AlreadySubmitted))
        else AfterInsert(rules, Inserted(rules, db, r, winner), r, winner, own)
  }

  function Submit(rules: Rules, db: Db, r: Request, memory: Memory): (Db, Reply) {
    match Admit(rules, r)
    case Err(why) => (db, Refused(why))
    case Ok(winner) =>
      var (after, reply) := SubmitTx(rules, db, r, memory, winner);
      (if after.Some? then after.value else db, reply)
  }

  // ---------------------------------------------------------------- input commitments

  /** The input-commitment route: identity and side are checked against the session. */
  function AppendTx(rules: Rules, db: Db, s: Submission<Digest>, live: bool, nowMs: int): Db {
    var id := s.identity;
    var parties := rules.parties(id.sessionId);
    if !live || !IsParty(parties, id.accountId) || id.side != (if parties.p1 == id.accountId then P1 else P2) then db
    else
      match Append(rules.h, RowsOf(db, id.sessionId, id.accountId), s, nowMs)
      case Err(_) => db
      case Ok(a) => db.(commitments := db.commitments[(id.sessionId, id.accountId) := a.rows])
  }

  // ---------------------------------------------------------------- terminal decisions

  /** A decision row is written once; `None` when a different one is stored already. */
  function Enqueue(db: Db, sessionId: string, d: Decision): Option<Db> {
    if sessionId in db.decisions
    then if db.decisions[sessionId].decision == d then Some(db) else None
    else Some(db.(decisions := db.decisions[sessionId := DecisionRow(d, Pending)]))
  }

  predicate Claimable(status: DecisionStatus) {
    status.Pending? || (status.Processing? && !status.live)
  }

  function SetStatus(db: Db, sessionId: string, status: DecisionStatus): Db
    requires sessionId in db.decisions
  {
    db.(decisions := db.decisions[sessionId := db.decisions[sessionId].(status := status)])
  }

  /** Claiming issues a fresh token; an expired claim can be claimed again. */
  function ClaimTx(db: Db, sessionId: string): Db {
    if sessionId !in db.decisions || !Claimable(db.decisions[sessionId].status) then db
    else
      SetStatus(db, sessionId, Processing(db.nextToken, true)).(
        claims := db.claims[db.nextToken := Claim(sessionId, db.decisions[sessionId].decision, None)],
        nextToken := db.nextToken + 1)
  }

  function ExpireLease(db: Db, sessionId: string): Db {
    if sessionId in db.decisions && db.decisions[sessionId].status.Processing?
    then SetStatus(db, sessionId, db.decisions[sessionId].status.(live := false))
    else db
  }

  /** The resolver's transaction for a forfeit; `None` when it rolls back. */
  function ResolveTx(rules: Rules, db: Db, sessionId: string, d: Decision): Option<(Db, Verdicted)>
    requires d.ruling.Forfeited?
  {
    if sessionId in db.resolutions && db.resolutions[sessionId].decision != d then None
    else if sessionId in db.matches then
      var status := if db.matches[sessionId].source.Authoritative? then WasSettled else WasSuperseded;
      Some((db.(resolutions := db.resolutions[sessionId := Resolution(d, status)]), status))
    else if sessionId in db.resolutions && db.resolutions[sessionId].status.WasSuperseded? then
      Some((db, WasSuperseded))
    else
      var m := Match(sessionId, d.parties, Forfeit, AccountOf(d.parties, d.ruling.winner), Authoritative);
      match Settle(rules, db, sessionId, m, d.ruling.winner)
      case None => None
      case Some(settled) =>
        Some((settled.(resolutions := settled.resolutions[sessionId := Resolution(d, WasSettled)]), WasSettled))
  }

  /** A worker runs the resolver and remembers its result; a failure leaves it without one. */
  function Resolve(rules: Rules, db: Db, token: nat): Db {
    if token !in db.claims || db.claims[token].decision.ruling.NoContest? then db
    else
      var c := db.claims[token];
      match ResolveTx(rules, db, c.sessionId, c.decision)
      case None => db
      case Some((after, status)) => after.(claims := after.claims[token := c.(result := Some(status))])
  }

  /** Only the holder of a live claim may mark or release a decision. */
  predicate HoldsClaim(db: Db, sessionId: string, token: nat) {
    sessionId in db.decisions && db.decisions[sessionId].status == Processing(token, true)
  }

  /** The worker marks the decision as its resolution ended; a lost claim changes nothing. */
  function Mark(db: Db, token: nat): Db {
    if token !in db.claims then db
    else
      var c := db.claims[token];
      var done := db.(claims := db.claims - {token});
      if !HoldsClaim(db, c.sessionId, token) then done
      else if c.decision.ruling.NoContest? then SetStatus(done, c.sessionId, Settled(None))
      else if c.result == Some(WasSettled) then SetStatus(done, c.sessionId, Settled(Some(c.sessionId)))
      else if c.result == Some(WasSuperseded) then SetStatus(done, c.sessionId, Superseded)
      else done
  }

  function Retry(db: Db, token: nat): Db {
    if token !in db.claims then db
    else
      var c := db.claims[token];
      var done := db.(claims := db.claims - {token});
      if HoldsClaim(db, c.sessionId, token) then SetStatus(done, c.sessionId, Pending) else done
  }

  // ---------------------------------------------------------------- runs

  datatype Step =
    | AppendCommitment(submission: Submission<Digest>, live: bool, nowMs: int)
    | SubmitResult(request: Request, memory: Memory)
    | EnqueueDecision(sessionId: string, decision: Decision)
    | ClaimDecision(sessionId: string)
    | LoseLease(sessionId: string)
    | ResolveClaim(token: nat)
    | MarkClaim(token: nat)
    | RetryClaim(token: nat)
    | CrashWorker(token: nat)

  /** Decisions are derived from the session, so they name its participants. */
  predicate Possible(rules: Rules, step: Step) {
    step.EnqueueDecision? ==> step.decision.parties == rules.parties(step.sessionId)
  }

  function Next(rules: Rules, db: Db, step: Step): Db {
    match step
    case AppendCommitment(s, live, nowMs) => AppendTx(rules, db, s, live, nowMs)
    case SubmitResult(r, memory) => Submit(rules, db, r, memory).0
    case EnqueueDecision(sessionId, d) => (match Enqueue(db, sessionId, d) case None => db case Some(after) => after)
    case ClaimDecision(sessionId) => ClaimTx(db, sessionId)
    case LoseLease(sessionId) => ExpireLease(db, sessionId)
    case ResolveClaim(token) => Resolve(rules, db, token)
    case MarkClaim(token) => Mark(db, token)
    case RetryClaim(token) => Retry(db, token)
    case CrashWorker(token) => db.(claims := db.claims - {token})
  }

  ghost predicate IsRun(rules: Rules, steps: seq<Step>, states: seq<Db>) {
    && |states| == |steps| + 1 && states[0] == Empty()
    && forall k :: 0 <= k < |steps| ==> Possible(rules, steps[k]) && states[k + 1] == Next(rules, states[k], steps[k])
  }
}
