/**
 The server's side of input commitments: appending a received commitment to the stored chain,
 and checking that a stored chain covers a verified proof.
 */
module CommitmentStore {
  import opened Wrappers
  import opened CommitmentChain

  const MAX_SEQUENCE: nat := 2048

  datatype Stored<D> = Stored(submission: Submission<D>, chainDigest: D, receivedAtMs: int)

  datatype AppendError = InvalidPayload | Conflict

  datatype Appended<D> = Appended(rows: seq<Stored<D>>, row: Stored<D>, existing: bool)

  /** The payload rules every submission and every stored row satisfies. */
  predicate ValidShape<D>(s: Submission<D>) {
    && s.identity.sequence < MAX_SEQUENCE
    && s.identity.startFrame <= s.endFrame < s.identity.startFrame + MAX_FRAMES
  }

  predicate WellShaped<D>(rows: seq<Stored<D>>) {
    forall k :: 0 <= k < |rows| ==> ValidShape(rows[k].submission)
  }

  function Submissions<D>(rows: seq<Stored<D>>): (out: seq<Submission<D>>)
    ensures |out| == |rows| && forall i :: 0 <= i < |rows| ==> out[i] == rows[i].submission
  {
    seq(|rows|, i requires 0 <= i < |rows| => rows[i].submission)
  }

  // ---------------------------------------------------------------- appending

  function Find<D>(rows: seq<Stored<D>>, sequence: nat): (found: Option<Stored<D>>)
    ensures found.Some? ==> found.value in rows && found.value.submission.identity.sequence == sequence
    ensures found.None? ==> forall r :: r in rows ==> r.submission.identity.sequence != sequence
  {
    if rows == [] then None
    else if rows[0].submission.identity.sequence == sequence then Some(rows[0])
    else Find(rows[1..], sequence)
  }

  predicate StartsChain<D>(s: Submission<D>) {
    && s.identity.sequence == 0 && s.identity.epoch == 0 && s.identity.startFrame == 0
    && s.previousChainDigest == None
  }

  predicate ContinuesChain<D(==)>(previous: Stored<D>, s: Submission<D>) {
    && s.identity.sequence == previous.submission.identity.sequence + 1
    && s.previousChainDigest == Some(previous.chainDigest)
    && s.identity.side == previous.submission.identity.side
    && (if previous.submission.identity.roundFinal
        then s.identity.epoch == previous.submission.identity.epoch + 1 && s.identity.startFrame == 0
        else s.identity.epoch == previous.submission.identity.epoch
             && s.identity.startFrame == previous.submission.endFrame + 1)
  }

  /** One append request for the (session, account) pair that `rows` belongs to. */
  function Append<D(==)>(h: Hasher<D>, rows: seq<Stored<D>>, s: Submission<D>, nowMs: int)
    : Result<Appended<D>, AppendError>
  {
    if !ValidShape(s) then Err(InvalidPayload)
    else
      match Find(rows, s.identity.sequence)
      case Some(existing) =>
        if existing.submission == s then Ok(Appended(rows, existing, true)) else Err(Conflict)
      case None =>
        if (if rows == [] then StartsChain(s) else ContinuesChain(rows[|rows| - 1], s))
        then
          var row := Stored(s, h.chain(s), nowMs);
          Ok(Appended(rows + [row], row, false))
        else Err(Conflict)
  }

  /** A stored chain: numbered from zero, every row hash-linked to and contiguous with the last. */
  ghost predicate Chained<D>(h: Hasher<D>, rows: seq<Stored<D>>) {
    && (forall k :: 0 <= k < |rows| ==>
          && rows[k].submission.identity.sequence == k
          && ValidShape(rows[k].submission)
          && rows[k].chainDigest == h.chain(rows[k].submission))
    && (rows != [] ==> StartsChain(rows[0].submission))
    && (forall k :: 0 < k < |rows| ==> ContinuesChain(rows[k - 1], rows[k].submission))
  }

  /** In a chain a sequence number is a position. */
  lemma FindIsLookup<D>(h: Hasher<D>, rows: seq<Stored<D>>, sequence: nat)
    requires Chained(h, rows)
    ensures Find(rows, sequence) == if sequence < |rows| then Some(rows[sequence]) else None
  {
    hide StartsChain, ContinuesChain, ValidShape;
    var found := Find(rows, sequence);
    if found.Some? {
      var k :| 0 <= k < |rows| && rows[k] == found.value;
    } else {
      assert forall k :: 0 <= k < |rows| ==> rows[k] in rows;
    }
  }

  /** Appending keeps the chain, never rewrites a row, and repeats are recognised. */
  lemma AppendKeepsChain<D>(h: Hasher<D>, rows: seq<Stored<D>>, s: Submission<D>, nowMs: int)
    requires Chained(h, rows)
    ensures
      match Append(h, rows, s, nowMs)
      case Err(_) => true
      case Ok(a) =>
        && Chained(h, a.rows) && rows <= a.rows
        && s.identity.sequence < |a.rows|
        && a.rows[s.identity.sequence] == a.row && a.row.submission == s
        && (a.existing <==> s.identity.sequence < |rows|)
  {
    FindIsLookup(h, rows, s.identity.sequence);
  }

  /**
   What a stored chain accepts: a well-shaped repeat of a stored commitment, or one that continues it;
   a new one is stored with the time it was received at.
   */
  lemma AppendAccepts<D>(h: Hasher<D>, rows: seq<Stored<D>>, s: Submission<D>, nowMs: int)
    requires Chained(h, rows)
    ensures
      var appended, n := Append(h, rows, s, nowMs), s.identity.sequence;
      && (appended.Ok? <==>
            ValidShape(s) &&
            if n < |rows| then rows[n].submission == s
            else if rows == [] then StartsChain(s) else ContinuesChain(rows[|rows| - 1], s))
      && (appended.Ok? && n >= |rows| ==>
            n == |rows| && appended.value.rows == rows + [Stored(s, h.chain(s), nowMs)])
      && (appended == Err(InvalidPayload) <==> !ValidShape(s))
  {
    FindIsLookup(h, rows, s.identity.sequence);
  }

  /** A stored chain rejects exactly the evidence that contradicts it: a used sequence number is
      accepted again only with the same content. */
  lemma AppendUsedSequence<D>(h: Hasher<D>, rows: seq<Stored<D>>, s: Submission<D>, nowMs: int)
    requires Chained(h, rows) && s.identity.sequence < |rows|
    ensures
      var stored := rows[s.identity.sequence];
      Append(h, rows, s, nowMs) ==
        (if s == stored.submission then Ok(Appended(rows, stored, true))
         else if ValidShape(s) then Err(Conflict) else Err(InvalidPayload))
  {
    FindIsLookup(h, rows, s.identity.sequence);
    hide StartsChain, ContinuesChain, Find;
  }

  // ---------------------------------------------------------------- coverage of a proof

  datatype Cursor = Cursor(epoch: nat, frame: nat)

  /** Where the next chunk has to start. */
  function After(chunks: seq<Chunk>): Cursor {
    if chunks == [] then Cursor(0, 0) else Advance(chunks[|chunks| - 1])
  }

  function Advance(c: Chunk): Cursor {
    if c.roundFinal then Cursor(c.epoch + 1, 0) else Cursor(c.epoch, c.startFrame + |c.inputs|)
  }

  /** The chunk carries the proof's own frames from the cursor on and marks the round end truly. */
  predicate Fits(rounds: seq<Round>, side: Side, at: Cursor, c: Chunk) {
    && c.epoch == at.epoch < |rounds| && c.startFrame == at.frame
    && c.inputs != []
    && at.frame + |c.inputs| <= |rounds[at.epoch].inputs|
    && c.inputs == Project(rounds[at.epoch].inputs, side)[at.frame..at.frame + |c.inputs|]
    && c.roundFinal == (at.frame + |c.inputs| == |rounds[at.epoch].inputs|)
  }

  ghost predicate FitsAll(rounds: seq<Round>, side: Side, chunks: seq<Chunk>) {
    forall k :: 0 <= k < |chunks| ==> Fits(rounds, side, After(chunks[..k]), chunks[k])
  }

  ghost predicate Covers(rounds: seq<Round>, side: Side, chunks: seq<Chunk>) {
    && chunks != [] && FitsAll(rounds, side, chunks)
    && After(chunks) == Cursor(|rounds|, 0)
  }

  /** The tracks of one side with the rounds numbered by position, as the checker reads them. */
  function NumberedTracks(rounds: seq<Round>, side: Side): (tracks: seq<Track>)
    ensures |tracks| == |rounds|
  {
    seq(|rounds|, i requires 0 <= i < |rounds| => Track(i, Project(rounds[i].inputs, side)))
  }

  /** At a cursor, the chunks so far spell out the finished rounds and the open round's prefix. */
  ghost predicate Reads(rounds: seq<Round>, side: Side, at: Cursor, g: Gathered) {
    && at.epoch <= |rounds|
    && g.done == NumberedTracks(rounds, side)[..at.epoch]
    && (if at.frame == 0 then g.pending == []
        else at.epoch < |rounds| && at.frame <= |rounds[at.epoch].inputs|
             && g.pending == Project(rounds[at.epoch].inputs, side)[..at.frame])
  }

  lemma FitStep(rounds: seq<Round>, side: Side, at: Cursor, c: Chunk, g: Gathered)
    requires Fits(rounds, side, at, c) && Reads(rounds, side, at, g)
    ensures Reads(rounds, side, Advance(c),
                  if c.roundFinal then Gathered(g.done + [Track(c.epoch, g.pending + c.inputs)], [])
                  else Gathered(g.done, g.pending + c.inputs))
  {
    var inputs := Project(rounds[at.epoch].inputs, side);
    assert inputs[..at.frame] + inputs[at.frame..at.frame + |c.inputs|] == inputs[..at.frame + |c.inputs|];
    if c.roundFinal {
      assert inputs[..|inputs|] == inputs;
      var all := NumberedTracks(rounds, side);
      assert all[..at.epoch] + [all[at.epoch]] == all[..at.epoch + 1];
    }
  }

  lemma FitsPrefix(rounds: seq<Round>, side: Side, chunks: seq<Chunk>, n: nat)
    requires FitsAll(rounds, side, chunks) && n <= |chunks|
    ensures FitsAll(rounds, side, chunks[..n])
  {
    forall k | 0 <= k < n ensures Fits(rounds, side, After(chunks[..n][..k]), chunks[..n][k]) {
      assert chunks[..n][..k] == chunks[..k];
      assert Fits(rounds, side, After(chunks[..k]), chunks[k]);
    }
  }

  lemma {:induction false} FitsMeaning(rounds: seq<Round>, side: Side, chunks: seq<Chunk>)
    requires FitsAll(rounds, side, chunks)
    ensures Reads(rounds, side, After(chunks), Gather(chunks))
  {
    if chunks != [] {
      var n := |chunks| - 1;
      FitsPrefix(rounds, side, chunks, n);
      FitsMeaning(rounds, side, chunks[..n]);
      FitStep(rounds, side, After(chunks[..n]), chunks[n], Gather(chunks[..n]));
    }
  }

  /** Chunks that cover a proof, put back together, are that side's inputs of every round. */
  lemma {:induction false} CoverageMeaning(rounds: seq<Round>, side: Side, chunks: seq<Chunk>)
    requires Covers(rounds, side, chunks)
    ensures Gather(chunks) == Gathered(NumberedTracks(rounds, side), [])
  {
    FitsMeaning(rounds, side, chunks);
    var all := NumberedTracks(rounds, side);
    assert all[..|rounds|] == all;
  }

  /** What a stored row claims, read off the proof at the frames the row names. */
  function Claimed<D>(rounds: seq<Round>, side: Side, s: Submission<D>): Chunk {
    var id := s.identity;
    var inputs :=
      if id.epoch < |rounds| && id.startFrame <= s.endFrame < |rounds[id.epoch].inputs|
      then Project(rounds[id.epoch].inputs[id.startFrame..s.endFrame + 1], side)
      else [];
    Chunk(id.epoch, id.startFrame, inputs, id.roundFinal)
  }

  function ClaimedAll<D>(rounds: seq<Round>, side: Side, rows: seq<Stored<D>>): (chunks: seq<Chunk>)
    ensures |chunks| == |rows|
  {
    seq(|rows|, i requires 0 <= i < |rows| => Claimed(rounds, side, rows[i].submission))
  }

  /** The stored rows are the linked announcement of chunks that cover the proof. */
  ghost predicate Attests<D>(h: Hasher<D>, proof: Proof, who: Participant, rows: seq<Stored<D>>) {
    var chunks := ClaimedAll(proof.rounds, who.side, rows);
    && Submissions(rows) == Link(h, who, chunks)
    && Covers(proof.rounds, who.side, chunks)
    && (forall r :: r in rows ==> r.chainDigest == h.chain(r.submission))
  }

  /**
   The same stored chain cannot attest two different timelines: whatever two proofs it covers,
   this side's inputs agree in every round.
   */
  lemma {:induction false} AttestedInputsAreUnique<D(!new)>(
      h: Hasher<D>, who: Participant, rows: seq<Stored<D>>, a: Proof, b: Proof)
    requires Injective(h)
    requires Attests(h, a, who, rows) && Attests(h, b, who, rows)
    ensures NumberedTracks(a.rounds, who.side) == NumberedTracks(b.rounds, who.side)
  {
    LinkBinds(h, who, ClaimedAll(a.rounds, who.side, rows), ClaimedAll(b.rounds, who.side, rows));
    CoverageMeaning(a.rounds, who.side, ClaimedAll(a.rounds, who.side, rows));
    CoverageMeaning(b.rounds, who.side, ClaimedAll(b.rounds, who.side, rows));
  }

  // ---------------------------------------------------------------- the coverage check

  datatype Fault =
    | CommitmentsMissing | IdentityMismatch | ChainInvalid
    | CoverageIncomplete | DigestMismatch | ObservationInsufficient

  datatype Verdict<D> =
    | Verified(finalChainDigest: D, committedFrames: nat)
    | Rejected(fault: Fault)

  const CADENCE_BURST_FRAMES: real := 240.0
  const CADENCE_FRAME_TOLERANCE: real := 0.000001
  const RATIO_EPSILON: real := 0.0000000000000002220446049250313

  function TotalFrames(rounds: seq<Round>): nat {
    if rounds == [] then 0 else TotalFrames(rounds[..|rounds| - 1]) + |rounds[|rounds| - 1].inputs|
  }

  /** The checks on one row before its time of receipt is looked at, in the checker's order. */
  function ContentFault<D(==)>(h: Hasher<D>, proof: Proof, who: Participant, index: nat, at: Cursor,
                               previous: Option<D>, row: Stored<D>): Option<Fault>
    requires ValidShape(row.submission)
  {
    var s := row.submission;
    var id := s.identity;
    if id.sessionId != who.sessionId || id.accountId != who.accountId || id.side != who.side
       || id.sequence != index
    then Some(IdentityMismatch)
    else if id.epoch != at.epoch || id.startFrame != at.frame || s.previousChainDigest != previous
    then Some(CoverageIncomplete)
    else if id.epoch >= |proof.rounds| || s.endFrame >= |proof.rounds[id.epoch].inputs|
    then Some(CoverageIncomplete)
    else if h.chunk(id, Project(proof.rounds[id.epoch].inputs[id.startFrame..s.endFrame + 1], who.side))
            != s.chunkDigest
    then Some(DigestMismatch)
    else if h.chain(s) != row.chainDigest
    then Some(ChainInvalid)
    else None
  }

  /** The last check on one row: its end-of-round mark must be the proof's. */
  predicate TrueBoundary<D>(proof: Proof, s: Submission<D>)
    requires s.identity.epoch < |proof.rounds|
  {
    s.identity.roundFinal == (s.endFrame == |proof.rounds[s.identity.epoch].inputs| - 1)
  }

  /** The first i submissions link the first i claimed chunks. */
  ghost predicate Linked<D>(h: Hasher<D>, who: Participant, claims: seq<Chunk>, sent: seq<Submission<D>>,
                            i: nat, previous: Option<D>)
  {
    && i <= |claims| == |sent|
    && sent[..i] == Link(h, who, claims[..i])
    && previous == FinalDigest(h, sent[..i])
  }

  /** The first i claimed chunks walk the proof from its start to the cursor. */
  ghost predicate Walked(rounds: seq<Round>, side: Side, claims: seq<Chunk>, i: nat, at: Cursor, frames: nat) {
    && i <= |claims|
    && at == After(claims[..i]) && FitsAll(rounds, side, claims[..i])
    && at.epoch <= |rounds|
    && frames == TotalFrames(rounds[..at.epoch]) + at.frame
  }

  lemma LinkedStep<D>(h: Hasher<D>, who: Participant, claims: seq<Chunk>, sent: seq<Submission<D>>,
                      i: nat, previous: Option<D>)
    requires Linked(h, who, claims, sent, i, previous) && i < |claims|
    requires sent[i] == Announce(h, who, i, claims[i], previous)
    ensures Linked(h, who, claims, sent, i + 1, Some(h.chain(sent[i])))
  {
    assert claims[..i + 1] == claims[..i] + [claims[i]];
    assert sent[..i + 1] == sent[..i] + [sent[i]];
    LinkAppend(h, who, claims[..i], claims[i]);
  }

  lemma WalkedStep(rounds: seq<Round>, side: Side, claims: seq<Chunk>, i: nat, at: Cursor, frames: nat)
    requires Walked(rounds, side, claims, i, at, frames) && i < |claims|
    requires Fits(rounds, side, at, claims[i])
    ensures Walked(rounds, side, claims, i + 1, Advance(claims[i]), frames + |claims[i].inputs|)
  {
    assert claims[..i + 1] == claims[..i] + [claims[i]];
    FitsAppend(rounds, side, claims[..i], claims[i]);
    TotalNext(rounds, at.epoch);
  }

  /** Everything the loop has established about the first i rows. */
  ghost predicate Checked<D>(h: Hasher<D>, proof: Proof, who: Participant, rows: seq<Stored<D>>,
                             i: nat, at: Cursor, previous: Option<D>, committedFrames: nat)
  {
    var claims := ClaimedAll(proof.rounds, who.side, rows);
    && Linked(h, who, claims, Submissions(rows), i, previous)
    && Walked(proof.rounds, who.side, claims, i, at, committedFrames)
    && (forall k :: 0 <= k < i ==> rows[k].chainDigest == h.chain(rows[k].submission))
  }

  lemma ClaimedFits<D>(h: Hasher<D>, proof: Proof, who: Participant, index: nat, at: Cursor,
                       previous: Option<D>, row: Stored<D>)
    requires ValidShape(row.submission)
    requires ContentFault(h, proof, who, index, at, previous, row) == None
    requires TrueBoundary(proof, row.submission)
    ensures
      var c := Claimed(proof.rounds, who.side, row.submission);
      && Fits(proof.rounds, who.side, at, c)
      && row.submission == Announce(h, who, index, c, previous)
      && |c.inputs| == row.submission.endFrame - row.submission.identity.startFrame + 1
  {
    var s := row.submission;
    ProjectSlice(proof.rounds[s.identity.epoch].inputs, who.side, s.identity.startFrame, s.endFrame + 1);
  }

  lemma FitsAppend(rounds: seq<Round>, side: Side, chunks: seq<Chunk>, c: Chunk)
    requires FitsAll(rounds, side, chunks) && Fits(rounds, side, After(chunks), c)
    ensures FitsAll(rounds, side, chunks + [c])
  {
    var longer := chunks + [c];
    forall k | 0 <= k < |longer| ensures Fits(rounds, side, After(longer[..k]), longer[k]) {
      if k < |chunks| {
        assert longer[..k] == chunks[..k];
        assert Fits(rounds, side, After(chunks[..k]), chunks[k]);
      } else {
        assert longer[..k] == chunks;
      }
    }
  }

  lemma CheckedStep<D>(h: Hasher<D>, proof: Proof, who: Participant, rows: seq<Stored<D>>,
                       i: nat, at: Cursor, previous: Option<D>, committedFrames: nat)
    requires Checked(h, proof, who, rows, i, at, previous, committedFrames) && i < |rows|
    requires ValidShape(rows[i].submission)
    requires ContentFault(h, proof, who, i, at, previous, rows[i]) == None
    requires TrueBoundary(proof, rows[i].submission)
    ensures
      var s := rows[i].submission;
      Checked(h, proof, who, rows, i + 1,
              if s.identity.roundFinal then Cursor(at.epoch + 1, 0) else Cursor(at.epoch, s.endFrame + 1),
              Some(rows[i].chainDigest), committedFrames + (s.endFrame - s.identity.startFrame + 1))
  {
    var claims := ClaimedAll(proof.rounds, who.side, rows);
    ClaimedFits(h, proof, who, i, at, previous, rows[i]);
    LinkedStep(h, who, claims, Submissions(rows), i, previous);
    WalkedStep(proof.rounds, who.side, claims, i, at, committedFrames);
  }

  lemma TotalNext(rounds: seq<Round>, epoch: nat)
    requires epoch < |rounds|
    ensures TotalFrames(rounds[..epoch + 1]) == TotalFrames(rounds[..epoch]) + |rounds[epoch].inputs|
  {
    assert rounds[..epoch + 1][..epoch] == rounds[..epoch];
  }

  lemma FittingHasNoFault<D>(h: Hasher<D>, proof: Proof, who: Participant, index: nat, at: Cursor,
                             previous: Option<D>, row: Stored<D>)
    requires ValidShape(row.submission)
    requires
      var c := Claimed(proof.rounds, who.side, row.submission);
      && Fits(proof.rounds, who.side, at, c)
      && row.submission == Announce(h, who, index, c, previous)
    requires row.chainDigest == h.chain(row.submission)
    ensures ContentFault(h, proof, who, index, at, previous, row) == None
    ensures TrueBoundary(proof, row.submission)
  {
  }

  /** Any fault in the loop refutes attestation. */
  lemma FaultRefutes<D>(h: Hasher<D>, proof: Proof, who: Participant, rows: seq<Stored<D>>,
                        i: nat, at: Cursor, previous: Option<D>, committedFrames: nat)
    requires Checked(h, proof, who, rows, i, at, previous, committedFrames) && i < |rows|
    requires ValidShape(rows[i].submission)
    requires Attests(h, proof, who, rows)
    ensures ContentFault(h, proof, who, i, at, previous, rows[i]) == None
    ensures TrueBoundary(proof, rows[i].submission)
  {
    var claims := ClaimedAll(proof.rounds, who.side, rows);
    assert Fits(proof.rounds, who.side, After(claims[..i]), claims[i]);
    LinkPrefix(h, who, claims, i);
    assert rows[i] in rows && rows[i].submission == Submissions(rows)[i];
    FittingHasNoFault(h, proof, who, i, at, previous, rows[i]);
  }

  lemma CheckedEnd<D>(h: Hasher<D>, proof: Proof, who: Participant, rows: seq<Stored<D>>,
                      at: Cursor, previous: Option<D>, committedFrames: nat)
    requires Checked(h, proof, who, rows, |rows|, at, previous, committedFrames) && rows != []
    ensures Attests(h, proof, who, rows) <==>
            at == Cursor(|proof.rounds|, 0) && committedFrames == TotalFrames(proof.rounds)
  {
    var claims := ClaimedAll(proof.rounds, who.side, rows);
    assert claims[..|rows|] == claims && Submissions(rows)[..|rows|] == Submissions(rows);
    assert proof.rounds[..|proof.rounds|] == proof.rounds;
  }

  ghost predicate OrderedTo<D>(rows: seq<Stored<D>>, i: nat) {
    i <= |rows| && forall k :: 0 < k < i ==> rows[k - 1].receivedAtMs <= rows[k].receivedAtMs
  }

  ghost predicate Ordered<D>(rows: seq<Stored<D>>) { OrderedTo(rows, |rows|) }

  /** The required observation rate and the duration of one frame. */
  datatype Policy = Policy(minimumRatio: real, fixedDtMs: real) {
    predicate Valid() { 0.0 <= minimumRatio <= 1.0 && fixedDtMs > 0.0 }
  }

  /** The frame allowance after some time without a commitment, capped at the burst size. */
  function Replenish(available: real, elapsedMs: int, policy: Policy): real {
    var perFrame := policy.fixedDtMs * policy.minimumRatio;
    MinReal(CADENCE_BURST_FRAMES, if perFrame > 0.0 then available + elapsedMs as real / perFrame else available)
  }

  function Spend(available: real, frames: nat): real {
    if available > frames as real then available - frames as real else 0.0
  }

  /** The frames allowed when row i arrives, with no more than `available` left from before. */
  function Allowance<D>(rows: seq<Stored<D>>, i: nat, policy: Policy, available: real): real
    requires i < |rows|
  {
    var elapsedMs := if i == 0 then 0 else rows[i].receivedAtMs - rows[i - 1].receivedAtMs;
    if policy.minimumRatio > 0.0 then Replenish(available, elapsedMs, policy) else available
  }

  /** A row announces more frames than can have been observed since the rows before it. */
  predicate TooFast(policy: Policy, frames: nat, allowance: real) {
    policy.minimumRatio > 0.0 && frames as real > allowance + CADENCE_FRAME_TOLERANCE
  }

  function Remaining(policy: Policy, frames: nat, allowance: real): real {
    if policy.minimumRatio > 0.0 then Spend(allowance, frames) else allowance
  }

  /** The allowance after the first i rows, from sizes and times of receipt alone; `None` once a row was too fast. */
  function Cadence<D>(rows: seq<Stored<D>>, i: nat, policy: Policy): Option<real>
    requires i <= |rows| && WellShaped(rows)
  {
    if i == 0 then Some(CADENCE_BURST_FRAMES)
    else
      match Cadence(rows, i - 1, policy)
      case None => None
      case Some(available) =>
        var allowance := Allowance(rows, i - 1, policy, available);
        var frames := FramesOf(rows[i - 1].submission);
        if TooFast(policy, frames, allowance) then None else Some(Remaining(policy, frames, allowance))
  }

  /** What the checker remembers between rows. */
  datatype Scan<D> = Scan(at: Cursor, previous: Option<D>, committedFrames: nat, available: real)

  function FramesOf<D>(s: Submission<D>): nat
    requires ValidShape(s)
  {
    s.endFrame - s.identity.startFrame + 1
  }

  /** One turn of the checker's loop. */
  function ScanRow<D(==)>(h: Hasher<D>, proof: Proof, who: Participant, rows: seq<Stored<D>>, i: nat,
                          policy: Policy, scan: Scan<D>): Result<Scan<D>, Fault>
    requires i < |rows| && ValidShape(rows[i].submission)
  {
    var s := rows[i].submission;
    var fault := ContentFault(h, proof, who, i, scan.at, scan.previous, rows[i]);
    if fault.Some? then Err(fault.value)
    else if i > 0 && rows[i].receivedAtMs < rows[i - 1].receivedAtMs then Err(ChainInvalid)
    else
      var allowance := Allowance(rows, i, policy, scan.available);
      if TooFast(policy, FramesOf(s), allowance) then Err(ObservationInsufficient)
      else if !TrueBoundary(proof, s) then Err(CoverageIncomplete)
      else Ok(Scan(
        if s.identity.roundFinal then Cursor(scan.at.epoch + 1, 0) else Cursor(scan.at.epoch, s.endFrame + 1),
        Some(rows[i].chainDigest),
        scan.committedFrames + FramesOf(s),
        Remaining(policy, FramesOf(s), allowance)))
  }

  /** The checker after the first i rows, or the first fault it met. */
  function ScanTo<D(==)>(h: Hasher<D>, proof: Proof, who: Participant, rows: seq<Stored<D>>, i: nat,
                         policy: Policy): Result<Scan<D>, Fault>
    requires i <= |rows| && WellShaped(rows)
  {
    if i == 0 then Ok(Scan(Cursor(0, 0), None, 0, CADENCE_BURST_FRAMES))
    else
      match ScanTo(h, proof, who, rows, i - 1, policy)
      case Err(fault) => Err(fault)
      case Ok(scan) => ScanRow(h, proof, who, rows, i - 1, policy, scan)
  }

  /** The observation ratio of the whole chain reaches the required minimum. */
  predicate ObservedEnough<D>(rows: seq<Stored<D>>, committedFrames: int, policy: Policy)
    requires rows != [] && ValidShape(rows[0].submission)
  {
    var observed := (rows[|rows| - 1].receivedAtMs - rows[0].receivedAtMs) as real;
    var observable := (committedFrames - FramesOf(rows[0].submission)) as real * policy.fixedDtMs;
    var ratio :=
      if observable <= 0.0 then (if |rows| > 1 then 1.0 else 0.0)
      else MinReal(1.0, (if observed > 0.0 then observed else 0.0) / observable);
    ratio + RATIO_EPSILON >= policy.minimumRatio
  }

  function Judge<D(==)>(h: Hasher<D>, proof: Proof, who: Participant, rows: seq<Stored<D>>, policy: Policy)
    : Verdict<D>
    requires WellShaped(rows)
  {
    if rows == [] then Rejected(CommitmentsMissing)
    else
      match ScanTo(h, proof, who, rows, |rows|, policy)
      case Err(fault) => Rejected(fault)
      case Ok(scan) =>
        if scan.at != Cursor(|proof.rounds|, 0) || scan.committedFrames != TotalFrames(proof.rounds)
        then Rejected(CoverageIncomplete)
        else if !ObservedEnough(rows, scan.committedFrames, policy) then Rejected(ObservationInsufficient)
        else Verified(rows[|rows| - 1].chainDigest, scan.committedFrames)
  }

  /** `Checked` for a scan state, with the rows so far in order of receipt. */
  ghost predicate Good<D>(h: Hasher<D>, proof: Proof, who: Participant, rows: seq<Stored<D>>, i: nat, scan: Scan<D>) {
    && Checked(h, proof, who, rows, i, scan.at, scan.previous, scan.committedFrames)
    && OrderedTo(rows, i)
  }

  lemma ScanRowChecks<D>(h: Hasher<D>, proof: Proof, who: Participant, rows: seq<Stored<D>>, i: nat,
                         policy: Policy, scan: Scan<D>, next: Scan<D>)
    requires i < |rows| && ValidShape(rows[i].submission) && Good(h, proof, who, rows, i, scan)
    requires ScanRow(h, proof, who, rows, i, policy, scan) == Ok(next)
    ensures Good(h, proof, who, rows, i + 1, next)
  {
    CheckedStep(h, proof, who, rows, i, scan.at, scan.previous, scan.committedFrames);
  }

  lemma AttestedRow<D>(h: Hasher<D>, proof: Proof, who: Participant, rows: seq<Stored<D>>, i: nat,
                       policy: Policy, scan: Scan<D>)
    requires i < |rows| && ValidShape(rows[i].submission) && Good(h, proof, who, rows, i, scan)
    requires Attests(h, proof, who, rows) && Ordered(rows)
    requires !TooFast(policy, FramesOf(rows[i].submission), Allowance(rows, i, policy, scan.available))
    ensures ScanRow(h, proof, who, rows, i, policy, scan).Ok?
  {
    FaultRefutes(h, proof, who, rows, i, scan.at, scan.previous, scan.committedFrames);
  }

  lemma NothingChecked<D>(h: Hasher<D>, proof: Proof, who: Participant, rows: seq<Stored<D>>)
    ensures Good(h, proof, who, rows, 0, Scan(Cursor(0, 0), None, 0, CADENCE_BURST_FRAMES))
  {
  }

  lemma {:induction false} ScanChecks<D>(h: Hasher<D>, proof: Proof, who: Participant, rows: seq<Stored<D>>,
                                         i: nat, policy: Policy, scan: Scan<D>)
    requires i <= |rows| && WellShaped(rows)
    requires ScanTo(h, proof, who, rows, i, policy) == Ok(scan)
    ensures Good(h, proof, who, rows, i, scan)
  {
    hide Good, ScanRow, ValidShape;
    if i > 0 {
      var before := ScanTo(h, proof, who, rows, i - 1, policy).value;
      ScanChecks(h, proof, who, rows, i - 1, policy, before);
      ScanRowChecks(h, proof, who, rows, i - 1, policy, before, scan);
    } else {
      NothingChecked(h, proof, who, rows);
    }
  }

  /** The checker's allowance is the cadence of the rows. */
  lemma {:induction false} ScanCadence<D>(h: Hasher<D>, proof: Proof, who: Participant, rows: seq<Stored<D>>,
                                          i: nat, policy: Policy, scan: Scan<D>)
    requires i <= |rows| && WellShaped(rows)
    requires ScanTo(h, proof, who, rows, i, policy) == Ok(scan)
    ensures Cadence(rows, i, policy) == Some(scan.available)
  {
    if i > 0 {
      hide ContentFault, TrueBoundary, ValidShape, Allowance, TooFast, Remaining;
      ScanCadence(h, proof, who, rows, i - 1, policy, ScanTo(h, proof, who, rows, i - 1, policy).value);
    }
  }

  lemma {:induction false} AttestedScans<D>(h: Hasher<D>, proof: Proof, who: Participant, rows: seq<Stored<D>>,
                                            i: nat, policy: Policy)
    requires i <= |rows| && WellShaped(rows)
    requires Attests(h, proof, who, rows) && Ordered(rows) && Cadence(rows, i, policy).Some?
    ensures ScanTo(h, proof, who, rows, i, policy).Ok?
  {
    hide ScanRow, Attests, Good, Ordered, ValidShape, Allowance, TooFast, Remaining;
    if i > 0 {
      AttestedScans(h, proof, who, rows, i - 1, policy);
      var before := ScanTo(h, proof, who, rows, i - 1, policy).value;
      ScanChecks(h, proof, who, rows, i - 1, policy, before);
      ScanCadence(h, proof, who, rows, i - 1, policy, before);
      AttestedRow(h, proof, who, rows, i - 1, policy, before);
    }
  }

  /** A verified verdict always means the stored rows attest the proof in order of receipt. */
  lemma VerdictIsSound<D>(h: Hasher<D>, proof: Proof, who: Participant, rows: seq<Stored<D>>, policy: Policy)
    requires WellShaped(rows)
    ensures Judge(h, proof, who, rows, policy).Verified? ==> Attests(h, proof, who, rows) && Ordered(rows)
  {
    if Judge(h, proof, who, rows, policy).Verified? {
      var scan := ScanTo(h, proof, who, rows, |rows|, policy).value;
      ScanChecks(h, proof, who, rows, |rows|, policy, scan);
      CheckedEnd(h, proof, who, rows, scan.at, scan.previous, scan.committedFrames);
    }
  }

  /** Frames and times of receipt meet the policy: no row too fast, and enough observed in all. */
  predicate Observed<D>(rows: seq<Stored<D>>, totalFrames: nat, policy: Policy)
    requires rows != [] && WellShaped(rows)
  {
    Cadence(rows, |rows|, policy).Some? && ObservedEnough(rows, totalFrames, policy)
  }

  /** The verdict is verified exactly for attesting rows in order of receipt that meet the observation policy. */
  lemma VerdictIsExact<D>(h: Hasher<D>, proof: Proof, who: Participant, rows: seq<Stored<D>>, policy: Policy)
    requires policy.Valid() && rows != [] && WellShaped(rows)
    ensures Judge(h, proof, who, rows, policy).Verified? <==>
            Attests(h, proof, who, rows) && Ordered(rows) && Observed(rows, TotalFrames(proof.rounds), policy)
  {
    VerdictIsSound(h, proof, who, rows, policy);
    hide ScanRow, ValidShape, Attests, Ordered, ObservedEnough, Cadence;
    if Judge(h, proof, who, rows, policy).Verified? {
      ScanCadence(h, proof, who, rows, |rows|, policy, ScanTo(h, proof, who, rows, |rows|, policy).value);
    } else if Attests(h, proof, who, rows) && Ordered(rows) && Observed(rows, TotalFrames(proof.rounds), policy) {
      AttestedScans(h, proof, who, rows, |rows|, policy);
      var scan := ScanTo(h, proof, who, rows, |rows|, policy).value;
      ScanChecks(h, proof, who, rows, |rows|, policy, scan);
      CheckedEnd(h, proof, who, rows, scan.at, scan.previous, scan.committedFrames);
    }
  }

  /** Without a minimum ratio every row is in time. */
  lemma {:induction false} NoMinimumKeepsCadence<D>(rows: seq<Stored<D>>, i: nat, policy: Policy)
    requires i <= |rows| && WellShaped(rows)
    requires policy.minimumRatio == 0.0
    ensures Cadence(rows, i, policy).Some?
  {
    if i > 0 { NoMinimumKeepsCadence(rows, i - 1, policy); }
  }

  /** The server's coverage check, as a loop over the stored rows. */
  method VerifyCoverage<D(==)>(h: Hasher<D>, proof: Proof, who: Participant, rows: seq<Stored<D>>, policy: Policy)
    returns (v: Verdict<D>)
    requires WellShaped(rows)
    requires policy.Valid()
    ensures v == Judge(h, proof, who, rows, policy)
    ensures v.Verified? ==> Attests(h, proof, who, rows) && Ordered(rows)
  {
    hide Attests, Ordered, ScanRow, ValidShape, ObservedEnough;
    VerdictIsSound(h, proof, who, rows, policy);
    if |rows| == 0 {
      return Rejected(CommitmentsMissing);
    }
    var scan := Scan(Cursor(0, 0), None, 0, CADENCE_BURST_FRAMES);
    var i := 0;
    while i < |rows|
      invariant 0 <= i <= |rows|
      invariant ScanTo(h, proof, who, rows, i, policy) == Ok(scan)
    {
      var next := ScanRow(h, proof, who, rows, i, policy, scan);
      if next.Err? {
        FaultStays(h, proof, who, rows, i + 1, |rows|, policy);
        return Rejected(next.error);
      }
      scan := next.value;
      i := i + 1;
    }
    if scan.at != Cursor(|proof.rounds|, 0) || scan.committedFrames != TotalFrames(proof.rounds) {
      return Rejected(CoverageIncomplete);
    }
    if !ObservedEnough(rows, scan.committedFrames, policy) {
      return Rejected(ObservationInsufficient);
    }
    return Verified(rows[|rows| - 1].chainDigest, scan.committedFrames);
  }

  lemma {:induction false} FaultStays<D>(h: Hasher<D>, proof: Proof, who: Participant, rows: seq<Stored<D>>,
                                         i: nat, j: nat, policy: Policy)
    requires i <= j <= |rows| && WellShaped(rows)
    requires ScanTo(h, proof, who, rows, i, policy).Err?
    ensures ScanTo(h, proof, who, rows, j, policy) == ScanTo(h, proof, who, rows, i, policy)
  {
    if i < j { FaultStays(h, proof, who, rows, i, j - 1, policy); }
  }
}
