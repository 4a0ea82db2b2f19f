/**
 The whole life of a commitment chain: built from a proof, appended row by row to the store,
 and judged against the proof.
 */
module CommitmentRoundTrip {
  import opened Wrappers
  import opened CommitmentChain
  import opened CommitmentPacing
  import opened CommitmentStore

  /** Rounds carry their position as epoch and at least one frame. */
  ghost predicate WellNumbered(rounds: seq<Round>) {
    forall i :: 0 <= i < |rounds| ==> rounds[i].epoch == i && rounds[i].inputs != []
  }

  lemma ChunkFits(rounds: seq<Round>, side: Side, e: nat, k: nat)
    requires WellNumbered(rounds) && e < |rounds| && k < |RoundLayout(rounds[e], side)|
    ensures
      var layout := RoundLayout(rounds[e], side);
      && Fits(rounds, side, Cursor(e, k * MAX_FRAMES), layout[k])
      && Advance(layout[k]) == (if k + 1 == |layout| then Cursor(e + 1, 0) else Cursor(e, (k + 1) * MAX_FRAMES))
  {
    ChunkAtShape(Track(rounds[e].epoch, Project(rounds[e].inputs, side)), k);
  }

  lemma {:induction false} TrackWalks(rounds: seq<Round>, side: Side, e: nat, before: seq<Chunk>, k: nat)
    requires WellNumbered(rounds) && e < |rounds|
    requires FitsAll(rounds, side, before) && After(before) == Cursor(e, 0)
    requires k <= |RoundLayout(rounds[e], side)| && 0 < |RoundLayout(rounds[e], side)|
    ensures
      var layout := RoundLayout(rounds[e], side);
      && FitsAll(rounds, side, before + layout[..k])
      && After(before + layout[..k]) == (if k == |layout| then Cursor(e + 1, 0) else Cursor(e, k * MAX_FRAMES))
  {
    var layout := RoundLayout(rounds[e], side);
    if k == 0 {
      assert before + layout[..0] == before;
    } else {
      TrackWalks(rounds, side, e, before, k - 1);
      ChunkFits(rounds, side, e, k - 1);
      FitsAppend(rounds, side, before + layout[..k - 1], layout[k - 1]);
      AppendNext(before, layout, k - 1);
    }
  }

  lemma NothingFits(rounds: seq<Round>, side: Side)
    ensures FitsAll(rounds, side, [])
  {
  }

  lemma {:induction false} LayoutWalks(rounds: seq<Round>, side: Side, n: nat)
    requires WellNumbered(rounds) && n <= |rounds|
    ensures
      var chunks := Layout(Tracks(rounds[..n], side));
      && FitsAll(rounds, side, chunks) && After(chunks) == Cursor(n, 0)
      && (n > 0 ==> chunks != [])
  {
    hide FitsAll, LayoutTrack, Project;
    if n == 0 {
      assert FitsAll(rounds, side, []) by { NothingFits(rounds, side); }
    } else {
      LayoutWalks(rounds, side, n - 1);
      var before := Layout(Tracks(rounds[..n - 1], side));
      var layout := RoundLayout(rounds[n - 1], side);
      LayoutTrackShape(Track(rounds[n - 1].epoch, Project(rounds[n - 1].inputs, side)));
      TrackWalks(rounds, side, n - 1, before, |layout|);
      assert layout[..|layout|] == layout;
      TracksPrefix(rounds, side, n - 1);
      LayoutAppend(Tracks(rounds[..n - 1], side), Track(rounds[n - 1].epoch, Project(rounds[n - 1].inputs, side)));
    }
  }

  /** The chunks of a well-numbered proof cover it. */
  lemma LayoutCovers(rounds: seq<Round>, side: Side)
    requires WellNumbered(rounds) && rounds != []
    ensures Covers(rounds, side, Layout(Tracks(rounds, side)))
  {
    LayoutWalks(rounds, side, |rounds|);
    assert rounds[..|rounds|] == rounds;
  }

  lemma {:induction false} TracksOfNumbered(rounds: seq<Round>, side: Side)
    requires |Tracks(rounds, side)| == |rounds|
    ensures forall i :: 0 <= i < |rounds| ==>
      rounds[i].inputs != [] && Tracks(rounds, side)[i].epoch == rounds[i].epoch
  {
    if rounds != [] {
      var n := |rounds| - 1;
      TracksAtMost(rounds[..n], side);
      TracksOfNumbered(rounds[..n], side);
      assert forall i :: 0 <= i < n ==> rounds[..n][i] == rounds[i];
    }
  }

  lemma {:induction false} TracksAtMost(rounds: seq<Round>, side: Side)
    ensures |Tracks(rounds, side)| <= |rounds|
  {
    if rounds != [] { TracksAtMost(rounds[..|rounds| - 1], side); }
  }

  /** Rows that hold exactly the built commitments, with the digests the server computes. */
  ghost predicate HoldsBuilt<D>(h: Hasher<D>, proof: Proof, who: Participant, rows: seq<Stored<D>>) {
    && Submissions(rows) == BuildSpec(h, who, proof.rounds)
    && (forall r :: r in rows ==> r.chainDigest == h.chain(r.submission))
  }

  lemma ClaimOfFitting<D>(h: Hasher<D>, who: Participant, rounds: seq<Round>, at: Cursor, c: Chunk,
                          k: nat, previous: Option<D>)
    requires Fits(rounds, who.side, at, c)
    ensures Claimed(rounds, who.side, Announce(h, who, k, c, previous)) == c
  {
    ProjectSlice(rounds[c.epoch].inputs, who.side, c.startFrame, c.startFrame + |c.inputs|);
  }

  lemma ClaimsOfBuilt<D>(h: Hasher<D>, who: Participant, proof: Proof, rows: seq<Stored<D>>)
    requires WellNumbered(proof.rounds) && proof.rounds != []
    requires HoldsBuilt(h, proof, who, rows)
    ensures ClaimedAll(proof.rounds, who.side, rows) == Layout(Tracks(proof.rounds, who.side))
  {
    var chunks := Layout(Tracks(proof.rounds, who.side));
    LayoutCovers(proof.rounds, who.side);
    assert |rows| == |chunks| by { assert |Submissions(rows)| == |chunks|; }
    forall k | 0 <= k < |chunks|
      ensures Claimed(proof.rounds, who.side, rows[k].submission) == chunks[k]
    {
      LinkPrefix(h, who, chunks, k);
      assert rows[k].submission == Submissions(rows)[k];
      ClaimOfFitting(h, who, proof.rounds, After(chunks[..k]), chunks[k], k,
                     FinalDigest(h, Link(h, who, chunks[..k])));
    }
  }

  lemma BuiltChainCovers<D>(h: Hasher<D>, who: Participant, proof: Proof, rows: seq<Stored<D>>)
    requires HoldsBuilt(h, proof, who, rows)
    requires WellNumbered(proof.rounds) && proof.rounds != []
    ensures Attests(h, proof, who, rows)
  {
    ClaimsOfBuilt(h, who, proof, rows);
    LayoutCovers(proof.rounds, who.side);
  }

  lemma AttestedIsNumbered<D(!new)>(h: Hasher<D>, who: Participant, proof: Proof, rows: seq<Stored<D>>)
    requires Injective(h) && Submissions(rows) == BuildSpec(h, who, proof.rounds)
    requires Attests(h, proof, who, rows)
    ensures Tracks(proof.rounds, who.side) == NumberedTracks(proof.rounds, who.side) && proof.rounds != []
  {
    var tracks := Tracks(proof.rounds, who.side);
    var claims := ClaimedAll(proof.rounds, who.side, rows);
    LinkBinds(h, who, claims, Layout(tracks));
    CoverageMeaning(proof.rounds, who.side, claims);
    TracksNonEmpty(proof.rounds, who.side);
    LayoutRoundTrip(tracks);
    assert Fits(proof.rounds, who.side, After(claims[..0]), claims[0]);
  }

  /**
   A built chain attests its own proof exactly when the proof has rounds, every round has
   frames, and epochs count from zero.
   */
  lemma BuiltChainAttests<D(!new)>(h: Hasher<D>, who: Participant, proof: Proof, rows: seq<Stored<D>>)
    requires Injective(h) && HoldsBuilt(h, proof, who, rows)
    ensures Attests(h, proof, who, rows) <==> WellNumbered(proof.rounds) && proof.rounds != []
  {
    hide Attests, Tracks;
    if Attests(h, proof, who, rows) {
      AttestedIsNumbered(h, who, proof, rows);
      TracksOfNumbered(proof.rounds, who.side);
    } else if WellNumbered(proof.rounds) && proof.rounds != [] {
      BuiltChainCovers(h, who, proof, rows);
    }
  }

  // ---------------------------------------------------------------- storing a built chain

  /** Appending submissions one by one to an empty store; `None` when one is refused. */
  function StoreAll<D(==)>(h: Hasher<D>, submissions: seq<Submission<D>>, clock: nat -> int): Option<seq<Stored<D>>> {
    if submissions == [] then Some([])
    else
      var n := |submissions| - 1;
      match StoreAll(h, submissions[..n], clock)
      case None => None
      case Some(rows) =>
        match Append(h, rows, submissions[n], clock(n))
        case Err(_) => None
        case Ok(a) => Some(a.rows)
  }

  /** The rows a successful upload leaves behind. */
  function RowsOf<D>(h: Hasher<D>, submissions: seq<Submission<D>>, clock: nat -> int): (rows: seq<Stored<D>>)
    ensures |rows| == |submissions|
  {
    seq(|submissions|, k requires 0 <= k < |submissions| => Stored(submissions[k], h.chain(submissions[k]), clock(k)))
  }

  lemma NothingStoredAt<D>(h: Hasher<D>, who: Participant, chunks: seq<Chunk>, rows: seq<Stored<D>>)
    requires Submissions(rows) == Link(h, who, chunks)
    ensures Find(rows, |chunks|) == None
  {
    forall j | 0 <= j < |rows| ensures rows[j].submission.identity.sequence != |chunks| {
      LinkAt(h, who, chunks, j);
    }
  }

  lemma FirstStarts<D>(h: Hasher<D>, who: Participant, rounds: seq<Round>, chunks: seq<Chunk>)
    requires FitsAll(rounds, who.side, chunks) && chunks != [] && |chunks[0].inputs| <= MAX_FRAMES
    ensures StartsChain(Link(h, who, chunks)[0]) && ValidShape(Link(h, who, chunks)[0])
  {
    LinkAt(h, who, chunks, 0);
    assert Fits(rounds, who.side, After(chunks[..0]), chunks[0]);
  }

  lemma NextFits(rounds: seq<Round>, side: Side, chunks: seq<Chunk>, k: nat)
    requires FitsAll(rounds, side, chunks) && 0 < k < |chunks|
    ensures
      var at := Advance(chunks[k - 1]);
      chunks[k].epoch == at.epoch && chunks[k].startFrame == at.frame && chunks[k].inputs != []
  {
    var previous := chunks[..k];
    assert Fits(rounds, side, After(previous), chunks[k]);
    assert previous[k - 1] == chunks[k - 1];
  }

  /** A later commitment continues the row of its predecessor, whenever that was received. */
  lemma NextContinues<D>(h: Hasher<D>, who: Participant, rounds: seq<Round>, chunks: seq<Chunk>, k: nat, at: int)
    requires FitsAll(rounds, who.side, chunks) && 0 < k < |chunks| <= MAX_SEQUENCE
    requires |chunks[k].inputs| <= MAX_FRAMES
    ensures
      var sent := Link(h, who, chunks);
      && ValidShape(sent[k])
      && ContinuesChain(Stored(sent[k - 1], h.chain(sent[k - 1]), at), sent[k])
  {
    hide FitsAll, Fits, Link, After, Project;
    NextFits(rounds, who.side, chunks, k);
    LinkAt(h, who, chunks, k);
    LinkAt(h, who, chunks, k - 1);
  }

  lemma RowsGrow<D>(h: Hasher<D>, sent: seq<Submission<D>>, k: nat, clock: nat -> int)
    requires k < |sent|
    ensures
      RowsOf(h, sent[..k], clock) + [Stored(sent[k], h.chain(sent[k]), clock(k))] == RowsOf(h, sent[..k + 1], clock)
    ensures Submissions(RowsOf(h, sent[..k], clock)) == sent[..k]
  {
  }

  lemma NextIsAccepted<D>(h: Hasher<D>, who: Participant, rounds: seq<Round>, chunks: seq<Chunk>, k: nat,
                          clock: nat -> int)
    requires FitsAll(rounds, who.side, chunks) && k < |chunks| <= MAX_SEQUENCE
    requires |chunks[k].inputs| <= MAX_FRAMES
    ensures
      var sent := Link(h, who, chunks);
      var row := Stored(sent[k], h.chain(sent[k]), clock(k));
      Append(h, RowsOf(h, sent[..k], clock), sent[k], clock(k)) ==
        Ok(Appended(RowsOf(h, sent[..k + 1], clock), row, false))
  {
    var sent := Link(h, who, chunks);
    var rows := RowsOf(h, sent[..k], clock);
    RowsGrow(h, sent, k, clock);
    LinkPrefix(h, who, chunks, k);
    NothingStoredAt(h, who, chunks[..k], rows);
    if k == 0 {
      FirstStarts(h, who, rounds, chunks);
    } else {
      NextContinues(h, who, rounds, chunks, k, clock(k - 1));
      assert rows[k - 1] == Stored(sent[k - 1], h.chain(sent[k - 1]), clock(k - 1));
    }
  }

  lemma {:induction false} StoringSucceeds<D>(h: Hasher<D>, who: Participant, rounds: seq<Round>,
                                              chunks: seq<Chunk>, k: nat, clock: nat -> int)
    requires FitsAll(rounds, who.side, chunks) && k <= |chunks| <= MAX_SEQUENCE
    requires forall c :: c in chunks ==> |c.inputs| <= MAX_FRAMES
    ensures
      var sent := Link(h, who, chunks)[..k];
      StoreAll(h, sent, clock) == Some(RowsOf(h, sent, clock))
  {
    if k > 0 {
      StoringSucceeds(h, who, rounds, chunks, k - 1, clock);
      NextIsAccepted(h, who, rounds, chunks, k - 1, clock);
      var sent := Link(h, who, chunks);
      assert sent[..k][..k - 1] == sent[..k - 1];
    }
  }

  lemma LayoutSizes(rounds: seq<Round>, side: Side)
    ensures forall c :: c in Layout(Tracks(rounds, side)) ==> |c.inputs| <= MAX_FRAMES
  {
    TracksNonEmpty(rounds, side);
    LayoutIsTiled(Tracks(rounds, side));
  }

  lemma WellShapedRows<D>(h: Hasher<D>, who: Participant, rounds: seq<Round>, chunks: seq<Chunk>, clock: nat -> int)
    requires FitsAll(rounds, who.side, chunks) && |chunks| <= MAX_SEQUENCE
    requires forall c :: c in chunks ==> |c.inputs| <= MAX_FRAMES
    ensures forall r :: r in RowsOf(h, Link(h, who, chunks), clock) ==> ValidShape(r.submission)
  {
    hide FitsAll, Fits, ValidShape, Link, StartsChain, ContinuesChain;
    var sent := Link(h, who, chunks);
    forall k | 0 <= k < |sent| ensures ValidShape(sent[k]) {
      if k == 0 { FirstStarts(h, who, rounds, chunks); } else { NextContinues(h, who, rounds, chunks, k, 0); }
    }
  }

  /** The fixture's rows are well shaped and hold what was built. */
  lemma UploadedRows<D>(h: Hasher<D>, proof: Proof, who: Participant, clock: nat -> int)
    requires WellNumbered(proof.rounds) && proof.rounds != []
    requires |BuildSpec(h, who, proof.rounds)| <= MAX_SEQUENCE
    ensures
      var rows := RowsOf(h, BuildSpec(h, who, proof.rounds), clock);
      WellShaped(rows) && HoldsBuilt(h, proof, who, rows)
  {
    var chunks := Layout(Tracks(proof.rounds, who.side));
    var rows := RowsOf(h, BuildSpec(h, who, proof.rounds), clock);
    LayoutCovers(proof.rounds, who.side);
    LayoutSizes(proof.rounds, who.side);
    assert BuildSpec(h, who, proof.rounds) == Link(h, who, chunks);
    hide ValidShape, Covers, Attests, BuildSpec, Layout, Tracks, Link, FitsAll, Fits;
    WellShapedRows(h, who, proof.rounds, chunks, clock);
    assert Submissions(rows) == BuildSpec(h, who, proof.rounds);
  }

  /** Each submission is received no sooner after the previous one than the policy allows its frames. */
  ghost predicate SentInPace<D>(sent: seq<Submission<D>>, clock: nat -> int, policy: Policy) {
    forall k :: 0 < k < |sent| ==>
      (clock(k) - clock(k - 1)) as real >= TimeFor(sent[k].endFrame - sent[k].identity.startFrame + 1, policy)
  }

  lemma SentRowsArePaced<D>(h: Hasher<D>, sent: seq<Submission<D>>, clock: nat -> int, policy: Policy)
    requires SentInPace(sent, clock, policy) && WellShaped(RowsOf(h, sent, clock))
    ensures Paced(RowsOf(h, sent, clock), policy)
  {
    hide TimeFor;
  }

  /** One commitment is enough for a single round of at most the largest chunk. */
  predicate OneCommitment(rounds: seq<Round>) { |rounds| == 1 && |rounds[0].inputs| <= MAX_FRAMES }

  lemma {:induction false} OnePerRound(rounds: seq<Round>, side: Side)
    requires WellNumbered(rounds)
    ensures |Layout(Tracks(rounds, side))| >= |rounds|
  {
    if rounds != [] {
      var n := |rounds| - 1;
      OnePerRound(rounds[..n], side);
      TrackGrows(rounds, side);
    }
  }

  lemma TrackGrows(rounds: seq<Round>, side: Side)
    requires WellNumbered(rounds) && rounds != []
    ensures
      var n := |rounds| - 1;
      |Layout(Tracks(rounds, side))| == |Layout(Tracks(rounds[..n], side))| + ChunkCount(|rounds[n].inputs|)
  {
    var n := |rounds| - 1;
    LayoutAppend(Tracks(rounds[..n], side), Track(rounds[n].epoch, Project(rounds[n].inputs, side)));
  }

  lemma CommitmentCount(rounds: seq<Round>, side: Side)
    requires WellNumbered(rounds) && rounds != []
    ensures |Layout(Tracks(rounds, side))| > 0
    ensures |Layout(Tracks(rounds, side))| == 1 <==> OneCommitment(rounds)
  {
    OnePerRound(rounds, side);
    if |rounds| == 1 {
      TrackGrows(rounds, side);
      assert rounds[..0] == [];
    }
  }

  /**
   The honest path end to end, under every policy: the commitments built for a well-numbered proof
   are all accepted in order, and when they arrive in pace the coverage check verifies the stored
   rows against the proof, with one exception. A proof of one short round has a single commitment
   and is rejected as soon as any observation is required.
   */
  lemma HonestUploadVerifies<D>(h: Hasher<D>, proof: Proof, who: Participant, clock: nat -> int, policy: Policy)
    requires WellNumbered(proof.rounds) && proof.rounds != [] && policy.Valid()
    requires |BuildSpec(h, who, proof.rounds)| <= MAX_SEQUENCE
    requires SentInPace(BuildSpec(h, who, proof.rounds), clock, policy)
    ensures
      var rows := RowsOf(h, BuildSpec(h, who, proof.rounds), clock);
      && StoreAll(h, BuildSpec(h, who, proof.rounds), clock) == Some(rows)
      && WellShaped(rows)
      && (Judge(h, proof, who, rows, policy).Verified? <==>
            !OneCommitment(proof.rounds) || policy.minimumRatio <= RATIO_EPSILON)
  {
    var chunks := Layout(Tracks(proof.rounds, who.side));
    var sent := BuildSpec(h, who, proof.rounds);
    LayoutCovers(proof.rounds, who.side);
    LayoutSizes(proof.rounds, who.side);
    StoringSucceeds(h, who, proof.rounds, chunks, |chunks|, clock);
    assert sent[..|chunks|] == sent;
    UploadedRows(h, proof, who, clock);
    var rows := RowsOf(h, sent, clock);
    BuiltChainCovers(h, who, proof, rows);
    SentRowsArePaced(h, sent, clock, policy);
    CommitmentCount(proof.rounds, who.side);
    hide Attests, Paced, Judge;
    PacedVerdict(h, proof, who, rows, policy);
  }

  lemma {:induction false} RefusedStays<D>(h: Hasher<D>, sent: seq<Submission<D>>, k: nat, clock: nat -> int)
    requires k <= |sent| && StoreAll(h, sent[..k], clock).None?
    ensures StoreAll(h, sent, clock).None?
    decreases |sent|
  {
    if k < |sent| {
      assert sent[..|sent| - 1][..k] == sent[..k];
      RefusedStays(h, sent[..|sent| - 1], k, clock);
    } else {
      assert sent[..k] == sent;
    }
  }

  lemma LastIsRefused<D>(h: Hasher<D>, sent: seq<Submission<D>>, clock: nat -> int)
    requires sent != [] && !ValidShape(sent[|sent| - 1])
    ensures StoreAll(h, sent, clock).None?
  {
  }

  /** A built upload is stored exactly when it has no more commitments than the store has numbers. */
  lemma BuiltUploadIsStored<D>(h: Hasher<D>, proof: Proof, who: Participant, clock: nat -> int)
    requires WellNumbered(proof.rounds) && proof.rounds != []
    ensures
      StoreAll(h, BuildSpec(h, who, proof.rounds), clock).Some? <==>
        |BuildSpec(h, who, proof.rounds)| <= MAX_SEQUENCE
  {
    var chunks := Layout(Tracks(proof.rounds, who.side));
    var sent := BuildSpec(h, who, proof.rounds);
    if |sent| <= MAX_SEQUENCE {
      LayoutCovers(proof.rounds, who.side);
      LayoutSizes(proof.rounds, who.side);
      StoringSucceeds(h, who, proof.rounds, chunks, |chunks|, clock);
      assert sent[..|chunks|] == sent;
    } else {
      LinkAt(h, who, chunks, MAX_SEQUENCE);
      var cut := sent[..MAX_SEQUENCE + 1];
      assert cut[|cut| - 1] == sent[MAX_SEQUENCE] && !ValidShape(sent[MAX_SEQUENCE]);
      LastIsRefused(h, cut, clock);
      RefusedStays(h, sent, MAX_SEQUENCE + 1, clock);
    }
  }
}
