/**
 Input commitments: how a verified ranked proof is cut into hash-linked chunks for one side,
 how the server stores the chunks it receives, and how it later checks that a stored chain
 covers a proof.

 Digests are functions supplied by a `Hasher`; the binding theorems assume only that they are
 injective.
 */
module CommitmentChain {
  import opened Wrappers

  /** The largest number of frames one commitment may cover. */
  const MAX_FRAMES: nat := 120

  datatype Side = P1 | P2

  /** The compact input of one player in one frame. */
  type Input = (int, int, int)

  /** A recorded frame holds the compact inputs of both players. */
  datatype Frame = Frame(p1: Input, p2: Input)

  datatype Round = Round(epoch: nat, inputs: seq<Frame>)

  datatype Proof = Proof(sessionId: string, rounds: seq<Round>)

  datatype Participant = Participant(sessionId: string, accountId: string, side: Side)

  /** One side's inputs of one round. */
  datatype Track = Track(epoch: nat, inputs: seq<Input>)

  /** The content of one commitment before it is hashed. */
  datatype Chunk = Chunk(epoch: nat, startFrame: nat, inputs: seq<Input>, roundFinal: bool)

  datatype Identity = Identity(
    sessionId: string, accountId: string, side: Side,
    sequence: nat, epoch: nat, startFrame: nat, roundFinal: bool)

  datatype Submission<D> = Submission(
    identity: Identity, endFrame: int, chunkDigest: D, previousChainDigest: Option<D>)

  datatype Hasher<!D> = Hasher(
    chunk: (Identity, seq<Input>) -> D,
    chain: Submission<D> -> D)

  ghost predicate Injective<D(!new)>(h: Hasher<D>) {
    && (forall i, s, j, t {:trigger h.chunk(i, s), h.chunk(j, t)} ::
          h.chunk(i, s) == h.chunk(j, t) ==> i == j && s == t)
    && (forall a, b {:trigger h.chain(a), h.chain(b)} :: h.chain(a) == h.chain(b) ==> a == b)
  }

  // ---------------------------------------------------------------- projection to one side

  function Extract(frame: Frame, side: Side): Input {
    if side.P1? then frame.p1 else frame.p2
  }

  function Project(frames: seq<Frame>, side: Side): (inputs: seq<Input>)
    ensures |inputs| == |frames|
    ensures forall i :: 0 <= i < |frames| ==> inputs[i] == Extract(frames[i], side)
  {
    seq(|frames|, i requires 0 <= i < |frames| => Extract(frames[i], side))
  }

  /** The tracks of one side, in round order, without the rounds that hold no frame. */
  function Tracks(rounds: seq<Round>, side: Side): seq<Track> {
    if rounds == [] then []
    else
      var last := rounds[|rounds| - 1];
      var before := Tracks(rounds[..|rounds| - 1], side);
      if last.inputs == [] then before else before + [Track(last.epoch, Project(last.inputs, side))]
  }

  // ---------------------------------------------------------------- tiling

  function ChunkCount(length: nat): nat { (length + MAX_FRAMES - 1) / MAX_FRAMES }

  /** The k-th chunk of a track: frames 120k up to 120k + 119 or the end of the round. */
  function ChunkAt(track: Track, k: nat): Chunk
    requires k < ChunkCount(|track.inputs|)
  {
    var from := k * MAX_FRAMES;
    var to := Min(|track.inputs|, from + MAX_FRAMES);
    Chunk(track.epoch, from, track.inputs[from..to], to == |track.inputs|)
  }

  function LayoutTrack(track: Track): seq<Chunk> {
    seq(ChunkCount(|track.inputs|), k requires 0 <= k < ChunkCount(|track.inputs|) => ChunkAt(track, k))
  }

  function RoundLayout(round: Round, side: Side): seq<Chunk> {
    LayoutTrack(Track(round.epoch, Project(round.inputs, side)))
  }

  function Layout(tracks: seq<Track>): seq<Chunk> {
    if tracks == [] then []
    else Layout(tracks[..|tracks| - 1]) + LayoutTrack(tracks[|tracks| - 1])
  }

  /** What a chunk sequence says about the game: the finished rounds and the open one. */
  datatype Gathered = Gathered(done: seq<Track>, pending: seq<Input>)

  function Gather(chunks: seq<Chunk>): Gathered {
    if chunks == [] then Gathered([], [])
    else
      var c := chunks[|chunks| - 1];
      var before := Gather(chunks[..|chunks| - 1]);
      if c.roundFinal then Gathered(before.done + [Track(c.epoch, before.pending + c.inputs)], [])
      else Gathered(before.done, before.pending + c.inputs)
  }

  /**
   The published shape of a chunk sequence, stated without reference to how it is produced:
   sizes between one and the maximum, full chunks inside a round, and frames that continue
   exactly where the previous chunk of the round stopped.
   */
  ghost predicate Tiled(chunks: seq<Chunk>) {
    && (forall k :: 0 <= k < |chunks| ==> 1 <= |chunks[k].inputs| <= MAX_FRAMES)
    && (forall k :: 0 <= k < |chunks| && !chunks[k].roundFinal ==> |chunks[k].inputs| == MAX_FRAMES)
    && (|chunks| > 0 ==> chunks[0].startFrame == 0 && chunks[|chunks| - 1].roundFinal)
    && (forall k :: 0 < k < |chunks| ==> Continues(chunks[k - 1], chunks[k]))
  }

  predicate Continues(previous: Chunk, next: Chunk) {
    if previous.roundFinal then next.startFrame == 0
    else next.epoch == previous.epoch && next.startFrame == previous.startFrame + |previous.inputs|
  }

  lemma LayoutTrackShape(track: Track)
    requires track.inputs != []
    ensures
      var chunks := LayoutTrack(track);
      && Tiled(chunks) && |chunks| > 0
      && (forall k :: 0 <= k < |chunks| ==> chunks[k].roundFinal == (k == |chunks| - 1))
  {
    var chunks := LayoutTrack(track);
    var n := |track.inputs|;
    forall k | 0 <= k < |chunks|
      ensures 1 <= |chunks[k].inputs| <= MAX_FRAMES
      ensures chunks[k].roundFinal == (k == |chunks| - 1)
      ensures !chunks[k].roundFinal ==> |chunks[k].inputs| == MAX_FRAMES
    {
      assert chunks[k] == ChunkAt(track, k);
    }
    forall k | 0 < k < |chunks| ensures Continues(chunks[k - 1], chunks[k]) {
      assert chunks[k - 1] == ChunkAt(track, k - 1) && chunks[k] == ChunkAt(track, k);
    }
  }

  ghost predicate AllNonEmpty(tracks: seq<Track>) {
    forall k :: 0 <= k < |tracks| ==> tracks[k].inputs != []
  }

  /** Cutting any list of non-empty rounds gives a gap-free, overlap-free tiling. */
  lemma {:induction false} LayoutIsTiled(tracks: seq<Track>)
    requires AllNonEmpty(tracks)
    ensures Tiled(Layout(tracks))
    ensures tracks != [] ==> Layout(tracks) != []
  {
    if tracks != [] {
      var n := |tracks| - 1;
      LayoutIsTiled(tracks[..n]);
      LayoutTrackShape(tracks[n]);
      var a, b := Layout(tracks[..n]), LayoutTrack(tracks[n]);
      forall k | 0 < k < |a + b| ensures Continues((a + b)[k - 1], (a + b)[k]) {
        if k == |a| { assert (a + b)[k] == b[0]; }
      }
    }
  }

  lemma GatherAppend(chunks: seq<Chunk>, c: Chunk)
    ensures Gather(chunks + [c]) ==
            if c.roundFinal
            then Gathered(Gather(chunks).done + [Track(c.epoch, Gather(chunks).pending + c.inputs)], [])
            else Gathered(Gather(chunks).done, Gather(chunks).pending + c.inputs)
  {
    assert (chunks + [c])[..|chunks|] == chunks;
  }

  lemma AppendNext<T>(before: seq<T>, s: seq<T>, k: nat)
    requires k < |s|
    ensures before + s[..k] + [s[k]] == before + s[..k + 1]
    ensures k + 1 == |s| ==> before + s[..k] + [s[k]] == before + s
  {
  }

  lemma ChunkAtShape(track: Track, k: nat)
    requires k < ChunkCount(|track.inputs|)
    ensures
      var c := ChunkAt(track, k);
      var from := k * MAX_FRAMES;
      && c.startFrame == from < |track.inputs|
      && track.inputs[..from] + c.inputs == track.inputs[..from + |c.inputs|]
      && (if k == ChunkCount(|track.inputs|) - 1
          then c.roundFinal && from + |c.inputs| == |track.inputs|
          else !c.roundFinal && from + |c.inputs| == (k + 1) * MAX_FRAMES < |track.inputs|)
  {
  }

  lemma LastChunk(track: Track)
    requires track.inputs != []
    ensures
      var layout := LayoutTrack(track);
      var n := |layout| - 1;
      && n >= 0 && layout[n].roundFinal && layout[n].epoch == track.epoch
      && track.inputs[..n * MAX_FRAMES] + layout[n].inputs == track.inputs
  {
    ChunkAtShape(track, ChunkCount(|track.inputs|) - 1);
    assert track.inputs[..|track.inputs|] == track.inputs;
  }

  lemma {:induction false} GatherPartOfTrack(before: seq<Chunk>, track: Track, k: nat)
    requires k < |LayoutTrack(track)| && Gather(before).pending == []
    ensures Gather(before + LayoutTrack(track)[..k]) ==
            Gathered(Gather(before).done, track.inputs[..k * MAX_FRAMES])
  {
    var layout := LayoutTrack(track);
    if k == 0 {
      assert before + layout[..0] == before;
      assert track.inputs[..0] == [];
    } else {
      GatherPartOfTrack(before, track, k - 1);
      AppendNext(before, layout, k - 1);
      GatherAppend(before + layout[..k - 1], layout[k - 1]);
      ChunkAtShape(track, k - 1);
    }
  }

  lemma GatherTrack(before: seq<Chunk>, track: Track)
    requires track.inputs != [] && Gather(before).pending == []
    ensures Gather(before + LayoutTrack(track)) == Gathered(Gather(before).done + [track], [])
  {
    var layout := LayoutTrack(track);
    var n := |layout| - 1;
    GatherPartOfTrack(before, track, n);
    AppendNext(before, layout, n);
    GatherAppend(before + layout[..n], layout[n]);
    LastChunk(track);
  }

  /** Concatenating the chunks per round gives back exactly the rounds that were cut. */
  lemma {:induction false} LayoutRoundTrip(tracks: seq<Track>)
    requires AllNonEmpty(tracks)
    ensures Gather(Layout(tracks)) == Gathered(tracks, [])
  {
    if tracks != [] {
      var n := |tracks| - 1;
      LayoutRoundTrip(tracks[..n]);
      GatherTrack(Layout(tracks[..n]), tracks[n]);
      assert tracks[..n] + [tracks[n]] == tracks;
    }
  }

  lemma {:induction false} TracksNonEmpty(rounds: seq<Round>, side: Side)
    ensures AllNonEmpty(Tracks(rounds, side))
  {
    if rounds != [] { TracksNonEmpty(rounds[..|rounds| - 1], side); }
  }

  // ---------------------------------------------------------------- hash links

  function FinalDigest<D>(h: Hasher<D>, submissions: seq<Submission<D>>): Option<D> {
    if submissions == [] then None else Some(h.chain(submissions[|submissions| - 1]))
  }

  function IdentityOf(who: Participant, sequence: nat, c: Chunk): Identity {
    Identity(who.sessionId, who.accountId, who.side, sequence, c.epoch, c.startFrame, c.roundFinal)
  }

  /** The linked commitments that announce a chunk sequence on behalf of one participant. */
  function Link<D>(h: Hasher<D>, who: Participant, chunks: seq<Chunk>): (out: seq<Submission<D>>)
    ensures |out| == |chunks|
  {
    if chunks == [] then []
    else
      var n := |chunks| - 1;
      var before := Link(h, who, chunks[..n]);
      before + [Announce(h, who, n, chunks[n], FinalDigest(h, before))]
  }

  /** The commitment that announces one chunk under a sequence number and a predecessor digest. */
  function Announce<D>(h: Hasher<D>, who: Participant, sequence: nat, c: Chunk, previous: Option<D>)
    : Submission<D>
  {
    var id := IdentityOf(who, sequence, c);
    Submission(id, c.startFrame + |c.inputs| - 1, h.chunk(id, c.inputs), previous)
  }

  /** Sequence numbers run 0, 1, 2, ... and each link carries the digest of its predecessor. */
  lemma {:induction false} LinkAt<D>(h: Hasher<D>, who: Participant, chunks: seq<Chunk>, k: nat)
    requires k < |chunks|
    ensures
      var out := Link(h, who, chunks);
      && out[k].identity == IdentityOf(who, k, chunks[k])
      && out[k].endFrame == chunks[k].startFrame + |chunks[k].inputs| - 1
      && out[k].chunkDigest == h.chunk(out[k].identity, chunks[k].inputs)
      && out[k].previousChainDigest == (if k == 0 then None else Some(h.chain(out[k - 1])))
  {
    var n := |chunks| - 1;
    if k < n { LinkAt(h, who, chunks[..n], k); }
  }

  /** The k-th link announces the k-th chunk on top of the links before it. */
  lemma {:induction false} LinkPrefix<D>(h: Hasher<D>, who: Participant, chunks: seq<Chunk>, k: nat)
    requires k < |chunks|
    ensures Link(h, who, chunks)[..k] == Link(h, who, chunks[..k])
    ensures Link(h, who, chunks)[k] ==
            Announce(h, who, k, chunks[k], FinalDigest(h, Link(h, who, chunks[..k])))
  {
    var n := |chunks| - 1;
    if k < n {
      LinkPrefix(h, who, chunks[..n], k);
      assert chunks[..n][..k] == chunks[..k];
    }
  }

  /** Equal final digests come from equal chunk sequences: nothing can be changed, dropped,
      reordered or split differently. */
  lemma {:induction false} LinkBinds<D(!new)>(h: Hasher<D>, who: Participant, a: seq<Chunk>, b: seq<Chunk>)
    requires Injective(h)
    requires FinalDigest(h, Link(h, who, a)) == FinalDigest(h, Link(h, who, b))
    ensures a == b
    decreases |a|
  {
    if a != [] && b != [] {
      var m, n := |a| - 1, |b| - 1;
      var la, lb := Link(h, who, a), Link(h, who, b);
      assert la[m] == lb[n];
      assert la[m].identity.sequence == m && lb[n].identity.sequence == n;
      LinkBinds(h, who, a[..m], b[..n]);
      assert a == a[..m] + [a[m]] && b == b[..n] + [b[n]];
    }
  }

  /**
   Two chains built for the same participant end in the same digest exactly when the non-empty
   rounds carry the same inputs of that side. Rounds without frames leave no trace.
   */
  lemma {:induction false} ChainBindsInputs<D(!new)>(h: Hasher<D>, who: Participant, a: seq<Round>, b: seq<Round>)
    requires Injective(h)
    ensures FinalDigest(h, BuildSpec(h, who, a)) == FinalDigest(h, BuildSpec(h, who, b))
       <==> Tracks(a, who.side) == Tracks(b, who.side)
  {
    var ta, tb := Tracks(a, who.side), Tracks(b, who.side);
    if FinalDigest(h, BuildSpec(h, who, a)) == FinalDigest(h, BuildSpec(h, who, b)) {
      LinkBinds(h, who, Layout(ta), Layout(tb));
      TracksNonEmpty(a, who.side);
      TracksNonEmpty(b, who.side);
      LayoutRoundTrip(ta);
      LayoutRoundTrip(tb);
    }
  }

  /** The non-empty guard in `ChainBindsInputs` is needed: an empty round changes no digest. */
  lemma EmptyRoundLeavesNoTrace<D>(h: Hasher<D>, who: Participant, rounds: seq<Round>, epoch: nat)
    ensures rounds + [Round(epoch, [])] != rounds
    ensures BuildSpec(h, who, rounds + [Round(epoch, [])]) == BuildSpec(h, who, rounds)
  {
    var longer := rounds + [Round(epoch, [])];
    assert |longer| == |rounds| + 1;
    assert longer[..|rounds|] == rounds;
  }

  /** The commitments of a proof for one participant. */
  function BuildSpec<D>(h: Hasher<D>, who: Participant, rounds: seq<Round>): seq<Submission<D>> {
    Link(h, who, Layout(Tracks(rounds, who.side)))
  }

  lemma LinkAppend<D>(h: Hasher<D>, who: Participant, chunks: seq<Chunk>, c: Chunk)
    ensures Link(h, who, chunks + [c]) ==
            Link(h, who, chunks) + [Announce(h, who, |chunks|, c, FinalDigest(h, Link(h, who, chunks)))]
  {
    assert (chunks + [c])[..|chunks|] == chunks;
  }

  lemma ProjectSlice(frames: seq<Frame>, side: Side, from: nat, to: nat)
    requires from <= to <= |frames|
    ensures Project(frames[from..to], side) == Project(frames, side)[from..to]
  {
  }

  lemma TracksPrefix(rounds: seq<Round>, side: Side, i: nat)
    requires i < |rounds|
    ensures Tracks(rounds[..i + 1], side) ==
            Tracks(rounds[..i], side) +
            (if rounds[i].inputs == [] then [] else [Track(rounds[i].epoch, Project(rounds[i].inputs, side))])
  {
    assert rounds[..i + 1][..i] == rounds[..i];
  }

  lemma LayoutAppend(tracks: seq<Track>, t: Track)
    ensures Layout(tracks + [t]) == Layout(tracks) + LayoutTrack(t)
  {
    assert (tracks + [t])[..|tracks|] == tracks;
  }

  /** The state of the inner loop after k windows of a round: the first k chunks are linked. */
  ghost predicate Progress<D>(h: Hasher<D>, who: Participant, before: seq<Chunk>, round: Round,
                              startFrame: nat, k: nat, sent: seq<Submission<D>>)
  {
    var layout := RoundLayout(round, who.side);
    && startFrame == k * MAX_FRAMES && k <= |layout|
    && (k < |layout| <==> startFrame < |round.inputs|)
    && sent == Link(h, who, before + layout[..k])
  }

  /** The commitment the inner loop computes from the frames of one window. */
  function WindowSubmission<D>(h: Hasher<D>, who: Participant, round: Round, startFrame: nat,
                               sequence: nat, previous: Option<D>): Submission<D>
    requires startFrame < |round.inputs|
  {
    var endFrame := Min(|round.inputs| - 1, startFrame + MAX_FRAMES - 1);
    var identity := Identity(who.sessionId, who.accountId, who.side, sequence, round.epoch, startFrame,
                             endFrame == |round.inputs| - 1);
    Submission(identity, endFrame,
               h.chunk(identity, Project(round.inputs[startFrame..endFrame + 1], who.side)), previous)
  }

  /** The window the inner loop looks at is the next chunk of the track. */
  lemma NextWindow<D>(h: Hasher<D>, who: Participant, round: Round, k: nat, sequence: nat, previous: Option<D>)
    requires k * MAX_FRAMES < |round.inputs| && k < |RoundLayout(round, who.side)|
    ensures WindowSubmission(h, who, round, k * MAX_FRAMES, sequence, previous) ==
            Announce(h, who, sequence, RoundLayout(round, who.side)[k], previous)
  {
    var startFrame := k * MAX_FRAMES;
    var endFrame := Min(|round.inputs| - 1, startFrame + MAX_FRAMES - 1);
    ProjectSlice(round.inputs, who.side, startFrame, endFrame + 1);
  }

  /** One turn of the inner loop extends the linked chain by exactly the next chunk. */
  lemma CommitWindow<D>(h: Hasher<D>, who: Participant, before: seq<Chunk>, round: Round,
                        startFrame: nat, k: nat, sent: seq<Submission<D>>)
    requires Progress(h, who, before, round, startFrame, k, sent) && startFrame < |round.inputs|
    ensures
      var next := WindowSubmission(h, who, round, startFrame, |sent|, FinalDigest(h, sent));
      && Progress(h, who, before, round, startFrame + MAX_FRAMES, k + 1, sent + [next])
      && FinalDigest(h, sent + [next]) == Some(h.chain(next))
  {
    var layout := RoundLayout(round, who.side);
    NextWindow(h, who, round, k, |sent|, FinalDigest(h, sent));
    LinkAppend(h, who, before + layout[..k], layout[k]);
    AppendNext(before, layout, k);
  }

  lemma StartRound<D>(h: Hasher<D>, who: Participant, before: seq<Chunk>, round: Round)
    ensures Progress(h, who, before, round, 0, 0, Link(h, who, before))
  {
    assert before + RoundLayout(round, who.side)[..0] == before;
  }

  lemma FinishRound<D>(h: Hasher<D>, who: Participant, rounds: seq<Round>, i: nat,
                       startFrame: nat, k: nat, sent: seq<Submission<D>>)
    requires i < |rounds| && startFrame >= |rounds[i].inputs|
    requires Progress(h, who, Layout(Tracks(rounds[..i], who.side)), rounds[i], startFrame, k, sent)
    ensures sent == BuildSpec(h, who, rounds[..i + 1])
  {
    TracksPrefix(rounds, who.side, i);
    var before := Tracks(rounds[..i], who.side);
    var layout := RoundLayout(rounds[i], who.side);
    assert layout[..k] == layout;
    if rounds[i].inputs == [] {
      assert before + [] == before;
      assert Layout(before) + layout == Layout(before);
    } else {
      LayoutAppend(before, Track(rounds[i].epoch, Project(rounds[i].inputs, who.side)));
    }
  }

  /** The fixture builder: two nested loops over rounds and frame windows. */
  method CreateCommitments<D>(h: Hasher<D>, proof: Proof, accountId: string, side: Side)
    returns (commitments: seq<Submission<D>>)
    ensures commitments == BuildSpec(h, Participant(proof.sessionId, accountId, side), proof.rounds)
  {
    var who := Participant(proof.sessionId, accountId, side);
    commitments := [];
    var sequence := 0;
    var previousChainDigest := None;
    var i := 0;
    while i < |proof.rounds|
      invariant 0 <= i <= |proof.rounds|
      invariant commitments == BuildSpec(h, who, proof.rounds[..i])
      invariant sequence == |commitments| && previousChainDigest == FinalDigest(h, commitments)
    {
      var round := proof.rounds[i];
      ghost var before := Layout(Tracks(proof.rounds[..i], side));
      StartRound(h, who, before, round);
      var startFrame := 0;
      ghost var k := 0;
      hide WindowSubmission, Link, Layout, Tracks;
      while startFrame < |round.inputs|
        invariant Progress(h, who, before, round, startFrame, k, commitments)
        invariant sequence == |commitments| && previousChainDigest == FinalDigest(h, commitments)
        decreases |round.inputs| - startFrame
      {
        CommitWindow(h, who, before, round, startFrame, k, commitments);
        var submission := WindowSubmission(h, who, round, startFrame, sequence, previousChainDigest);
        commitments := commitments + [submission];
        previousChainDigest := Some(h.chain(submission));
        sequence := sequence + 1;
        startFrame := startFrame + MAX_FRAMES;
        k := k + 1;
      }
      FinishRound(h, who, proof.rounds, i, startFrame, k, commitments);
      i := i + 1;
    }
    assert proof.rounds[..i] == proof.rounds;
  }
}
