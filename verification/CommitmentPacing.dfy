/**
 Who passes the observation checks: a client whose commitments arrive no faster than the policy
 lets frames be played, provided there is more than one of them.
 */
module CommitmentPacing {
  import opened Wrappers
  import opened CommitmentChain
  import opened CommitmentStore

  /** The time the policy asks for some frames. */
  function TimeFor(frames: int, policy: Policy): real { frames as real * (policy.fixedDtMs * policy.minimumRatio) }

  /** Every row but the first arrives no sooner than the policy allows its frames. */
  ghost predicate Paced<D>(rows: seq<Stored<D>>, policy: Policy) {
    forall k :: 0 < k < |rows| ==>
      ValidShape(rows[k].submission)
      && (rows[k].receivedAtMs - rows[k - 1].receivedAtMs) as real >= TimeFor(FramesOf(rows[k].submission), policy)
  }

  /** The frames the first i rows announce. */
  function FramesTo<D>(rows: seq<Stored<D>>, i: nat): nat
    requires i <= |rows| && WellShaped(rows)
  {
    if i == 0 then 0 else FramesTo(rows, i - 1) + FramesOf(rows[i - 1].submission)
  }

  // ---------------------------------------------------------------- arithmetic

  lemma TimeForAdds(a: int, b: int, policy: Policy)
    ensures TimeFor(a + b, policy) == TimeFor(a, policy) + TimeFor(b, policy)
  {
  }

  lemma TimeForPositive(frames: int, policy: Policy)
    requires frames >= 0 && policy.Valid()
    ensures TimeFor(frames, policy) >= 0.0
  {
    ProductPositive(policy.fixedDtMs, policy.minimumRatio);
    ProductPositive(frames as real, policy.fixedDtMs * policy.minimumRatio);
  }

  lemma ProductPositive(x: real, y: real)
    requires x >= 0.0 && y >= 0.0
    ensures x * y >= 0.0
  {
  }

  lemma QuotientAtLeast(elapsed: real, frames: real, perFrame: real)
    requires perFrame > 0.0 && elapsed >= frames * perFrame
    ensures elapsed / perFrame >= frames
  {
    var q := elapsed / perFrame;
    assert q * perFrame == elapsed;
    if q < frames { ProductBelow(q, frames, perFrame); }
  }

  lemma ProductBelow(a: real, b: real, c: real)
    requires a < b && c > 0.0
    ensures a * c < b * c
  {
  }

  // ---------------------------------------------------------------- cadence

  /** A row in pace finds enough allowance, whatever was left before. */
  lemma InPace(policy: Policy, available: real, elapsedMs: int, frames: nat)
    requires policy.Valid() && policy.minimumRatio > 0.0 && available >= 0.0 && frames <= MAX_FRAMES
    requires elapsedMs as real >= TimeFor(frames, policy)
    ensures Replenish(available, elapsedMs, policy) >= frames as real
  {
    var perFrame := policy.fixedDtMs * policy.minimumRatio;
    assert perFrame > 0.0;
    QuotientAtLeast(elapsedMs as real, frames as real, perFrame);
  }

  lemma {:induction false} PacedKeepsCadence<D>(rows: seq<Stored<D>>, i: nat, policy: Policy)
    requires i <= |rows| && WellShaped(rows) && Paced(rows, policy) && policy.Valid()
    ensures Cadence(rows, i, policy).Some? && Cadence(rows, i, policy).value >= 0.0
  {
    if i > 0 {
      hide Replenish, TimeFor;
      PacedKeepsCadence(rows, i - 1, policy);
      var available := Cadence(rows, i - 1, policy).value;
      if policy.minimumRatio > 0.0 {
        if i == 1 {
          assert available == CADENCE_BURST_FRAMES;
          NoTimePassed(policy, available);
        } else {
          InPace(policy, available, rows[i - 1].receivedAtMs - rows[i - 2].receivedAtMs,
                 FramesOf(rows[i - 1].submission));
        }
      }
    }
  }

  lemma NoTimePassed(policy: Policy, available: real)
    requires policy.Valid() && available == CADENCE_BURST_FRAMES
    ensures Replenish(available, 0, policy) == CADENCE_BURST_FRAMES
  {
    var perFrame := policy.fixedDtMs * policy.minimumRatio;
    if perFrame > 0.0 { assert 0.0 / perFrame == 0.0; }
  }

  lemma PacedIsOrdered<D>(rows: seq<Stored<D>>, policy: Policy)
    requires Paced(rows, policy) && policy.Valid()
    ensures Ordered(rows)
  {
    hide TimeFor;
    forall k | 0 < k < |rows| ensures rows[k - 1].receivedAtMs <= rows[k].receivedAtMs {
      TimeForPositive(FramesOf(rows[k].submission), policy);
    }
  }

  // ---------------------------------------------------------------- observation

  /** From the first row to the i-th at least the time for the frames in between passes. */
  lemma {:induction false} PacedElapsed<D>(rows: seq<Stored<D>>, i: nat, policy: Policy)
    requires 0 < i <= |rows| && WellShaped(rows) && Paced(rows, policy)
    ensures
      (rows[i - 1].receivedAtMs - rows[0].receivedAtMs) as real
        >= TimeFor(FramesTo(rows, i) - FramesOf(rows[0].submission), policy)
  {
    if i == 1 {
      assert FramesTo(rows, 1) == FramesTo(rows, 0) + FramesOf(rows[0].submission);
    } else {
      hide TimeFor;
      PacedElapsed(rows, i - 1, policy);
      TimeForAdds(FramesTo(rows, i - 1) - FramesOf(rows[0].submission), FramesOf(rows[i - 1].submission), policy);
    }
  }

  lemma {:induction false} FramesGrow<D>(rows: seq<Stored<D>>, i: nat)
    requires 0 < i <= |rows| && WellShaped(rows)
    ensures FramesTo(rows, i) >= FramesOf(rows[0].submission)
    ensures i == 1 ==> FramesTo(rows, i) == FramesOf(rows[0].submission)
    ensures i > 1 ==> FramesTo(rows, i) > FramesOf(rows[0].submission)
  {
    if i > 1 { FramesGrow(rows, i - 1); }
  }

  lemma EnoughPerFrame(observed: real, frames: nat, policy: Policy)
    requires policy.Valid() && frames > 0 && observed >= TimeFor(frames, policy)
    ensures
      var observable := frames as real * policy.fixedDtMs;
      observable > 0.0 && observed / observable >= policy.minimumRatio
  {
    var observable := frames as real * policy.fixedDtMs;
    assert observable > 0.0;
    assert TimeFor(frames, policy) == policy.minimumRatio * observable;
    QuotientAtLeast(observed, policy.minimumRatio, observable);
  }

  /** A chain in pace meets the required ratio exactly when it has two rows or none is required. */
  lemma PacedIsObserved<D>(rows: seq<Stored<D>>, policy: Policy)
    requires rows != [] && WellShaped(rows) && Paced(rows, policy) && policy.Valid()
    ensures ObservedEnough(rows, FramesTo(rows, |rows|), policy) <==> |rows| > 1 || policy.minimumRatio <= RATIO_EPSILON
  {
    FramesGrow(rows, |rows|);
    if |rows| > 1 {
      PacedElapsed(rows, |rows|, policy);
      var frames := FramesTo(rows, |rows|) - FramesOf(rows[0].submission);
      var observed := (rows[|rows| - 1].receivedAtMs - rows[0].receivedAtMs) as real;
      EnoughPerFrame(observed, frames, policy);
      TimeForPositive(frames, policy);
      hide TimeFor, FramesTo;
    }
  }

  // ---------------------------------------------------------------- the verdict

  lemma {:induction false} ScanFrames<D>(h: Hasher<D>, proof: Proof, who: Participant, rows: seq<Stored<D>>,
                                         i: nat, policy: Policy, scan: Scan<D>)
    requires i <= |rows| && WellShaped(rows)
    requires ScanTo(h, proof, who, rows, i, policy) == Ok(scan)
    ensures scan.committedFrames == FramesTo(rows, i)
  {
    if i > 0 {
      hide ContentFault, TrueBoundary, ValidShape, Allowance, TooFast, Remaining;
      ScanFrames(h, proof, who, rows, i - 1, policy, ScanTo(h, proof, who, rows, i - 1, policy).value);
    }
  }

  /** Rows that attest a proof announce all its frames. */
  lemma AttestedFrames<D>(h: Hasher<D>, proof: Proof, who: Participant, rows: seq<Stored<D>>)
    requires rows != [] && WellShaped(rows)
    requires Attests(h, proof, who, rows) && Ordered(rows)
    ensures FramesTo(rows, |rows|) == TotalFrames(proof.rounds)
  {
    hide ScanRow, ValidShape, Attests, Ordered, Cadence, ScanTo;
    var lenient := Policy(0.0, 1.0);
    NoMinimumKeepsCadence(rows, |rows|, lenient);
    AttestedScans(h, proof, who, rows, |rows|, lenient);
    var scan := ScanTo(h, proof, who, rows, |rows|, lenient).value;
    ScanChecks(h, proof, who, rows, |rows|, lenient, scan);
    CheckedEnd(h, proof, who, rows, scan.at, scan.previous, scan.committedFrames);
    ScanFrames(h, proof, who, rows, |rows|, lenient, scan);
  }

  /**
   A chain that attests its proof and is received in pace is verified under every policy, with one
   exception: a single commitment has nothing to be measured against, and is rejected as soon as
   any ratio is required.
   */
  lemma PacedVerdict<D>(h: Hasher<D>, proof: Proof, who: Participant, rows: seq<Stored<D>>, policy: Policy)
    requires policy.Valid() && rows != [] && WellShaped(rows)
    requires Attests(h, proof, who, rows) && Paced(rows, policy)
    ensures Judge(h, proof, who, rows, policy).Verified? <==> |rows| > 1 || policy.minimumRatio <= RATIO_EPSILON
  {
    PacedIsOrdered(rows, policy);
    PacedKeepsCadence(rows, |rows|, policy);
    PacedIsObserved(rows, policy);
    AttestedFrames(h, proof, who, rows);
    hide Attests, Ordered, ObservedEnough, ScanTo, Paced, Cadence;
    VerdictIsExact(h, proof, who, rows, policy);
  }
}
