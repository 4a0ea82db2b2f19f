/**
 What a verified verdict says about times of receipt, in terms of the frames and the times alone: no
 stretch of rows announces more frames than the burst and the time it took allow, and the whole
 upload lasted as long as the required ratio of its frames.
 */
module CommitmentCadence {
  import opened Wrappers
  import opened CommitmentChain
  import opened CommitmentStore
  import opened CommitmentPacing

  /** The frames that rows i to j - 1 announce. */
  function FramesIn<D>(rows: seq<Stored<D>>, i: nat, j: nat): nat
    requires i <= j <= |rows| && WellShaped(rows)
    decreases j
  {
    if i == j then 0 else FramesIn(rows, i, j - 1) + FramesOf(rows[j - 1].submission)
  }

  /** The frames that some time pays for. */
  function FramesFor(elapsedMs: int, policy: Policy): real {
    var perFrame := policy.fixedDtMs * policy.minimumRatio;
    if perFrame > 0.0 then elapsedMs as real / perFrame else 0.0
  }

  /** Rows i to j - 1 stay within the burst and the time between the first and the last of them. */
  ghost predicate Within<D>(rows: seq<Stored<D>>, i: nat, j: nat, policy: Policy, slack: real)
    requires i < j <= |rows| && WellShaped(rows)
  {
    FramesIn(rows, i, j) as real <=
      CADENCE_BURST_FRAMES + FramesFor(rows[j - 1].receivedAtMs - rows[i].receivedAtMs, policy)
        + (j - i) as real * slack
  }

  /** Every stretch of the rows does. */
  ghost predicate AllWithin<D>(rows: seq<Stored<D>>, policy: Policy, slack: real)
    requires WellShaped(rows)
  {
    forall i, j :: 0 <= i < j <= |rows| ==> Within(rows, i, j, policy, slack)
  }

  /** The upload lasted long enough; a single row has nothing to be measured against. */
  ghost predicate LongEnough<D>(rows: seq<Stored<D>>, policy: Policy)
    requires rows != [] && WellShaped(rows)
  {
    if |rows| == 1 then policy.minimumRatio <= RATIO_EPSILON
    else
      (rows[|rows| - 1].receivedAtMs - rows[0].receivedAtMs) as real
        >= (policy.minimumRatio - RATIO_EPSILON) * (FramesIn(rows, 1, |rows|) as real * policy.fixedDtMs)
  }

  // ---------------------------------------------------------------- arithmetic

  lemma FramesForAdds(a: int, b: int, policy: Policy)
    ensures FramesFor(a + b, policy) == FramesFor(a, policy) + FramesFor(b, policy)
    ensures FramesFor(0, policy) == 0.0
  {
    var perFrame := policy.fixedDtMs * policy.minimumRatio;
    if perFrame > 0.0 { QuotientAdds(a as real, b as real, perFrame); }
  }

  lemma QuotientAdds(a: real, b: real, c: real)
    requires c > 0.0
    ensures (a + b) / c == a / c + b / c && 0.0 / c == 0.0
  {
    assert (a / c + b / c) * c == a + b;
  }

  lemma SlackAdds(n: nat, slack: real)
    ensures (n + 1) as real * slack == n as real * slack + slack
  {
  }

  /** The allowance of row j, given what the rows before it left. */
  lemma AllowanceOf<D>(rows: seq<Stored<D>>, j: nat, policy: Policy, available: real)
    requires j < |rows| && policy.Valid() && policy.minimumRatio > 0.0
    ensures
      Allowance(rows, j, policy, available) ==
        MinReal(CADENCE_BURST_FRAMES,
                if j == 0 then available
                else available + FramesFor(rows[j].receivedAtMs - rows[j - 1].receivedAtMs, policy))
  {
    assert policy.fixedDtMs * policy.minimumRatio > 0.0;
    FramesForAdds(0, 0, policy);
  }

  // ---------------------------------------------------------------- rows that pass stay within the burst

  /** What is left of the allowance after rows i to j - 1, at most. */
  ghost predicate LeavesAtMost<D>(rows: seq<Stored<D>>, i: nat, j: nat, policy: Policy, remaining: real)
    requires i < j <= |rows| && WellShaped(rows)
  {
    remaining + FramesIn(rows, i, j) as real <=
      CADENCE_BURST_FRAMES + FramesFor(rows[j - 1].receivedAtMs - rows[i].receivedAtMs, policy)
        + (j - i) as real * CADENCE_FRAME_TOLERANCE
  }

  lemma {:induction false} PassedLeaves<D>(rows: seq<Stored<D>>, i: nat, j: nat, policy: Policy)
    requires i < j <= |rows| && WellShaped(rows) && policy.Valid() && policy.minimumRatio > 0.0
    requires Cadence(rows, j, policy).Some?
    ensures Cadence(rows, j, policy).value >= 0.0
    ensures LeavesAtMost(rows, i, j, policy, Cadence(rows, j, policy).value)
    decreases j
  {
    var available := Cadence(rows, j - 1, policy).value;
    var allowance := Allowance(rows, j - 1, policy, available);
    var frames := FramesOf(rows[j - 1].submission);
    AllowanceOf(rows, j - 1, policy, available);
    FramesForAdds(0, 0, policy);
    SlackAdds(j - 1 - i, CADENCE_FRAME_TOLERANCE);
    assert Spend(allowance, frames) + frames as real <= allowance + CADENCE_FRAME_TOLERANCE;
    assert FramesIn(rows, i, j) == FramesIn(rows, i, j - 1) + frames;
    if i == j - 1 {
      assert FramesIn(rows, i, i) == 0;
    } else {
      PassedLeaves(rows, i, j - 1, policy);
      FramesForAdds(rows[j - 2].receivedAtMs - rows[i].receivedAtMs,
                    rows[j - 1].receivedAtMs - rows[j - 2].receivedAtMs, policy);
    }
    hide FramesFor, Allowance, Spend;
  }

  lemma PassedIsWithin<D>(rows: seq<Stored<D>>, policy: Policy)
    requires WellShaped(rows) && policy.Valid() && policy.minimumRatio > 0.0 && Cadence(rows, |rows|, policy).Some?
    ensures AllWithin(rows, policy, CADENCE_FRAME_TOLERANCE)
  {
    forall i, j | 0 <= i < j <= |rows| ensures Within(rows, i, j, policy, CADENCE_FRAME_TOLERANCE) {
      PrefixPasses(rows, j, |rows|, policy);
      PassedLeaves(rows, i, j, policy);
    }
  }

  lemma {:induction false} PrefixPasses<D>(rows: seq<Stored<D>>, j: nat, n: nat, policy: Policy)
    requires j <= n <= |rows| && WellShaped(rows) && Cadence(rows, n, policy).Some?
    ensures Cadence(rows, j, policy).Some?
  {
    if j < n { PrefixPasses(rows, j, n - 1, policy); }
  }

  // ---------------------------------------------------------------- rows within the burst pass

  /** What is left of the allowance after rows i to j - 1, at least. */
  ghost predicate LeavesAtLeast<D>(rows: seq<Stored<D>>, i: nat, j: nat, policy: Policy, remaining: real)
    requires i < j <= |rows| && WellShaped(rows)
  {
    remaining + FramesIn(rows, i, j) as real >=
      CADENCE_BURST_FRAMES + FramesFor(rows[j - 1].receivedAtMs - rows[i].receivedAtMs, policy)
  }

  /** Some stretch that ends here accounts for all of the allowance that is gone. */
  lemma {:induction false} WithinPasses<D>(rows: seq<Stored<D>>, j: nat, policy: Policy) returns (i: nat)
    requires 0 < j <= |rows| && WellShaped(rows) && policy.Valid() && policy.minimumRatio > 0.0
    requires AllWithin(rows, policy, 0.0)
    ensures Cadence(rows, j, policy).Some? && i < j
    ensures LeavesAtLeast(rows, i, j, policy, Cadence(rows, j, policy).value)
    decreases j
  {
    FramesForAdds(0, 0, policy);
    var k := j - 1;
    var available := CADENCE_BURST_FRAMES;
    if k > 0 {
      i := WithinPasses(rows, k, policy);
      available := Cadence(rows, k, policy).value;
      FramesForAdds(rows[k - 1].receivedAtMs - rows[i].receivedAtMs,
                    rows[k].receivedAtMs - rows[k - 1].receivedAtMs, policy);
    }
    AllowanceOf(rows, k, policy, available);
    var allowance := Allowance(rows, k, policy, available);
    if k == 0 || allowance == CADENCE_BURST_FRAMES { i := k; }
    assert FramesIn(rows, i, j) == FramesIn(rows, i, k) + FramesOf(rows[k].submission);
    assert FramesIn(rows, k, k) == 0;
    assert Within(rows, i, j, policy, 0.0);
    hide FramesFor, Allowance, AllWithin;
  }

  // ---------------------------------------------------------------- the whole upload

  lemma {:induction false} FramesAfterFirst<D>(rows: seq<Stored<D>>, j: nat)
    requires 0 < j <= |rows| && WellShaped(rows)
    ensures FramesTo(rows, j) == FramesOf(rows[0].submission) + FramesIn(rows, 1, j)
    decreases j
  {
    if j == 1 {
      assert FramesTo(rows, 1) == FramesTo(rows, 0) + FramesOf(rows[0].submission);
    } else {
      FramesAfterFirst(rows, j - 1);
    }
  }

  lemma RatioReached(observed: real, observable: real, minimum: real)
    requires observable > 0.0 && observed >= 0.0 && minimum <= 1.0
    ensures MinReal(1.0, observed / observable) + RATIO_EPSILON >= minimum <==>
            observed >= (minimum - RATIO_EPSILON) * observable
  {
    var q := observed / observable;
    assert q * observable == observed;
    var least := minimum - RATIO_EPSILON;
    if q < least { ProductBelow(q, least, observable); }
    if q > least { ProductBelow(least, q, observable); }
  }

  /** The ratio test is a test on the time from the first row to the last. */
  lemma ObservedIsLongEnough<D>(rows: seq<Stored<D>>, policy: Policy)
    requires rows != [] && WellShaped(rows) && policy.Valid() && Ordered(rows)
    ensures ObservedEnough(rows, FramesTo(rows, |rows|), policy) <==> LongEnough(rows, policy)
  {
    FramesAfterFirst(rows, |rows|);
    FramesGrow(rows, |rows|);
    FirstIsEarliest(rows, |rows| - 1);
    hide FramesTo, FramesIn, Ordered, FramesOf;
    if |rows| > 1 { ManyAreLongEnough(rows, FramesIn(rows, 1, |rows|), policy); }
  }

  lemma ManyAreLongEnough<D>(rows: seq<Stored<D>>, frames: nat, policy: Policy)
    requires |rows| > 1 && WellShaped(rows) && policy.Valid() && frames > 0
    requires rows[0].receivedAtMs <= rows[|rows| - 1].receivedAtMs
    ensures
      ObservedEnough(rows, FramesOf(rows[0].submission) + frames, policy) <==>
        (rows[|rows| - 1].receivedAtMs - rows[0].receivedAtMs) as real
          >= (policy.minimumRatio - RATIO_EPSILON) * (frames as real * policy.fixedDtMs)
  {
    hide FramesOf;
    ProductBelow(0.0, frames as real, policy.fixedDtMs);
    var observed := (rows[|rows| - 1].receivedAtMs - rows[0].receivedAtMs) as real;
    RatioReached(observed, frames as real * policy.fixedDtMs, policy.minimumRatio);
  }

  lemma {:induction false} FirstIsEarliest<D>(rows: seq<Stored<D>>, i: nat)
    requires i < |rows| && Ordered(rows)
    ensures rows[0].receivedAtMs <= rows[i].receivedAtMs
  {
    if i > 0 { FirstIsEarliest(rows, i - 1); }
  }

  /**
   A verified upload keeps every stretch of its rows within the burst and its time, up to the
   tolerance, and lasted long enough.
   */
  lemma VerifiedIsWithin<D>(h: Hasher<D>, proof: Proof, who: Participant, rows: seq<Stored<D>>, policy: Policy)
    requires policy.Valid() && rows != [] && WellShaped(rows) && Judge(h, proof, who, rows, policy).Verified?
    ensures policy.minimumRatio > 0.0 ==> AllWithin(rows, policy, CADENCE_FRAME_TOLERANCE)
    ensures LongEnough(rows, policy)
  {
    VerdictIsExact(h, proof, who, rows, policy);
    AttestedFrames(h, proof, who, rows);
    ObservedIsLongEnough(rows, policy);
    hide Judge, Attests, Ordered, ObservedEnough, LongEnough, AllWithin;
    if policy.minimumRatio > 0.0 { PassedIsWithin(rows, policy); }
  }

  /** An attesting upload in order of receipt that does so without the tolerance is verified. */
  lemma WithinIsVerified<D>(h: Hasher<D>, proof: Proof, who: Participant, rows: seq<Stored<D>>, policy: Policy)
    requires policy.Valid() && rows != [] && WellShaped(rows)
    requires Attests(h, proof, who, rows) && Ordered(rows) && LongEnough(rows, policy)
    requires policy.minimumRatio > 0.0 ==> AllWithin(rows, policy, 0.0)
    ensures Judge(h, proof, who, rows, policy).Verified?
  {
    AttestedFrames(h, proof, who, rows);
    ObservedIsLongEnough(rows, policy);
    hide Judge, Attests, Ordered, ObservedEnough, LongEnough, AllWithin;
    if policy.minimumRatio > 0.0 {
      var _ := WithinPasses(rows, |rows|, policy);
    } else {
      NoMinimumKeepsCadence(rows, |rows|, policy);
    }
    VerdictIsExact(h, proof, who, rows, policy);
  }
}
