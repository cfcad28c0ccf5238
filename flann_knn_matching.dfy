/** The decision step of the FLANN k-nearest-neighbour classifier: the
    distance-ratio vote over a query image's descriptor matches, the two
    normalised running maxima over the reference images, the choice between
    them, and the batch bookkeeping around it (keys, error set, error rate).

    The matcher itself is not modelled: its `knnMatch` result for k = 2, the
    descriptor count of the query image and of every reference image, and
    the list of (filename, label) pairs it was trained with are inputs. */
module FlannKnnMatching {
  import opened CppStd
  import opened LabelledImages
  import StdMap

  /** Lowe's distance ratio: a best match counts only if it is clearly
      closer than the second best. */
  const Ratio: real := 0.8
  const GoodMatchPercentThreshold: real := 4.499
  const GoodMatchCntThreshold: nat := 10
  const UnknownLabel: string := "unknown"

  /** One neighbour returned by the index: the reference image it belongs
      to and its descriptor distance. */
  datatype DMatch = DMatch(imgIdx: int, distance: real)

  /** The result record of one query image. */
  datatype FnnMatchResult = FnnMatchResult(
    expectedLabel: string,
    evaluatedLabel: string,
    maxGoodMatchPercentTest: real,
    maxGoodMatchPercentTraining: real,
    maxGoodMatchCnt: int)

  // ---------------------------------------------------------------------
  // Votes

  /** A query descriptor's neighbour list passes the ratio test. */
  predicate IsGoodMatch(knnMatchPair: seq<DMatch>) {
    |knnMatchPair| > 1 && knnMatchPair[0].distance < Ratio * knnMatchPair[1].distance
  }

  /** The number of good matches whose best neighbour lies in image `imgIdx`. */
  function VotesFor(knnMatches: seq<seq<DMatch>>, imgIdx: int): (votes: nat)
    ensures votes <= |knnMatches|
  {
    if knnMatches == [] then 0
    else
      var last := knnMatches[|knnMatches| - 1];
      VotesFor(knnMatches[..|knnMatches| - 1], imgIdx)
        + (if IsGoodMatch(last) && last[0].imgIdx == imgIdx then 1 else 0)
  }

  /** The number of query descriptors whose matches pass the ratio test. */
  function GoodMatchTotal(knnMatches: seq<seq<DMatch>>): (total: nat)
    ensures total <= |knnMatches|
  {
    if knnMatches == [] then 0
    else
      GoodMatchTotal(knnMatches[..|knnMatches| - 1])
        + (if IsGoodMatch(knnMatches[|knnMatches| - 1]) then 1 else 0)
  }

  /** Every good match names one of the `imageCnt` reference images, so
      the vote vector may be indexed by it. */
  predicate VotesInRange(knnMatches: seq<seq<DMatch>>, imageCnt: nat) {
    forall k :: 0 <= k < |knnMatches| && IsGoodMatch(knnMatches[k]) ==>
      0 <= knnMatches[k][0].imgIdx < imageCnt
  }

  /** The vote count of every reference image. */
  function Tally(knnMatches: seq<seq<DMatch>>, imageCnt: nat): (cnts: seq<nat>)
    ensures |cnts| == imageCnt
    ensures forall i :: 0 <= i < imageCnt ==> cnts[i] == VotesFor(knnMatches, i)
  {
    seq(imageCnt, i => VotesFor(knnMatches, i))
  }

  function Sum(s: seq<nat>): nat {
    if s == [] then 0 else Sum(s[..|s| - 1]) + s[|s| - 1]
  }

  lemma {:induction false} SumUpdate(s: seq<nat>, i: nat, v: nat)
    requires i < |s|
    ensures Sum(s[i := v]) == Sum(s) - s[i] + v
  {
    var n := |s| - 1;
    assert s[i := v][..n] == if i < n then s[..n][i := v] else s[..n];
    if i < n {
      SumUpdate(s[..n], i, v);
    }
  }

  lemma {:induction false} ElementAtMostSum(s: seq<nat>, i: nat)
    requires i < |s|
    ensures s[i] <= Sum(s)
  {
    if i < |s| - 1 {
      ElementAtMostSum(s[..|s| - 1], i);
    }
  }

  /** A query descriptor adds one vote, to its best neighbour's image, only
      when it passes the ratio test; no other count changes. */
  lemma OneMatchOneVote(knnMatches: seq<seq<DMatch>>, knnMatchPair: seq<DMatch>, imgIdx: int)
    ensures VotesFor(knnMatches + [knnMatchPair], imgIdx) ==
      VotesFor(knnMatches, imgIdx)
        + (if IsGoodMatch(knnMatchPair) && knnMatchPair[0].imgIdx == imgIdx then 1 else 0)
  {
    assert (knnMatches + [knnMatchPair])[..|knnMatches|] == knnMatches;
  }

  /** The vote loop (main.cpp lines 116-123): one counter per reference
      image, each incremented by the good matches that pick that image. */
  method CountGoodMatches(knnMatches: seq<seq<DMatch>>, imageCnt: nat) returns (goodMatchCnts: seq<nat>)
    requires VotesInRange(knnMatches, imageCnt)
    ensures |goodMatchCnts| == imageCnt
    ensures forall i :: 0 <= i < imageCnt ==> goodMatchCnts[i] == VotesFor(knnMatches, i)
    ensures Sum(goodMatchCnts) == GoodMatchTotal(knnMatches) <= |knnMatches|
  {
    var cnts := new nat[imageCnt](_ => 0);
    assert Sum(cnts[..]) == 0 by {
      ZeroSum(cnts[..]);
    }
    for k := 0 to |knnMatches|
      invariant forall i :: 0 <= i < imageCnt ==> cnts[i] == VotesFor(knnMatches[..k], i)
      invariant Sum(cnts[..]) == GoodMatchTotal(knnMatches[..k])
    {
      var knnMatchPair := knnMatches[k];
      assert knnMatches[..k + 1][..k] == knnMatches[..k];
      if |knnMatchPair| > 1 && knnMatchPair[0].distance < Ratio * knnMatchPair[1].distance {
        var imgIdx := knnMatchPair[0].imgIdx;
        SumUpdate(cnts[..], imgIdx, cnts[imgIdx] + 1);
        cnts[imgIdx] := cnts[imgIdx] + 1;
      }
    }
    assert knnMatches[..|knnMatches|] == knnMatches;
    goodMatchCnts := cnts[..];
  }

  lemma {:induction false} ZeroSum(s: seq<nat>)
    requires forall i :: 0 <= i < |s| ==> s[i] == 0
    ensures Sum(s) == 0
  {
    if s != [] {
      ZeroSum(s[..|s| - 1]);
    }
  }

  // ---------------------------------------------------------------------
  // Percentages and the two running maxima

  /** `100 * cnt / rows`, or 0 when there are no rows. */
  function GoodMatchPercent(cnt: nat, rows: nat): (pct: real)
    ensures pct >= 0.0
    ensures rows == 0 ==> pct == 0.0
    ensures rows > 0 ==> pct * rows as real == 100.0 * cnt as real
    ensures cnt <= rows ==> pct <= 100.0
  {
    if rows > 0 then 100.0 * cnt as real / rows as real else 0.0
  }

  /** Every image's votes over the query image's descriptor count. */
  function TestPercents(cnts: seq<nat>, queryRows: nat): (pcts: seq<real>)
    ensures |pcts| == |cnts|
    ensures forall i :: 0 <= i < |cnts| ==> pcts[i] == GoodMatchPercent(cnts[i], queryRows)
  {
    seq(|cnts|, i requires 0 <= i < |cnts| => GoodMatchPercent(cnts[i], queryRows))
  }

  /** Every image's votes over its own descriptor count. */
  function TrainingPercents(cnts: seq<nat>, trainRows: seq<nat>): (pcts: seq<real>)
    requires |trainRows| <= |cnts|
    ensures |pcts| == |trainRows|
    ensures forall i :: 0 <= i < |trainRows| ==> pcts[i] == GoodMatchPercent(cnts[i], trainRows[i])
  {
    seq(|trainRows|, i requires 0 <= i < |trainRows| => GoodMatchPercent(cnts[i], trainRows[i]))
  }

  /** Image `i` competes on a side: more than 10 votes and a percentage
      above 4.499 on that side's normalisation. */
  predicate IsCandidate(cnts: seq<nat>, pcts: seq<real>, i: nat)
    requires i < |cnts| && i < |pcts|
  {
    cnts[i] > GoodMatchCntThreshold && pcts[i] > GoodMatchPercentThreshold
  }

  /** Image `k` wins a side among the first `n` images: it competes, no
      competitor has a larger percentage, and every earlier competitor has
      a strictly smaller one. */
  predicate IsSideWinner(cnts: seq<nat>, pcts: seq<real>, n: nat, k: int)
    requires n <= |cnts| && n <= |pcts|
  {
    && 0 <= k < n
    && IsCandidate(cnts, pcts, k)
    && (forall j :: 0 <= j < n && IsCandidate(cnts, pcts, j) ==> pcts[j] <= pcts[k])
    && (forall j :: 0 <= j < k && IsCandidate(cnts, pcts, j) ==> pcts[j] < pcts[k])
  }

  /** The winner of a side among the first `n` images, -1 if nobody competes. */
  function BestIndex(cnts: seq<nat>, pcts: seq<real>, n: nat): (b: int)
    requires n <= |cnts| && n <= |pcts|
    ensures -1 <= b < n
    ensures b == -1 <==> forall j :: 0 <= j < n ==> !IsCandidate(cnts, pcts, j)
    ensures b != -1 ==> IsSideWinner(cnts, pcts, n, b)
  {
    if n == 0 then -1
    else
      var b := BestIndex(cnts, pcts, n - 1);
      if IsCandidate(cnts, pcts, n - 1) && (b == -1 || pcts[b] < pcts[n - 1]) then n - 1 else b
  }

  /** A side has at most one winner: the earliest image with the largest
      percentage. */
  lemma SideWinnerUnique(cnts: seq<nat>, pcts: seq<real>, n: nat, k: int)
    requires n <= |cnts| && n <= |pcts|
    requires IsSideWinner(cnts, pcts, n, k)
    ensures k == BestIndex(cnts, pcts, n)
  {
    var b := BestIndex(cnts, pcts, n);
    assert pcts[b] <= pcts[k] && pcts[k] <= pcts[b];
  }

  /** What one side of the decision reports: its winner (or -1), the
      winner's percentage and the winner's vote count (0.0 and 0 with no
      winner, the variables' initial values). */
  datatype Side = Side(bestIndex: int, maxPercent: real, maxCnt: nat)

  function SideOf(cnts: seq<nat>, pcts: seq<real>, n: nat): (side: Side)
    requires n <= |cnts| && n <= |pcts|
    ensures side.bestIndex == -1 ==> side == Side(-1, 0.0, 0)
    ensures side.bestIndex != -1 ==>
      && IsSideWinner(cnts, pcts, n, side.bestIndex)
      && side.maxPercent == pcts[side.bestIndex]
      && side.maxCnt == cnts[side.bestIndex]
  {
    var b := BestIndex(cnts, pcts, n);
    if b == -1 then Side(-1, 0.0, 0) else Side(b, pcts[b], cnts[b])
  }

  /** One step of a side's running maximum: image `n` takes over exactly
      when it competes and beats the maximum so far (initially 0.0). */
  lemma SideOfStep(cnts: seq<nat>, pcts: seq<real>, n: nat)
    requires n < |cnts| && n < |pcts|
    ensures SideOf(cnts, pcts, n + 1) ==
      if IsCandidate(cnts, pcts, n) && SideOf(cnts, pcts, n).maxPercent < pcts[n]
      then Side(n, pcts[n], cnts[n]) else SideOf(cnts, pcts, n)
  {
    var b := BestIndex(cnts, pcts, n);
    assert b != -1 ==> pcts[b] > GoodMatchPercentThreshold;
  }

  function TestSide(cnts: seq<nat>, queryRows: nat, trainRows: seq<nat>): Side
    requires |trainRows| <= |cnts|
  {
    SideOf(cnts, TestPercents(cnts, queryRows), |trainRows|)
  }

  function TrainingSide(cnts: seq<nat>, trainRows: seq<nat>): Side
    requires |trainRows| <= |cnts|
  {
    SideOf(cnts, TrainingPercents(cnts, trainRows), |trainRows|)
  }

  /** The reference side is taken only when its maximum is strictly larger. */
  function ChosenIndex(cnts: seq<nat>, queryRows: nat, trainRows: seq<nat>): (best: int)
    requires |trainRows| <= |cnts|
    ensures -1 <= best < |trainRows|
  {
    var test := TestSide(cnts, queryRows, trainRows);
    var training := TrainingSide(cnts, trainRows);
    if test.maxPercent < training.maxPercent then training.bestIndex else test.bestIndex
  }

  /** The result the decision writes for vote counts `cnts`. */
  function Decide(cnts: seq<nat>, queryRows: nat, trainRows: seq<nat>,
                  trainedImg2LabelList: seq<(string, string)>, expectedLabel: string): (r: FnnMatchResult)
    requires |trainRows| <= |cnts| == |trainedImg2LabelList|
    ensures r.expectedLabel == expectedLabel
    ensures r.evaluatedLabel == UnknownLabel
      || exists i :: 0 <= i < |trainRows| && r.evaluatedLabel == trainedImg2LabelList[i].1
  {
    var test := TestSide(cnts, queryRows, trainRows);
    var training := TrainingSide(cnts, trainRows);
    var best := ChosenIndex(cnts, queryRows, trainRows);
    FnnMatchResult(
      expectedLabel,
      if best != -1 then trainedImg2LabelList[best].1 else UnknownLabel,
      test.maxPercent,
      training.maxPercent,
      if test.maxPercent < training.maxPercent then training.maxCnt else test.maxCnt)
  }

  /** Image `j` competes on at least one side. */
  predicate Competes(cnts: seq<nat>, queryRows: nat, trainRows: seq<nat>, j: nat)
    requires j < |trainRows| <= |cnts|
  {
    cnts[j] > GoodMatchCntThreshold
    && (GoodMatchPercent(cnts[j], queryRows) > GoodMatchPercentThreshold
        || GoodMatchPercent(cnts[j], trainRows[j]) > GoodMatchPercentThreshold)
  }

  /** The outcome of the decision: "unknown" with zeros exactly when no
      image competes on either side; otherwise the label and vote count of
      the chosen image, which has more than 10 votes. */
  lemma {:induction false} DecideOutcome(cnts: seq<nat>, queryRows: nat, trainRows: seq<nat>,
                                         labels: seq<(string, string)>, expectedLabel: string)
    requires |trainRows| <= |cnts| == |labels|
    ensures -1 <= ChosenIndex(cnts, queryRows, trainRows) < |trainRows|
    ensures ChosenIndex(cnts, queryRows, trainRows) == -1 <==>
      forall j :: 0 <= j < |trainRows| ==> !Competes(cnts, queryRows, trainRows, j)
    ensures ChosenIndex(cnts, queryRows, trainRows) == -1 ==>
      Decide(cnts, queryRows, trainRows, labels, expectedLabel)
        == FnnMatchResult(expectedLabel, UnknownLabel, 0.0, 0.0, 0)
    ensures ChosenIndex(cnts, queryRows, trainRows) != -1 ==>
      var best := ChosenIndex(cnts, queryRows, trainRows);
      var r := Decide(cnts, queryRows, trainRows, labels, expectedLabel);
      r.evaluatedLabel == labels[best].1 && r.maxGoodMatchCnt == cnts[best] > GoodMatchCntThreshold
  {
    var n := |trainRows|;
    var tp := TestPercents(cnts, queryRows);
    var rp := TrainingPercents(cnts, trainRows);
    var bt := BestIndex(cnts, tp, n);
    var br := BestIndex(cnts, rp, n);
    assert forall j :: 0 <= j < n ==>
      (Competes(cnts, queryRows, trainRows, j) <==> IsCandidate(cnts, tp, j) || IsCandidate(cnts, rp, j));
    if bt != -1 {
      assert tp[bt] > GoodMatchPercentThreshold;
    }
    if br != -1 {
      assert rp[br] > GoodMatchPercentThreshold;
    }
  }

  /** Which side decides: the reference side exactly when its maximum is
      strictly larger, the query side on a tie; both maxima are reported
      whichever image each comes from. */
  lemma {:induction false} DecideSides(cnts: seq<nat>, queryRows: nat, trainRows: seq<nat>,
                                       labels: seq<(string, string)>, expectedLabel: string)
    requires |trainRows| <= |cnts| == |labels|
    ensures var r := Decide(cnts, queryRows, trainRows, labels, expectedLabel);
      var tp := TestPercents(cnts, queryRows);
      forall k :: IsSideWinner(cnts, tp, |trainRows|, k) ==> r.maxGoodMatchPercentTest == tp[k]
    ensures var r := Decide(cnts, queryRows, trainRows, labels, expectedLabel);
      var rp := TrainingPercents(cnts, trainRows);
      forall k :: IsSideWinner(cnts, rp, |trainRows|, k) ==> r.maxGoodMatchPercentTraining == rp[k]
    ensures var r := Decide(cnts, queryRows, trainRows, labels, expectedLabel);
      var rp := TrainingPercents(cnts, trainRows);
      r.maxGoodMatchPercentTraining > r.maxGoodMatchPercentTest ==>
        IsSideWinner(cnts, rp, |trainRows|, ChosenIndex(cnts, queryRows, trainRows))
    ensures var r := Decide(cnts, queryRows, trainRows, labels, expectedLabel);
      var tp := TestPercents(cnts, queryRows);
      r.maxGoodMatchPercentTraining <= r.maxGoodMatchPercentTest
        && ChosenIndex(cnts, queryRows, trainRows) != -1 ==>
        IsSideWinner(cnts, tp, |trainRows|, ChosenIndex(cnts, queryRows, trainRows))
  {
    var n := |trainRows|;
    var tp := TestPercents(cnts, queryRows);
    var rp := TrainingPercents(cnts, trainRows);
    forall k | IsSideWinner(cnts, tp, n, k) ensures k == BestIndex(cnts, tp, n) {
      SideWinnerUnique(cnts, tp, n, k);
    }
    forall k | IsSideWinner(cnts, rp, n, k) ensures k == BestIndex(cnts, rp, n) {
      SideWinnerUnique(cnts, rp, n, k);
    }
    var bt := BestIndex(cnts, tp, n);
    var br := BestIndex(cnts, rp, n);
    if br != -1 {
      assert rp[br] > GoodMatchPercentThreshold;
    }
  }

  /** An image with 10 votes or fewer is never chosen, whatever its
      percentages. */
  lemma LowVoteCountNeverWins(cnts: seq<nat>, queryRows: nat, trainRows: seq<nat>, i: nat)
    requires |trainRows| <= |cnts| && i < |cnts|
    requires cnts[i] <= GoodMatchCntThreshold
    ensures ChosenIndex(cnts, queryRows, trainRows) != i
  {
  }

  /** The chosen image's percentage is the largest of all competitors' on
      either side: the reported maximum bounds every competitor. */
  lemma {:induction false} ReportedMaximumBoundsCompetitors(cnts: seq<nat>, queryRows: nat, trainRows: seq<nat>,
                                                           labels: seq<(string, string)>, expectedLabel: string, j: nat)
    requires |trainRows| <= |cnts| == |labels| && j < |trainRows|
    requires cnts[j] > GoodMatchCntThreshold
    ensures var r := Decide(cnts, queryRows, trainRows, labels, expectedLabel);
      var m := if r.maxGoodMatchPercentTest < r.maxGoodMatchPercentTraining
               then r.maxGoodMatchPercentTraining else r.maxGoodMatchPercentTest;
      (GoodMatchPercent(cnts[j], queryRows) > GoodMatchPercentThreshold ==> GoodMatchPercent(cnts[j], queryRows) <= m)
      && (GoodMatchPercent(cnts[j], trainRows[j]) > GoodMatchPercentThreshold ==> GoodMatchPercent(cnts[j], trainRows[j]) <= m)
  {
    var n := |trainRows|;
    var tp := TestPercents(cnts, queryRows);
    var rp := TrainingPercents(cnts, trainRows);
    var r := Decide(cnts, queryRows, trainRows, labels, expectedLabel);
    var bt := BestIndex(cnts, tp, n);
    var br := BestIndex(cnts, rp, n);
    assert r.maxGoodMatchPercentTest == if bt == -1 then 0.0 else tp[bt];
    assert r.maxGoodMatchPercentTraining == if br == -1 then 0.0 else rp[br];
    if IsCandidate(cnts, tp, j) {
      assert tp[j] <= tp[bt];
    }
    if IsCandidate(cnts, rp, j) {
      assert rp[j] <= rp[br];
    }
  }

  /** With votes tallied from one neighbour list per query descriptor, the
      query-side percentages, and so their maximum, lie within [0, 100]. */
  lemma QueryPercentBounded(knnMatches: seq<seq<DMatch>>, queryRows: nat, trainRows: seq<nat>,
                            labels: seq<(string, string)>, expectedLabel: string)
    requires |knnMatches| == queryRows && |trainRows| <= |labels|
    ensures var r := Decide(Tally(knnMatches, |labels|), queryRows, trainRows, labels, expectedLabel);
      0.0 <= r.maxGoodMatchPercentTest <= 100.0
  {
    var cnts := Tally(knnMatches, |labels|);
    TallySum(knnMatches, |labels|);
    forall i | 0 <= i < |cnts| ensures cnts[i] <= queryRows {
      ElementAtMostSum(cnts, i);
    }
  }

  /** The tally never hands out more votes than there are good matches. */
  lemma {:induction false} TallySum(knnMatches: seq<seq<DMatch>>, imageCnt: nat)
    ensures Sum(Tally(knnMatches, imageCnt)) <= GoodMatchTotal(knnMatches)
  {
    if knnMatches == [] {
      ZeroSum(Tally(knnMatches, imageCnt));
    } else {
      var n := |knnMatches| - 1;
      var prefix := knnMatches[..n];
      TallySum(prefix, imageCnt);
      var last := knnMatches[n];
      var before := Tally(prefix, imageCnt);
      var after := Tally(knnMatches, imageCnt);
      forall j | 0 <= j < imageCnt
        ensures after[j] == before[j] + (if IsGoodMatch(last) && last[0].imgIdx == j then 1 else 0)
      {
      }
      if IsGoodMatch(last) && 0 <= last[0].imgIdx < imageCnt {
        var i := last[0].imgIdx;
        assert after == before[i := before[i] + 1];
        SumUpdate(before, i, before[i] + 1);
        assert Sum(after) == Sum(before) + 1;
        assert GoodMatchTotal(knnMatches) == GoodMatchTotal(prefix) + 1;
      } else {
        assert after == before;
        assert GoodMatchTotal(knnMatches) >= GoodMatchTotal(prefix);
      }
    }
  }

  /** Example: the reference-side percentage is not bounded by 100: many query
      descriptors may pick one reference image with few descriptors. */
  lemma TrainingPercentCanExceedHundred()
    ensures GoodMatchPercent(20, 10) == 200.0
  {
  }

  /** The loop over the reference images in `FlannBasedKnnMatch`: images
      with 10 votes or fewer are skipped, and each side keeps its running
      maximum, replaced only by a strictly larger percentage above 4.499. */
  method FindBestMatches(goodMatchCnts: seq<nat>, queryRows: nat, trainRows: seq<nat>)
    returns (test: Side, training: Side)
    requires |trainRows| <= |goodMatchCnts|
    ensures test == TestSide(goodMatchCnts, queryRows, trainRows)
    ensures training == TrainingSide(goodMatchCnts, trainRows)
  {
    ghost var tp := TestPercents(goodMatchCnts, queryRows);
    ghost var rp := TrainingPercents(goodMatchCnts, trainRows);

    var maxGoodMatchPercentTest := 0.0;
    var maxGoodMatchPercentTraining := 0.0;
    var maxGoodMatchCntTest := 0;
    var maxGoodMatchCntTraining := 0;
    var bestMatchImageIndexTest := -1;
    var bestMatchImageIndexTraining := -1;
    for imgIndex := 0 to |trainRows|
      invariant SideOf(goodMatchCnts, tp, imgIndex)
        == Side(bestMatchImageIndexTest, maxGoodMatchPercentTest, maxGoodMatchCntTest)
      invariant SideOf(goodMatchCnts, rp, imgIndex)
        == Side(bestMatchImageIndexTraining, maxGoodMatchPercentTraining, maxGoodMatchCntTraining)
    {
      SideOfStep(goodMatchCnts, tp, imgIndex);
      SideOfStep(goodMatchCnts, rp, imgIndex);
      if goodMatchCnts[imgIndex] <= GoodMatchCntThreshold {
        continue;
      }
      var goodMatchPercentTest := GoodMatchPercent(goodMatchCnts[imgIndex], queryRows);
      var goodMatchPercentTraining := GoodMatchPercent(goodMatchCnts[imgIndex], trainRows[imgIndex]);
      if goodMatchPercentTest > GoodMatchPercentThreshold && maxGoodMatchPercentTest < goodMatchPercentTest {
        maxGoodMatchPercentTest := goodMatchPercentTest;
        maxGoodMatchCntTest := goodMatchCnts[imgIndex];
        bestMatchImageIndexTest := imgIndex;
      }
      if goodMatchPercentTraining > GoodMatchPercentThreshold && maxGoodMatchPercentTraining < goodMatchPercentTraining {
        maxGoodMatchPercentTraining := goodMatchPercentTraining;
        maxGoodMatchCntTraining := goodMatchCnts[imgIndex];
        bestMatchImageIndexTraining := imgIndex;
      }
    }

    test := Side(bestMatchImageIndexTest, maxGoodMatchPercentTest, maxGoodMatchCntTest);
    training := Side(bestMatchImageIndexTraining, maxGoodMatchPercentTraining, maxGoodMatchCntTraining);

  }

  /** `FlannBasedKnnMatch`: votes, the loop over the reference images with
      its six running variables, the choice between the two sides, and the
      fields written into `result` (the expected label is left as it was). */
  method FlannBasedKnnMatch(knnMatches: seq<seq<DMatch>>, queryRows: nat, trainRows: seq<nat>,
                            trainedImg2LabelList: seq<(string, string)>, result: FnnMatchResult)
    returns (r: FnnMatchResult)
    requires VotesInRange(knnMatches, |trainedImg2LabelList|)
    requires |trainRows| <= |trainedImg2LabelList|
    ensures r == Decide(Tally(knnMatches, |trainedImg2LabelList|), queryRows, trainRows,
                        trainedImg2LabelList, result.expectedLabel)
  {
    var goodMatchCnts := CountGoodMatches(knnMatches, |trainedImg2LabelList|);
    var test, training := FindBestMatches(goodMatchCnts, queryRows, trainRows);
    var maxGoodMatchPercentTest, maxGoodMatchCntTest, bestMatchImageIndexTest :=
      test.maxPercent, test.maxCnt, test.bestIndex;
    var maxGoodMatchPercentTraining, maxGoodMatchCntTraining, bestMatchImageIndexTraining :=
      training.maxPercent, training.maxCnt, training.bestIndex;

    var maxGoodMatchCnt := maxGoodMatchCntTest;
    var bestMatchImageIndex := bestMatchImageIndexTest;
    if maxGoodMatchPercentTest < maxGoodMatchPercentTraining {
      maxGoodMatchCnt := maxGoodMatchCntTraining;
      bestMatchImageIndex := bestMatchImageIndexTraining;
    }

    var evaluatedLabel := UnknownLabel;
    if bestMatchImageIndex != -1 {
      evaluatedLabel := trainedImg2LabelList[bestMatchImageIndex].1;
    }
    assert goodMatchCnts == Tally(knnMatches, |trainedImg2LabelList|);
    r := result.(evaluatedLabel := evaluatedLabel,
                 maxGoodMatchPercentTest := maxGoodMatchPercentTest,
                 maxGoodMatchPercentTraining := maxGoodMatchPercentTraining,
                 maxGoodMatchCnt := maxGoodMatchCnt);
  }

  // ---------------------------------------------------------------------
  // Worked cases

  /** Example: one reference image "cat" with 100 descriptors, a query with 50, and
      40 votes: 80% against the query, 40% against the reference, and the
      query side decides. */
  lemma OneReferenceImage()
    ensures Decide([40], 50, [100], [("cat.jpg", "cat")], "cat")
      == FnnMatchResult("cat", "cat", 80.0, 40.0, 40)
  {
    assert TestPercents([40], 50)[0] == 80.0;
    assert TrainingPercents([40], [100])[0] == 40.0;
  }

  /** Example: no votes at all: "unknown" with zeros. */
  lemma NoVotes()
    ensures Decide([0, 0], 50, [100, 80], [("a.jpg", "cat"), ("b.jpg", "dog")], "cat")
      == FnnMatchResult("cat", UnknownLabel, 0.0, 0.0, 0)
  {
    DecideOutcome([0, 0], 50, [100, 80], [("a.jpg", "cat"), ("b.jpg", "dog")], "cat");
  }

  /** Example: "dog" with 11 votes and "cat" with 15 against a 200-descriptor query:
      "cat" has 3% against its own 500 descriptors, below the threshold,
      but 7.5% against the query, which beats "dog"'s 5.5%. */
  lemma QuerySideOutvotesReferenceSide()
    ensures Decide([11, 15], 200, [1000, 500], [("d.jpg", "dog"), ("c.jpg", "cat")], "dog").evaluatedLabel == "cat"
  {
    var tp := TestPercents([11, 15], 200);
    var rp := TrainingPercents([11, 15], [1000, 500]);
    assert tp[0] == 5.5 && tp[1] == 7.5;
    assert rp[0] == 1.1 && rp[1] == 3.0;
    assert BestIndex([11, 15], tp, 2) == 1;
    assert BestIndex([11, 15], rp, 2) == -1;
  }

  /** Example: the same votes for any number `dogRows` of "dog"'s own descriptors:
      "dog" wins exactly when it has between 1 and 146 of them, since only
      then does its 1100 / dogRows percent against its own descriptors
      beat "cat"'s 7.5% against the query. */
  lemma QuerySideThreshold(dogRows: nat)
    ensures Decide([11, 15], 200, [dogRows, 500], [("d.jpg", "dog"), ("c.jpg", "cat")], "dog").evaluatedLabel
      == if 0 < dogRows <= 146 then "dog" else "cat"
  {
    var tp := TestPercents([11, 15], 200);
    var rp := TrainingPercents([11, 15], [dogRows, 500]);
    assert tp[0] == 5.5 && tp[1] == 7.5;
    assert rp[1] == 3.0;
    assert BestIndex([11, 15], tp, 2) == 1;
    assert TestSide([11, 15], 200, [dogRows, 500]).maxPercent == 7.5;
    if dogRows == 0 {
      assert rp[0] == 0.0;
      assert BestIndex([11, 15], rp, 2) == -1;
    } else if dogRows <= 146 {
      GoodMatchPercentAbove(11, dogRows, 7.5);
      assert BestIndex([11, 15], rp, 2) == 0;
    } else {
      GoodMatchPercentBelow(11, dogRows, 7.5);
      assert TrainingSide([11, 15], [dogRows, 500]).maxPercent < 7.5;
    }
  }

  /** The percentage exceeds `t` when `cnt` is more than `t` percent of
      `rows`. */
  lemma GoodMatchPercentAbove(cnt: nat, rows: nat, t: real)
    requires rows > 0 && t * rows as real < 100.0 * cnt as real
    ensures GoodMatchPercent(cnt, rows) > t
  {
  }

  /** The percentage stays below `t` when `cnt` is less than `t` percent of
      `rows`. */
  lemma GoodMatchPercentBelow(cnt: nat, rows: nat, t: real)
    requires rows > 0 && t * rows as real > 100.0 * cnt as real
    ensures GoodMatchPercent(cnt, rows) < t
  {
  }

  /** Example: the two sides can pick different images; both maxima are reported
      and the larger (here the reference side's) decides. */
  lemma SidesDisagree()
    ensures Decide([20, 12], 100, [1000, 20], [("a.jpg", "cat"), ("b.jpg", "dog")], "dog")
      == FnnMatchResult("dog", "dog", 20.0, 60.0, 12)
  {
    var tp := TestPercents([20, 12], 100);
    var rp := TrainingPercents([20, 12], [1000, 20]);
    assert tp[0] == 20.0 && tp[1] == 12.0;
    assert rp[0] == 2.0 && rp[1] == 60.0;
    assert BestIndex([20, 12], tp, 2) == 0;
    assert BestIndex([20, 12], rp, 2) == 1;
  }

  /** Example: equal maxima from different images: the query side wins the tie. */
  lemma TieGoesToQuerySide()
    ensures Decide([30, 12], 100, [1000, 40], [("a.jpg", "cat"), ("b.jpg", "dog")], "dog")
      == FnnMatchResult("dog", "cat", 30.0, 30.0, 30)
  {
    var tp := TestPercents([30, 12], 100);
    var rp := TrainingPercents([30, 12], [1000, 40]);
    assert tp[0] == 30.0 && tp[1] == 12.0;
    assert rp[0] == 3.0 && rp[1] == 30.0;
    assert BestIndex([30, 12], tp, 2) == 0;
    assert BestIndex([30, 12], rp, 2) == 1;
  }

  // ---------------------------------------------------------------------
  // The batch

  /** The record a batch image starts with before it is matched. */
  function InitialResult(expectedLabel: string): FnnMatchResult {
    FnnMatchResult(expectedLabel, UnknownLabel, 0.0, 0.0, 0)
  }

  /** The batch entries for (label, filename) pairs, in directory order. */
  function BatchEntries(label2Imgs: seq<(string, string)>): (entries: seq<(string, FnnMatchResult)>)
    ensures |entries| == |label2Imgs|
    ensures forall i :: 0 <= i < |label2Imgs| ==>
      entries[i] == (ImageMapKey(label2Imgs[i].0, label2Imgs[i].1), InitialResult(label2Imgs[i].0))
  {
    seq(|label2Imgs|, i requires 0 <= i < |label2Imgs| =>
      (ImageMapKey(label2Imgs[i].0, label2Imgs[i].1), InitialResult(label2Imgs[i].0)))
  }

  /** The batch loop of the "match" command over a directory: one
      `insert` per image under `label_filename`. */
  method InitBatch(label2Imgs: seq<(string, string)>) returns (img2ResultMap: map<string, FnnMatchResult>)
    ensures img2ResultMap == StdMap.InsertAll(map[], BatchEntries(label2Imgs))
  {
    img2ResultMap := map[];
    for i := 0 to |label2Imgs|
      invariant img2ResultMap == StdMap.InsertAll(map[], BatchEntries(label2Imgs)[..i])
    {
      var imgLabel := label2Imgs[i].0;
      var imgFilename := label2Imgs[i].1;
      var imgMapKey := ImageMapKey(imgLabel, imgFilename);
      assert BatchEntries(label2Imgs)[..i + 1][..i] == BatchEntries(label2Imgs)[..i];
      img2ResultMap := StdMap.Insert(img2ResultMap, imgMapKey, InitialResult(imgLabel));
    }
    assert BatchEntries(label2Imgs)[..|label2Imgs|] == BatchEntries(label2Imgs);
  }

  /** Every image of the batch has a record, which starts as "unknown" with
      zeros. A second image under the same key is dropped silently: the
      record keeps the expected label of the first. */
  lemma BatchRecords(label2Imgs: seq<(string, string)>, i: nat)
    requires i < |label2Imgs|
    ensures var m := StdMap.InsertAll(map[], BatchEntries(label2Imgs));
      var key := ImageMapKey(label2Imgs[i].0, label2Imgs[i].1);
      && key in m
      && m[key].evaluatedLabel == UnknownLabel
      && m[key].maxGoodMatchPercentTest == 0.0 && m[key].maxGoodMatchPercentTraining == 0.0
      && m[key].maxGoodMatchCnt == 0
      && m[key].expectedLabel == label2Imgs[StdMap.FirstIndex(BatchEntries(label2Imgs), key)].0
  {
    var entries := BatchEntries(label2Imgs);
    var key := ImageMapKey(label2Imgs[i].0, label2Imgs[i].1);
    assert entries[i].0 == key;
    StdMap.InsertAllSpec(map[], entries, key);
  }

  /** The record is wrong when the evaluated label differs from the expected. */
  predicate IsError(res: FnnMatchResult) {
    res.evaluatedLabel != res.expectedLabel
  }

  /** The error loop of `WriteResultsToFile`: the records whose evaluated
      label differs from the expected one, under their keys. */
  method CollectErrors(img2ResultMap: map<string, FnnMatchResult>)
    returns (img2ResultErrors: map<string, FnnMatchResult>)
    ensures forall k :: k in img2ResultErrors <==> k in img2ResultMap && IsError(img2ResultMap[k])
    ensures forall k :: k in img2ResultErrors ==> img2ResultErrors[k] == img2ResultMap[k]
  {
    img2ResultErrors := map[];
    var remaining := img2ResultMap.Keys;
    while remaining != {}
      invariant remaining <= img2ResultMap.Keys
      invariant forall k :: k in img2ResultErrors <==>
        k in img2ResultMap && k !in remaining && IsError(img2ResultMap[k])
      invariant forall k :: k in img2ResultErrors ==> img2ResultErrors[k] == img2ResultMap[k]
      decreases remaining
    {
      var k :| k in remaining;
      if img2ResultMap[k].evaluatedLabel != img2ResultMap[k].expectedLabel {
        img2ResultErrors := StdMap.Insert(img2ResultErrors, k, img2ResultMap[k]);
      }
      remaining := remaining - {k};
    }
  }

  /** `100.0 * errors / total` as printed; `None` stands for the NaN an
      empty batch prints. */
  function ErrorRate(errorCnt: nat, total: nat): (rate: Option<real>)
    ensures rate.None? <==> total == 0
    ensures rate.Some? ==> rate.value * total as real == 100.0 * errorCnt as real
    ensures rate.Some? && errorCnt <= total ==> 0.0 <= rate.value <= 100.0
  {
    if total == 0 then None else Some(100.0 * errorCnt as real / total as real)
  }

  /** The keys of the records that are wrong. */
  function ErrorKeys(img2ResultMap: map<string, FnnMatchResult>): set<string> {
    set k | k in img2ResultMap && IsError(img2ResultMap[k])
  }

  /** The printed rate: 100 times the number of wrong records over the
      number of records. The error set never outnumbers the batch, so the
      rate is a percentage. */
  method BatchErrorRate(img2ResultMap: map<string, FnnMatchResult>) returns (rate: Option<real>)
    ensures rate == ErrorRate(|ErrorKeys(img2ResultMap)|, |img2ResultMap|)
    ensures rate.None? <==> |img2ResultMap| == 0
    ensures rate.Some? ==> 0.0 <= rate.value <= 100.0
  {
    var img2ResultErrors := CollectErrors(img2ResultMap);
    assert img2ResultErrors.Keys == ErrorKeys(img2ResultMap);
    assert img2ResultErrors.Keys <= img2ResultMap.Keys;
    SubsetCard(img2ResultErrors.Keys, img2ResultMap.Keys);
    rate := ErrorRate(|img2ResultErrors|, |img2ResultMap|);
  }

  lemma {:induction false} SubsetCard(a: set<string>, b: set<string>)
    requires a <= b
    ensures |a| <= |b|
  {
    if a != {} {
      var x :| x in a;
      SubsetCard(a - {x}, b - {x});
    }
  }

  /** Example: ten records of which three are wrong give 30%. */
  lemma TenRecordsThreeWrong()
    ensures ErrorRate(3, 10) == Some(30.0)
  {
  }

  /** The key under which a record is written to the result file. */
  function ResultFsKey(imgMapKey: string): (key: string)
    requires FitsString(imgMapKey)
    ensures 18 <= |key| <= 18 + |imgMapKey|
    ensures key[..18] == "classifier_result_" && key[18..] == imgMapKey[..|key| - 18]
  {
    "classifier_result_" + Stem(imgMapKey)
  }

  /** The result-file key drops the text from the last dot on. */
  lemma ResultFsKeyDropsExtension(imgMapKey: string)
    requires FitsString(imgMapKey)
    ensures '.' in imgMapKey ==>
      ResultFsKey(imgMapKey) + "." + Extension(imgMapKey) == "classifier_result_" + imgMapKey
    ensures '.' !in imgMapKey ==> ResultFsKey(imgMapKey) == "classifier_result_" + imgMapKey
  {
    if '.' in imgMapKey {
      SplitAtLastDot(imgMapKey);
    }
  }

  /** Example: two images that differ only in their extension are written under the
      same result-file key. */
  lemma ResultFsKeysCollide()
    ensures ResultFsKey(ImageMapKey("cat", "a.jpg")) == ResultFsKey(ImageMapKey("cat", "a.png"))
  {
    assert FindLastOf("cat_a.jpg", '.') == 5;
    assert FindLastOf("cat_a.png", '.') == 5;
  }
}
