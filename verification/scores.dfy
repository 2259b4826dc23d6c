/**
 The per-row class reduction of `calculateScoresAndLabels`: over the class
 channels of one prediction row, the best score (`max`) and a class index that
 attains it (`argMax`). Which index the library reports when several classes tie
 is not stated by any contract here.
 */
module Scores {
  import opened Boxes

  /** The largest value of a non-empty sequence. */
  function Max(s: seq<real>): (m: real)
    requires |s| > 0
    ensures forall j :: 0 <= j < |s| ==> s[j] <= m
    ensures exists j :: 0 <= j < |s| && s[j] == m
  {
    if |s| == 1 then s[0]
    else
      var rest := Max(s[1..]);
      assert forall j :: 1 <= j < |s| ==> s[j] == s[1..][j - 1];
      if s[0] >= rest then s[0] else rest
  }

  /** An index at which a non-empty sequence reaches its largest value. */
  function ArgMax(s: seq<real>): (k: nat)
    requires |s| > 0
    ensures k < |s|
    ensures forall j :: 0 <= j < |s| ==> s[j] <= s[k]
  {
    if |s| == 1 then 0
    else
      var k := ArgMax(s[1..]);
      assert forall j :: 1 <= j < |s| ==> s[j] == s[1..][j - 1];
      if s[0] >= s[1 + k] then 0 else 1 + k
  }

  /** `max` and `argMax` agree: the reported label's value is the reported score. */
  lemma ArgMaxAttainsMax(s: seq<real>)
    requires |s| > 0
    ensures s[ArgMax(s)] == Max(s)
  {
  }

  /** The class channels of a row: the `numClasses` values after the box. */
  function ClassChannels(row: Row, numClasses: nat): (c: seq<real>)
    requires 4 + numClasses <= |row|
    ensures |c| == numClasses
    ensures forall j :: 0 <= j < numClasses ==> c[j] == row[4 + j]
  {
    row[4..4 + numClasses]
  }

  /** Class `labelIndex` scores at least as high as every class channel of `row`. */
  ghost predicate IsBestClass(row: Row, numClasses: nat, labelIndex: nat)
    requires 4 + numClasses <= |row|
  {
    && labelIndex < numClasses
    && forall j :: 4 <= j < 4 + numClasses ==> row[j] <= row[4 + labelIndex]
  }

  /** `score` and `labelIndex` are what the reduction may report for `row`: the label
      is a best class and the score is its channel value, hence the maximum of the
      class channels and nothing else of the row. */
  ghost predicate IsScoreAndLabel(row: Row, numClasses: nat, score: real, labelIndex: nat)
    requires 4 + numClasses <= |row|
  {
    IsBestClass(row, numClasses, labelIndex) && row[4 + labelIndex] == score
  }

  /** The score of one row (`max` over the class axis): the largest class channel. */
  function RowScore(row: Row, numClasses: nat): (score: real)
    requires 0 < numClasses && 4 + numClasses <= |row|
    ensures forall j :: 4 <= j < 4 + numClasses ==> row[j] <= score
    ensures exists j :: 4 <= j < 4 + numClasses && row[j] == score
  {
    Max(ClassChannels(row, numClasses))
  }

  /** The label index of one row (`argMax` over the class axis): a best class. */
  function RowLabel(row: Row, numClasses: nat): (labelIndex: nat)
    requires 0 < numClasses && 4 + numClasses <= |row|
    ensures IsBestClass(row, numClasses, labelIndex)
  {
    ArgMax(ClassChannels(row, numClasses))
  }

  /** One row's reduction reports a best class and its score. */
  lemma RowReduction(row: Row, numClasses: nat)
    requires 0 < numClasses && 4 + numClasses <= |row|
    ensures IsScoreAndLabel(row, numClasses, RowScore(row, numClasses), RowLabel(row, numClasses))
  {
  }

  /** Only the class channels matter: rows that agree on them reduce alike, whatever
      their box channels or any channels past the class table. */
  lemma ReductionReadsOnlyClassChannels(row: Row, row': Row, numClasses: nat)
    requires 0 < numClasses && 4 + numClasses <= |row| && 4 + numClasses <= |row'|
    requires forall j :: 4 <= j < 4 + numClasses ==> row[j] == row'[j]
    ensures RowScore(row, numClasses) == RowScore(row', numClasses)
    ensures RowLabel(row, numClasses) == RowLabel(row', numClasses)
  {
    assert ClassChannels(row, numClasses) == ClassChannels(row', numClasses);
  }
}
