/**
 * JudgeCenter.cs: the timing-window classifier and the combo/score
 * accumulator. The static per-grade counters and accuracy (PlayStats) are
 * modelled as fields of the same object, since UpdateStat is their only writer.
 */
module JudgeCenter {
  import opened Values

  datatype Judgment = Perfect | Good | Bad | Miss

  /** Grade order: a smaller rank is a better grade. */
  function Rank(j: Judgment): nat
  {
    match j
    case Perfect => 0
    case Good => 1
    case Bad => 2
    case Miss => 3
  }

  /** Classifies a signed time difference by its magnitude; never yields Miss. */
  function Judge(timeDifference: int): (j: Judgment)
    ensures j != Miss
    ensures j == Perfect <==> Abs(timeDifference) <= PerfectWindow
    ensures j == Good <==> PerfectWindow < Abs(timeDifference) <= GoodWindow
    ensures j == Bad <==> GoodWindow < Abs(timeDifference)
  {
    var time := Abs(timeDifference);
    if time <= PerfectWindow then Perfect
    else if time <= GoodWindow then Good
    else Bad
  }

  /** Early and late by the same amount get the same grade. */
  lemma JudgeSymmetric(d: int)
    ensures Judge(d) == Judge(-d)
  {
  }

  /** A larger time difference never gives a better grade. */
  lemma JudgeMonotone(d: int, e: int)
    requires Abs(d) <= Abs(e)
    ensures Rank(Judge(d)) <= Rank(Judge(e))
  {
  }

  /** Points added to `score` per grade. */
  function Points(j: Judgment): nat
  {
    match j
    case Perfect => 5
    case Good => 3
    case Bad => 1
    case Miss => 0
  }

  /** Whether a grade keeps the combo going. */
  predicate Continues(j: Judgment)
  {
    j == Perfect || j == Good
  }

  /** Total points of a judgment history. */
  function ScoreOf(h: seq<Judgment>): int
  {
    if h == [] then 0 else ScoreOf(h[..|h| - 1]) + Points(h[|h| - 1])
  }

  /** Length of the trailing run of Perfect/Good judgments. */
  function TrailingCombo(h: seq<Judgment>): int
  {
    if h == [] then 0
    else if Continues(h[|h| - 1]) then TrailingCombo(h[..|h| - 1]) + 1
    else 0
  }

  /** Number of judgments equal to `j` in a history. */
  function CountOf(h: seq<Judgment>, j: Judgment): int
  {
    if h == [] then 0 else CountOf(h[..|h| - 1], j) + (if h[|h| - 1] == j then 1 else 0)
  }

  /** The score never exceeds the reference score of 5 per judgment. */
  lemma {:induction false} ScoreBounded(h: seq<Judgment>)
    ensures 0 <= ScoreOf(h) <= 5 * |h|
  {
    if h != [] {
      ScoreBounded(h[..|h| - 1]);
    }
  }

  /** The combo is the length of a suffix of Perfect/Good judgments. */
  lemma {:induction false} ComboIsTrailingRun(h: seq<Judgment>)
    ensures 0 <= TrailingCombo(h) <= |h|
    ensures forall k :: |h| - TrailingCombo(h) <= k < |h| ==> Continues(h[k])
    ensures TrailingCombo(h) < |h| ==> !Continues(h[|h| - 1 - TrailingCombo(h)])
  {
    if h != [] {
      ComboIsTrailingRun(h[..|h| - 1]);
    }
  }

  /** Every judgment is counted by exactly one of the four counters. */
  lemma {:induction false} CountersPartition(h: seq<Judgment>)
    ensures CountOf(h, Perfect) + CountOf(h, Good) + CountOf(h, Bad) + CountOf(h, Miss) == |h|
    ensures ScoreOf(h) == 5 * CountOf(h, Perfect) + 3 * CountOf(h, Good) + CountOf(h, Bad)
  {
    if h != [] {
      CountersPartition(h[..|h| - 1]);
    }
  }

  /** Accuracy in percent: score over reference score. */
  function Accuracy(h: seq<Judgment>): (acc: real)
    requires h != []
    ensures 0.0 <= acc <= 100.0
  {
    ScoreBounded(h);
    (ScoreOf(h) as real) / ((5 * |h|) as real) * 100.0
  }

  /** One Perfect and one Miss give 50% accuracy. */
  lemma PerfectThenMissIsHalf()
    ensures Accuracy([Perfect, Miss]) == 50.0
  {
    assert [Perfect, Miss][..1] == [Perfect];
    assert ScoreOf([Perfect]) == 5 by { assert [Perfect][..0] == []; }
  }

  class JudgeCenter {
    var combo: int
    var referenceScore: int
    var score: int
    var perfectCount: int
    var goodCount: int
    var badCount: int
    var missCount: int
    var acc: real
    /** Every grade passed to UpdateStat since Start, in order. */
    ghost var history: seq<Judgment>

    ghost predicate Valid()
      reads this
    {
      && combo == TrailingCombo(history)
      && score == ScoreOf(history)
      && referenceScore == 5 * |history|
      && perfectCount == CountOf(history, Perfect)
      && goodCount == CountOf(history, Good)
      && badCount == CountOf(history, Bad)
      && missCount == CountOf(history, Miss)
      && acc == (if history == [] then 0.0 else Accuracy(history))
    }

    /** Start: the field initialisers and PlayStats.Clear. */
    constructor Start()
      ensures Valid() && history == []
      ensures combo == 0 && score == 0 && referenceScore == 0 && acc == 0.0
    {
      combo, referenceScore, score := 0, 0, 0;
      perfectCount, goodCount, badCount, missCount := 0, 0, 0, 0;
      acc := 0.0;
      history := [];
    }

    method UpdateStat(judgment: Judgment)
      requires Valid()
      modifies this
      ensures Valid() && history == old(history) + [judgment]
      ensures score == old(score) + Points(judgment)
      ensures combo == if Continues(judgment) then old(combo) + 1 else 0
      ensures referenceScore == old(referenceScore) + 5
      ensures perfectCount == old(perfectCount) + (if judgment == Perfect then 1 else 0)
      ensures goodCount == old(goodCount) + (if judgment == Good then 1 else 0)
      ensures badCount == old(badCount) + (if judgment == Bad then 1 else 0)
      ensures missCount == old(missCount) + (if judgment == Miss then 1 else 0)
      ensures 0 <= score <= referenceScore && 0.0 <= acc <= 100.0
    {
      ghost var h := history + [judgment];
      assert h[..|h| - 1] == history;
      assert ScoreOf(h) == score + Points(judgment);
      assert CountOf(h, Perfect) == perfectCount + (if judgment == Perfect then 1 else 0);
      assert CountOf(h, Good) == goodCount + (if judgment == Good then 1 else 0);
      assert CountOf(h, Bad) == badCount + (if judgment == Bad then 1 else 0);
      assert CountOf(h, Miss) == missCount + (if judgment == Miss then 1 else 0);
      ScoreBounded(h);
      history := h;
      match judgment {
        case Perfect =>
          combo := combo + 1;
          score := score + 5;
          perfectCount := perfectCount + 1;
        case Good =>
          combo := combo + 1;
          score := score + 3;
          goodCount := goodCount + 1;
        case Bad =>
          combo := 0;
          score := score + 1;
          badCount := badCount + 1;
        case Miss =>
          combo := 0;
          missCount := missCount + 1;
      }
      referenceScore := referenceScore + 5;
      acc := score as real / referenceScore as real * 100.0;
      assert acc == Accuracy(history);
    }
  }
}
