/**
 * The ten-pin scoring rule stated on the flat list of pinfalls, independent
 * of how a game keeps its frames: a strike scores ten plus the next two
 * rolls, a spare ten plus the next roll, an open frame its pins, and the
 * tenth frame the sum of its rolls, bonus balls included. A bonus whose
 * rolls have not been thrown yet counts only the rolls that exist.
 */
module StandardRules {
  import opened Frames

  /** The first n elements of s, or all of s when it is shorter. */
  function Take(s: seq<int>, n: nat): (t: seq<int>)
    ensures |t| == if |s| <= n then |s| else n
    ensures t == s[..|t|]
  {
    if |s| <= n then s else s[..n]
  }

  /** The score of `rolls` thrown from frame `frame` (0 to 9) onwards. */
  function StandardScore(rolls: seq<int>, frame: nat): int
    requires frame < 10
    decreases |rolls|
  {
    if rolls == [] then 0
    else if frame == 9 then Sum(rolls)
    else if rolls[0] == AllPins then
      AllPins + Sum(Take(rolls[1..], 2)) + StandardScore(rolls[1..], frame + 1)
    else if |rolls| == 1 then rolls[0]
    else if rolls[0] + rolls[1] == AllPins then
      AllPins + Sum(Take(rolls[2..], 1)) + StandardScore(rolls[2..], frame + 1)
    else
      rolls[0] + rolls[1] + StandardScore(rolls[2..], frame + 1)
  }

  lemma StandardAfterStrike(rest: seq<int>, frame: nat)
    requires frame < 9
    ensures StandardScore([AllPins] + rest, frame)
            == AllPins + Sum(Take(rest, 2)) + StandardScore(rest, frame + 1)
  {
    assert ([AllPins] + rest)[1..] == rest;
  }

  lemma StandardAfterPair(a: int, b: int, rest: seq<int>, frame: nat)
    requires frame < 9 && a != AllPins
    ensures StandardScore([a, b] + rest, frame)
            == (if a + b == AllPins then AllPins + Sum(Take(rest, 1)) else a + b)
               + StandardScore(rest, frame + 1)
  {
    assert ([a, b] + rest)[2..] == rest;
  }

  lemma StandardLastRoll(a: int, frame: nat)
    requires frame < 9 && a != AllPins
    ensures StandardScore([a], frame) == a
  {
  }

  /** Any number of gutter balls scores nothing. */
  lemma {:induction false} GutterRollsScoreZero(n: nat, frame: nat)
    requires frame < 10
    ensures StandardScore(seq(n, _ => 0), frame) == 0
    decreases n
  {
    var rolls: seq<int> := seq(n, _ => 0);
    if n == 0 {
    } else if frame == 9 {
      ZerosSumToZero(n);
    } else if n == 1 {
    } else {
      assert rolls[2..] == seq(n - 2, _ => 0);
      ZerosSumToZero(|Take(rolls[2..], 1)|);
      assert Take(rolls[2..], 1) == seq(|Take(rolls[2..], 1)|, _ => 0);
      GutterRollsScoreZero(n - 2, frame + 1);
    }
  }

  lemma {:induction false} ZerosSumToZero(n: nat)
    ensures Sum(seq(n, _ => 0)) == 0
  {
    if n > 0 {
      assert seq(n, _ => 0)[1..] == seq(n - 1, _ => 0);
      ZerosSumToZero(n - 1);
    }
  }

  /** Strikes from frame `frame` to the end, bonus balls included, score 30 a frame. */
  lemma {:induction false} StrikesScoreThirtyEach(frame: nat)
    requires frame < 10
    ensures StandardScore(seq(12 - frame, _ => AllPins), frame) == 30 * (10 - frame)
    decreases 10 - frame
  {
    var rolls: seq<int> := seq(12 - frame, _ => AllPins);
    if frame == 9 {
      assert rolls == [10, 10, 10];
      assert rolls[1..] == [10, 10];
      SumOfPair(AllPins, AllPins);
    } else {
      assert rolls[1..] == seq(12 - (frame + 1), _ => AllPins);
      assert Take(rolls[1..], 2) == [10, 10];
      SumOfPair(AllPins, AllPins);
      StrikesScoreThirtyEach(frame + 1);
    }
  }

  /** Twelve strikes make the perfect game. */
  lemma PerfectGameScores300()
    ensures StandardScore(seq(12, _ => AllPins), 0) == 300
  {
    StrikesScoreThirtyEach(0);
  }
}
