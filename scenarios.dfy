/**
 * Whole games played through the Game class, roll by roll, with the scores
 * and refusals the rules call for.
 */
module Scenarios {
  import opened Frames
  import opened StandardRules
  import opened BowlingGame

  /** Rolls a strike into normal frame i, the current frame, still empty. */
  method RollStrike(g: Game, i: nat)
    requires g.Valid() && i < MaxFrames - 1 && g.frameIndexCount == 2 * i
    modifies g
    ensures g.Valid() && g.frameIndexCount == 2 * i + 2 && g.rollCount == old(g.rollCount) + 1
    ensures g.frames == old(g.frames)[i := Normal([AllPins])]
    ensures AllRolls(g.frames) == old(AllRolls(g.frames)) + [AllPins]
  {
    assert FrameShaped(g.frames, i);
    assert g.frames[i] == Normal([]) && CurrentFrameIndex(2 * i) == i;
    assert [] + [AllPins] == [AllPins];
    var r := g.Roll(AllPins);
  }

  /** Rolls `first`, short of a strike, into normal frame i, the current frame, still empty. */
  method RollFirstOfPair(g: Game, i: nat, first: int)
    requires g.Valid() && i < MaxFrames - 1 && g.frameIndexCount == 2 * i
    requires first < AllPins
    modifies g
    ensures g.Valid() && g.frameIndexCount == 2 * i + 1 && g.rollCount == old(g.rollCount) + 1
    ensures g.frames == old(g.frames)[i := Normal([first])]
    ensures AllRolls(g.frames) == old(AllRolls(g.frames)) + [first]
  {
    assert FrameShaped(g.frames, i);
    assert g.frames[i] == Normal([]) && CurrentFrameIndex(2 * i) == i;
    assert [] + [first] == [first];
    var r := g.Roll(first);
  }

  /**
   * Rolls `first` then `second` into normal frame i, the current frame,
   * still empty: an open frame, or a spare when they make ten.
   */
  method RollPair(g: Game, i: nat, first: int, second: int)
    requires g.Valid() && i < MaxFrames - 1 && g.frameIndexCount == 2 * i
    requires first < AllPins && first + second <= AllPins
    modifies g
    ensures g.Valid() && g.frameIndexCount == 2 * i + 2 && g.rollCount == old(g.rollCount) + 2
    ensures g.frames == old(g.frames)[i := Normal([first, second])]
    ensures AllRolls(g.frames) == old(AllRolls(g.frames)) + [first, second]
  {
    RollFirstOfPair(g, i, first);
    assert CurrentFrameIndex(2 * i + 1) == i;
    assert [first] + [second] == [first, second];
    SumOfPair(first, second);
    var r := g.Roll(second);
  }

  /** Rolls `pins` into the tenth frame, the current frame, which accepts it. */
  method RollIntoTenth(g: Game, pins: int)
    requires g.Valid() && g.frameIndexCount >= 18 && g.frames[MaxFrames - 1].Tenth?
    requires AddTenthRoll(g.frames[MaxFrames - 1], pins).Ok?
    modifies g
    ensures g.Valid() && g.frameIndexCount >= 18 && g.rollCount == old(g.rollCount) + 1
    ensures g.frames[MaxFrames - 1] == AddTenthRoll(old(g.frames)[MaxFrames - 1], pins).value
    ensures AllRolls(g.frames) == old(AllRolls(g.frames)) + [pins]
  {
    assert CurrentFrameIndex(g.frameIndexCount) == MaxFrames - 1;
    assert FrameShaped(g.frames, MaxFrames - 1);
    var r := g.Roll(pins);
  }

  /**
   * Rolls `first` then `second` into the tenth frame, the current frame,
   * still empty, leaving it open.
   */
  method RollOpenTenth(g: Game, first: int, second: int)
    requires g.Valid() && g.frameIndexCount == 18 && g.frames[MaxFrames - 1] == Tenth([], None)
    requires first < AllPins && first + second < AllPins
    modifies g
    ensures g.Valid() && g.frameIndexCount >= 18 && g.rollCount == old(g.rollCount) + 2
    ensures g.frames[MaxFrames - 1] == Tenth([first, second], None)
    ensures AllRolls(g.frames) == old(AllRolls(g.frames)) + [first, second]
  {
    assert [] + [first] == [first] && [first] + [second] == [first, second];
    SumOfPair(first, second);
    RollIntoTenth(g, first);
    RollIntoTenth(g, second);
  }

  /** Rolls three strikes into the tenth frame, the current frame, still empty. */
  method RollTenthStrikes(g: Game)
    requires g.Valid() && g.frameIndexCount == 18 && g.frames[MaxFrames - 1] == Tenth([], None)
    modifies g
    ensures g.Valid() && g.frameIndexCount >= 18 && g.rollCount == old(g.rollCount) + 3
    ensures g.frames[MaxFrames - 1] == Tenth([AllPins, AllPins], Some(AllPins))
    ensures AllRolls(g.frames) == old(AllRolls(g.frames)) + [AllPins, AllPins, AllPins]
  {
    ghost var before := AllRolls(g.frames);
    TenthStrikesAccepted();
    RollIntoTenth(g, AllPins);
    RollIntoTenth(g, AllPins);
    RollIntoTenth(g, AllPins);
    AppendThree(before, AllPins);
  }

  /** The tenth frame takes a strike, a second strike and then its bonus ball. */
  lemma TenthStrikesAccepted()
    ensures AddTenthRoll(Tenth([], None), AllPins) == Ok(Tenth([AllPins], None))
    ensures AddTenthRoll(Tenth([AllPins], None), AllPins) == Ok(Tenth([AllPins, AllPins], None))
    ensures AddTenthRoll(Tenth([AllPins, AllPins], None), AllPins)
            == Ok(Tenth([AllPins, AllPins], Some(AllPins)))
  {
    assert [] + [AllPins] == [AllPins] && [AllPins] + [AllPins] == [AllPins, AllPins];
  }

  lemma AppendThree(s: seq<int>, x: int)
    ensures s + [x] + [x] + [x] == s + [x, x, x]
  {
  }

  /** A new game with a strike in each of the first nine frames. */
  method NineStrikes() returns (g: Game)
    ensures fresh(g) && g.Valid()
    ensures g.frameIndexCount == 18 && g.rollCount == 9
    ensures AllRolls(g.frames) == seq(9, _ => AllPins)
    ensures g.frames[MaxFrames - 1] == Tenth([], None)
  {
    g := new Game();
    var i := 0;
    while i < MaxFrames - 1
      invariant 0 <= i <= MaxFrames - 1
      invariant g.Valid() && g.frameIndexCount == 2 * i && g.rollCount == i
      invariant AllRolls(g.frames) == seq(i, _ => AllPins)
      invariant g.frames[MaxFrames - 1] == Tenth([], None)
    {
      RollStrike(g, i);
      StrikesAppend(i);
      i := i + 1;
    }
  }

  lemma StrikesAppend(n: nat)
    ensures seq(n, _ => AllPins) + [AllPins] == seq(n + 1, _ => AllPins)
  {
  }

  /** Twelve strikes score 300; a thirteenth roll is refused. */
  method PerfectGame() returns (points: int, tenthPoints: int, thirteenth: Result<()>, attempts: nat)
    ensures points == 300
    ensures tenthPoints == 30
    ensures thirteenth == Err(TenthFrameWithMoreThanThreeRolls)
    ensures attempts == 13
  {
    var g := NineStrikes();
    RollTenthStrikes(g);
    assert AllRolls(g.frames) == seq(12, _ => AllPins);
    PerfectGameScores300();
    points := g.Score();
    SumOfPair(AllPins, AllPins);
    tenthPoints := FrameScore(g.frames, MaxFrames - 1);
    thirteenth := g.Roll(AllPins);
    attempts := g.Len();
  }

  /** The rolls of n open frames of `first` then `second` pins each. */
  function OpenRolls(first: int, second: int, n: nat): (rolls: seq<int>)
    ensures |rolls| == 2 * n
  {
    if n == 0 then [] else [first, second] + OpenRolls(first, second, n - 1)
  }

  lemma {:induction false} OpenRollsAppend(first: int, second: int, n: nat)
    ensures OpenRolls(first, second, n) + [first, second] == OpenRolls(first, second, n + 1)
  {
    if n > 0 {
      OpenRollsAppend(first, second, n - 1);
    }
  }

  /** A new game whose first nine frames are each `first` then `second` pins. */
  method NineOpenFrames(first: int, second: int) returns (g: Game)
    requires first < AllPins && first + second <= AllPins
    ensures fresh(g) && g.Valid()
    ensures g.frameIndexCount == 18 && g.rollCount == 18
    ensures AllRolls(g.frames) == OpenRolls(first, second, 9)
    ensures g.frames[MaxFrames - 1] == Tenth([], None)
  {
    g := new Game();
    var i := 0;
    while i < MaxFrames - 1
      invariant 0 <= i <= MaxFrames - 1
      invariant g.Valid() && g.frameIndexCount == 2 * i && g.rollCount == 2 * i
      invariant AllRolls(g.frames) == OpenRolls(first, second, i)
      invariant g.frames[MaxFrames - 1] == Tenth([], None)
    {
      RollPair(g, i, first, second);
      OpenRollsAppend(first, second, i);
      i := i + 1;
    }
  }

  /** Twenty gutter balls score 0, and the open tenth frame takes no bonus ball. */
  method GutterGame() returns (points: int, twentyFirst: Result<()>)
    ensures points == 0
    ensures twentyFirst == Err(ExtraRollWithOpenFrame)
  {
    var g := NineOpenFrames(0, 0);
    RollOpenTenth(g, 0, 0);
    OpenRollsAppend(0, 0, 9);
    OpenFramesScore(0, 0, 10, 0);
    points := g.Score();
    SumOfPair(0, 0);
    assert CurrentFrameIndex(g.frameIndexCount) == 9;
    twentyFirst := g.Roll(0);
  }

  /** Ten open frames of 5 then 4 pins score 90. */
  method NinetyGame() returns (points: int)
    ensures points == 90
  {
    var g := NineOpenFrames(5, 4);
    RollOpenTenth(g, 5, 4);
    OpenRollsAppend(5, 4, 9);
    OpenFramesScore(5, 4, 10, 0);
    points := g.Score();
  }

  /** Open frames of `first` then `second` pins score their pins. */
  lemma {:induction false} OpenFramesScore(first: int, second: int, n: nat, frame: nat)
    requires first != AllPins && first + second != AllPins
    requires frame < 10 && frame + n <= 10
    ensures StandardScore(OpenRolls(first, second, n), frame) == n * (first + second)
    decreases n
  {
    if n > 0 {
      var rest := OpenRolls(first, second, n - 1);
      assert OpenRolls(first, second, n) == [first, second] + rest;
      if frame == 9 {
        assert n == 1 && rest == [];
        assert OpenRolls(first, second, n) == [first, second];
        SumOfPair(first, second);
      } else {
        StandardAfterPair(first, second, rest, frame);
        OpenFramesScore(first, second, n - 1, frame + 1);
        assert n * (first + second) == (first + second) + (n - 1) * (first + second);
      }
    }
  }

  /** Six then six in one frame is refused, and the frame still holds only the six. */
  method OverflowRefused() returns (second: Result<()>, frame: Frame, attempts: nat, accepted: seq<int>)
    ensures second == Err(FramePinsExceeded)
    ensures frame == Normal([6])
    ensures attempts == 2 && accepted == [6]
  {
    var g := new Game();
    var r := g.Roll(6);
    assert r.Ok? && g.frames[0] == Normal([6]);
    SumOfPair(6, 6);
    second := g.Roll(6);
    frame := g.frames[0];
    attempts := g.Len();
    accepted := AllRolls(g.frames);
  }

  /** A spare of 5 and 5 followed by a 3 scores 13 in the first frame and 16 in all. */
  method SpareThenThree() returns (first: int, points: int)
    ensures first == 13 && points == 16
  {
    var g := new Game();
    RollPair(g, 0, 5, 5);
    RollFirstOfPair(g, 1, 3);
    assert AllRolls(g.frames) == [5, 5, 3];
    SumOfPair(5, 5);
    first := FrameScore(g.frames, 0);
    SpareThenRollStandard(5, 5, 3);
    points := g.Score();
  }

  /** A spare of a then b followed by a lone roll c scores ten plus twice c. */
  lemma SpareThenRollStandard(a: int, b: int, c: int)
    requires a != AllPins && a + b == AllPins && c != AllPins
    ensures StandardScore([a, b, c], 0) == AllPins + 2 * c
  {
    SumOfPair(c, 0);
    assert [a, b, c] == [a, b] + [c];
    StandardAfterPair(a, b, [c], 0);
    StandardLastRoll(c, 1);
  }

  /** A strike followed by 3 and 4 scores 17 in the first frame and 24 in all. */
  method StrikeThenThreeFour() returns (first: int, points: int)
    ensures first == 17 && points == 24
  {
    var g := new Game();
    points := PlayStrikeThreeFour(g);
    first := FrameScore(g.frames, 0);
  }

  /** Rolls 10, 3 and 4 into a new or restarted game and returns its score. */
  method PlayStrikeThreeFour(g: Game) returns (points: int)
    requires g.Valid() && g.frames == NewFrames() && g.frameIndexCount == 0 && AllRolls(g.frames) == []
    modifies g
    ensures g.Valid() && points == 24 && FrameScore(g.frames, 0) == 17
  {
    RollStrikeThreeFour(g);
    StrikeThreeFourScores(g.frames);
    points := g.Score();
  }

  /** Rolls 10, 3 and 4 into a game with no roll recorded. */
  method RollStrikeThreeFour(g: Game)
    requires g.Valid() && g.frames == NewFrames() && g.frameIndexCount == 0 && AllRolls(g.frames) == []
    modifies g
    ensures g.Valid() && AllRolls(g.frames) == [10, 3, 4]
    ensures g.frames[0] == Normal([10]) && g.frames[1] == Normal([3, 4])
  {
    assert [] + [AllPins] == [AllPins];
    RollStrike(g, 0);
    assert AllRolls(g.frames) == [AllPins] && [AllPins] + [3, 4] == [10, 3, 4];
    RollPair(g, 1, 3, 4);
  }

  /** The first frame of a strike, 3 and 4 scores 17, and the rolls 24. */
  lemma StrikeThreeFourScores(frames: seq<Frame>)
    requires 2 <= |frames| && frames[0] == Normal([10]) && frames[1] == Normal([3, 4])
    ensures FrameScore(frames, 0) == 17 && StandardScore([10, 3, 4], 0) == 24
  {
    SumOfPair(10, 0);
    SumOfPair(3, 4);
    StrikeThenOpenStandard(3, 4);
  }

  /** A strike followed by an open frame of a then b scores ten plus twice their pins. */
  lemma StrikeThenOpenStandard(a: int, b: int)
    requires a != AllPins && a + b != AllPins
    ensures StandardScore([AllPins, a, b], 0) == AllPins + 2 * (a + b)
  {
    SumOfPair(a, b);
    StandardAfterStrike([a, b], 0);
    assert [AllPins, a, b] == [AllPins] + [a, b];
    StandardAfterPair(a, b, [], 1);
    assert [a, b] == [a, b] + [];
  }

  /** After a restart, the same rolls give the same score as in a new game. */
  method RestartThenReplay() returns (before: int, after: int)
    ensures before == after == 24
  {
    var g := new Game();
    before := PlayStrikeThreeFour(g);
    g.Restart();
    after := PlayStrikeThreeFour(g);
  }
}
