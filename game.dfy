/**
 * A game of ten-pin bowling: a fixed chain of ten frames (nine normal frames
 * and the tenth frame), a progress counter that decides which frame takes
 * the next roll, a count of roll attempts, and the running score.
 */
module BowlingGame {
  import opened Frames
  import opened StandardRules

  const MaxFrames := 10

  /**
   * The frame that takes the next roll, from the progress counter: a strike
   * advances the counter by two, any other roll by one, so the counter
   * divided by two is the frame, clamped at the tenth frame.
   */
  function CurrentFrameIndex(frameIndexCount: nat): (i: nat)
    ensures i < MaxFrames
    ensures 2 * i <= frameIndexCount
    ensures i < MaxFrames - 1 ==> frameIndexCount < 2 * i + 2
    ensures i == MaxFrames - 1 ==> frameIndexCount >= 2 * (MaxFrames - 1)
  {
    if frameIndexCount < MaxFrames * 2 then frameIndexCount / 2 else MaxFrames - 1
  }

  /** Nine empty normal frames followed by an empty tenth frame. */
  function NewFrames(): seq<Frame>
  {
    seq(MaxFrames, j => if j < MaxFrames - 1 then Normal([]) else Tenth([], None))
  }

  /** Every roll the frames hold, frame by frame, in the order thrown. */
  function AllRolls(frames: seq<Frame>): seq<int>
  {
    if frames == [] then [] else frames[0].Held() + AllRolls(frames[1..])
  }

  /** The sum of the scores of frames[from..]; frames with no roll add nothing. */
  function SumScores(frames: seq<Frame>, from: nat): (total: int)
    requires from <= |frames|
    ensures (forall j :: from <= j < |frames| ==> frames[j].IsEmpty()) ==> total == 0
    decreases |frames| - from
  {
    if from == |frames| then 0 else FrameScore(frames, from) + SumScores(frames, from + 1)
  }

  /** A frame that takes no further roll from the game: a strike or two rolls. */
  predicate FrameComplete(f: Frame)
  {
    f.IsStrike() || |f.rolls| == 2
  }

  /**
   * Frame j is of the kind its position calls for and well formed: a normal
   * frame before the last, a strike in it holding its one roll only, and the
   * tenth frame last.
   */
  ghost predicate FrameShaped(frames: seq<Frame>, j: nat)
    requires j < |frames|
  {
    if j < MaxFrames - 1 then
      NormalOk(frames[j]) && (frames[j].IsStrike() ==> |frames[j].rolls| == 1)
    else
      TenthOk(frames[j])
  }

  /** No roll in the frame after frame j while frame j is unfinished. */
  ghost predicate FrameChained(frames: seq<Frame>, j: nat)
    requires j + 1 < |frames|
  {
    FrameComplete(frames[j]) || frames[j + 1].IsEmpty()
  }

  /**
   * The shape every game keeps: ten frames, each well formed for its
   * position, and no roll in a frame that follows an unfinished one.
   */
  ghost predicate Shaped(frames: seq<Frame>)
  {
    && |frames| == MaxFrames
    && (forall j :: 0 <= j < MaxFrames ==> FrameShaped(frames, j))
    && (forall j :: 0 <= j < MaxFrames - 1 ==> FrameChained(frames, j))
  }

  /**
   * Frame j against the progress counter: complete if it comes before the
   * current frame, empty if it comes after it.
   */
  ghost predicate FrameInStep(frames: seq<Frame>, frameIndexCount: nat, j: nat)
    requires j < |frames|
  {
    var c := CurrentFrameIndex(frameIndexCount);
    && (j < c ==> FrameComplete(frames[j]))
    && (c < j ==> frames[j].IsEmpty())
  }

  /**
   * The link between the frames and the progress counter: every frame
   * before the current one is complete, every frame after it is empty, and
   * before the tenth frame the counter is twice the frame index plus the
   * rolls the current frame holds.
   */
  ghost predicate ValidState(frames: seq<Frame>, frameIndexCount: nat)
  {
    && Shaped(frames)
    && (forall j :: 0 <= j < MaxFrames ==> FrameInStep(frames, frameIndexCount, j))
    && var c := CurrentFrameIndex(frameIndexCount);
       c < MaxFrames - 1 ==>
         frameIndexCount == 2 * c + |frames[c].rolls| && !FrameComplete(frames[c])
  }

  /** The frames of a new game are valid and hold no roll. */
  lemma NewFramesValid()
    ensures ValidState(NewFrames(), 0) && AllRolls(NewFrames()) == []
  {
    var frames := NewFrames();
    forall j | 0 <= j < MaxFrames
      ensures frames[j].IsEmpty() && FrameShaped(frames, j) && FrameInStep(frames, 0, j)
    {
      assert frames[j] == if j < MaxFrames - 1 then Normal([]) else Tenth([], None);
    }
    forall j | 0 <= j < MaxFrames - 1
      ensures FrameChained(frames, j)
    {
      assert frames[j + 1].IsEmpty();
    }
    EmptyFrom(frames, 0);
    assert frames[0..] == frames;
  }

  lemma AllRollsCons(frames: seq<Frame>, i: nat)
    requires i < |frames|
    ensures AllRolls(frames[i..]) == frames[i].Held() + AllRolls(frames[i + 1..])
  {
    assert frames[i..][1..] == frames[i + 1..];
  }

  lemma {:induction false} AllRollsSplit(frames: seq<Frame>, k: nat)
    requires k <= |frames|
    ensures AllRolls(frames) == AllRolls(frames[..k]) + AllRolls(frames[k..])
  {
    if k == 0 {
      assert frames[k..] == frames;
    } else {
      assert frames[1..][..k - 1] == frames[..k][1..];
      assert frames[1..][k - 1..] == frames[k..];
      AllRollsSplit(frames[1..], k - 1);
    }
  }

  /** An empty frame scores nothing. */
  lemma EmptyScoresNothing(frames: seq<Frame>, i: nat)
    requires i < |frames| && frames[i].IsEmpty()
    ensures FrameScore(frames, i) == 0 && frames[i].Held() == []
  {
  }

  /** From an empty frame on, a game holds no roll and scores nothing. */
  lemma {:induction false} EmptyFrom(frames: seq<Frame>, i: nat)
    requires Shaped(frames) && i < MaxFrames && frames[i].IsEmpty()
    ensures AllRolls(frames[i..]) == [] && SumScores(frames, i) == 0
    decreases MaxFrames - i
  {
    AllRollsCons(frames, i);
    EmptyScoresNothing(frames, i);
    if i == MaxFrames - 1 {
      assert frames[i + 1..] == [];
    } else {
      assert FrameChained(frames, i);
      EmptyFrom(frames, i + 1);
    }
  }

  /** A strike in frame i scores ten plus the next two rolls that exist. */
  lemma StrikeBonus(frames: seq<Frame>, i: nat)
    requires Shaped(frames) && i < MaxFrames - 1 && frames[i].Normal? && frames[i].IsStrike()
    ensures NormalScore(frames, i) == AllPins + Sum(Take(AllRolls(frames[i + 1..]), 2))
  {
    assert FrameShaped(frames, i) && FrameShaped(frames, i + 1);
    assert frames[i].rolls == [AllPins];
    SumOfPair(AllPins, 0);
    var next := frames[i + 1];
    if |next.rolls| == 2 {
      StrikeThenTwoRolls(frames, i);
    } else if |next.rolls| == 1 {
      if i + 1 < MaxFrames - 1 && next.IsStrike() && |frames[i + 2].rolls| > 0 {
        StrikeThenStrike(frames, i);
      } else {
        StrikeThenOneRoll(frames, i);
      }
    } else {
      assert next.IsEmpty();
      EmptyFrom(frames, i + 1);
      assert Take(AllRolls(frames[i + 1..]), 2) == [];
    }
  }

  lemma StrikeThenTwoRolls(frames: seq<Frame>, i: nat)
    requires Shaped(frames) && i < MaxFrames - 1 && frames[i].Normal? && frames[i].rolls == [AllPins]
    requires |frames[i + 1].rolls| == 2
    ensures NormalScore(frames, i) == AllPins + Sum(Take(AllRolls(frames[i + 1..]), 2))
  {
    var next := frames[i + 1];
    SumOfPair(AllPins, 0);
    SumOfPair(next.rolls[0], next.rolls[1]);
    assert next.rolls == [next.rolls[0], next.rolls[1]];
    AllRollsCons(frames, i + 1);
    assert Take(AllRolls(frames[i + 1..]), 2) == next.rolls;
  }

  lemma StrikeThenStrike(frames: seq<Frame>, i: nat)
    requires Shaped(frames) && i < MaxFrames - 2 && frames[i].Normal? && frames[i].rolls == [AllPins]
    requires frames[i + 1].rolls == [AllPins] && |frames[i + 2].rolls| > 0
    ensures NormalScore(frames, i) == AllPins + Sum(Take(AllRolls(frames[i + 1..]), 2))
  {
    var next := frames[i + 1];
    assert FrameShaped(frames, i + 1);
    SumOfPair(AllPins, 0);
    SumOfPair(AllPins, frames[i + 2].rolls[0]);
    AllRollsCons(frames, i + 1);
    AllRollsCons(frames, i + 2);
    assert Take(AllRolls(frames[i + 1..]), 2) == [AllPins, frames[i + 2].rolls[0]];
  }

  /** Frame i + 1 holds one roll and no roll follows it. */
  lemma StrikeThenOneRoll(frames: seq<Frame>, i: nat)
    requires Shaped(frames) && i < MaxFrames - 1 && frames[i].Normal? && frames[i].rolls == [AllPins]
    requires |frames[i + 1].rolls| == 1
    requires i + 1 < MaxFrames - 1 && frames[i + 1].IsStrike() ==> frames[i + 2].rolls == []
    ensures NormalScore(frames, i) == AllPins + Sum(Take(AllRolls(frames[i + 1..]), 2))
  {
    var next := frames[i + 1];
    assert FrameShaped(frames, i + 1);
    assert next.Held() == next.rolls;
    if i + 1 == MaxFrames - 1 {
      assert frames[i + 2..] == [];
    } else {
      if next.IsStrike() {
        assert FrameShaped(frames, i + 2);
        assert frames[i + 2].IsEmpty();
      } else {
        assert FrameChained(frames, i + 1);
      }
      EmptyFrom(frames, i + 2);
    }
    LoneRollBonus(frames, i);
  }

  lemma LoneRollBonus(frames: seq<Frame>, i: nat)
    requires i + 1 < |frames| && frames[i].Normal? && frames[i].rolls == [AllPins]
    requires |frames[i + 1].rolls| == 1 && frames[i + 1].Held() == frames[i + 1].rolls
    requires AllRolls(frames[i + 2..]) == []
    requires i + 2 < |frames| ==> frames[i + 2].rolls == []
    ensures NormalScore(frames, i) == AllPins + Sum(Take(AllRolls(frames[i + 1..]), 2))
  {
    var next := frames[i + 1];
    SumOfPair(AllPins, 0);
    SumOfPair(next.rolls[0], 0);
    AllRollsCons(frames, i + 1);
    assert AllRolls(frames[i + 1..]) == next.rolls == [next.rolls[0]];
  }

  /**
   * In a shaped game the tenth frame never holds a bonus ball beside a single
   * roll, so the branch of NormalScore that adds one is dead: a strike in the
   * ninth frame followed by one roll in the tenth scores ten plus that roll.
   */
  lemma BonusBallBranchUnreachable(frames: seq<Frame>)
    requires Shaped(frames) && frames[MaxFrames - 2].Normal? && frames[MaxFrames - 2].IsStrike()
    requires |frames[MaxFrames - 1].rolls| == 1
    ensures NormalScore(frames, MaxFrames - 2) == AllPins + frames[MaxFrames - 1].rolls[0]
  {
    assert FrameShaped(frames, MaxFrames - 2) && FrameShaped(frames, MaxFrames - 1);
    assert frames[MaxFrames - 2].rolls == [AllPins];
    SumOfPair(AllPins, 0);
  }

  /** A spare in frame i scores ten plus the next roll, if it exists. */
  lemma SpareBonus(frames: seq<Frame>, i: nat)
    requires Shaped(frames) && i < MaxFrames - 1 && frames[i].Normal?
    requires frames[i].IsSpare() && !frames[i].IsStrike()
    ensures NormalScore(frames, i) == AllPins + Sum(Take(AllRolls(frames[i + 1..]), 1))
  {
    assert FrameShaped(frames, i) && FrameShaped(frames, i + 1);
    var f := frames[i];
    SumOfPair(f.rolls[0], f.rolls[1]);
    AllRollsCons(frames, i + 1);
    assert f.rolls == [f.rolls[0], f.rolls[1]];
    if frames[i + 1].rolls == [] {
      assert frames[i + 1].IsEmpty();
      EmptyFrom(frames, i + 1);
      assert Take(AllRolls(frames[i + 1..]), 1) == [];
    } else {
      SumOfPair(frames[i + 1].rolls[0], 0);
      assert AllRolls(frames[i + 1..])[0] == frames[i + 1].rolls[0];
      assert Take(AllRolls(frames[i + 1..]), 1) == [frames[i + 1].rolls[0]];
    }
  }

  /**
   * Frame i's own score followed by the standard score of the rolls after
   * it is the standard score of the rolls from frame i on.
   */
  lemma FrameScoreStep(frames: seq<Frame>, i: nat)
    requires Shaped(frames) && i < MaxFrames - 1 && !frames[i].IsEmpty()
    ensures FrameScore(frames, i) + StandardScore(AllRolls(frames[i + 1..]), i + 1)
            == StandardScore(AllRolls(frames[i..]), i)
  {
    assert FrameShaped(frames, i);
    if frames[i].IsStrike() {
      StrikeStep(frames, i);
    } else if |frames[i].rolls| == 1 {
      OneRollStep(frames, i);
    } else {
      PairStep(frames, i);
    }
  }

  lemma StrikeStep(frames: seq<Frame>, i: nat)
    requires Shaped(frames) && i < MaxFrames - 1 && frames[i].Normal? && frames[i].IsStrike()
    ensures FrameScore(frames, i) + StandardScore(AllRolls(frames[i + 1..]), i + 1)
            == StandardScore(AllRolls(frames[i..]), i)
  {
    assert FrameShaped(frames, i);
    assert frames[i].rolls == [AllPins];
    AllRollsCons(frames, i);
    StrikeBonus(frames, i);
    StandardAfterStrike(AllRolls(frames[i + 1..]), i);
  }

  lemma OneRollStep(frames: seq<Frame>, i: nat)
    requires Shaped(frames) && i < MaxFrames - 1 && frames[i].Normal?
    requires |frames[i].rolls| == 1 && !frames[i].IsStrike()
    ensures FrameScore(frames, i) + StandardScore(AllRolls(frames[i + 1..]), i + 1)
            == StandardScore(AllRolls(frames[i..]), i)
  {
    var f := frames[i];
    assert FrameChained(frames, i);
    EmptyFrom(frames, i + 1);
    AllRollsCons(frames, i);
    SumOfPair(f.rolls[0], 0);
    assert f.rolls == [f.rolls[0]];
    StandardLastRoll(f.rolls[0], i);
  }

  lemma PairStep(frames: seq<Frame>, i: nat)
    requires Shaped(frames) && i < MaxFrames - 1 && frames[i].Normal?
    requires |frames[i].rolls| == 2 && !frames[i].IsStrike()
    ensures FrameScore(frames, i) + StandardScore(AllRolls(frames[i + 1..]), i + 1)
            == StandardScore(AllRolls(frames[i..]), i)
  {
    var f := frames[i];
    AllRollsCons(frames, i);
    SumOfPair(f.rolls[0], f.rolls[1]);
    assert f.rolls == [f.rolls[0], f.rolls[1]];
    StandardAfterPair(f.rolls[0], f.rolls[1], AllRolls(frames[i + 1..]), i);
    if f.IsSpare() {
      SpareBonus(frames, i);
    }
  }

  /**
   * Summing the frames' own scores, each resolving its bonus by looking
   * ahead, gives the standard score of the rolls the frames hold.
   */
  lemma {:induction false} ScoreMatchesStandard(frames: seq<Frame>, i: nat)
    requires Shaped(frames) && i < MaxFrames
    ensures SumScores(frames, i) == StandardScore(AllRolls(frames[i..]), i)
    decreases MaxFrames - i
  {
    if i == MaxFrames - 1 {
      assert FrameShaped(frames, i);
      AllRollsCons(frames, i);
      assert frames[i + 1..] == [];
      assert frames[i].Held() == AllRolls(frames[i..]);
    } else if frames[i].IsEmpty() {
      EmptyFrom(frames, i);
    } else {
      ScoreMatchesStandard(frames, i + 1);
      FrameScoreStep(frames, i);
    }
  }

  /** Replacing the last frame that holds rolls replaces its rolls at the end. */
  lemma ReplaceLastHolder(frames: seq<Frame>, k: nat, f: Frame)
    requires k < |frames| && AllRolls(frames[k + 1..]) == []
    ensures AllRolls(frames) == AllRolls(frames[..k]) + frames[k].Held()
    ensures AllRolls(frames[k := f]) == AllRolls(frames[..k]) + f.Held()
  {
    var updated := frames[k := f];
    AllRollsSplit(frames, k);
    AllRollsSplit(updated, k);
    AllRollsCons(frames, k);
    AllRollsCons(updated, k);
    assert updated[..k] == frames[..k];
    assert updated[k + 1..] == frames[k + 1..];
  }

  /** An accepted roll is recorded at the end of the current frame. */
  lemma RollHeldAppends(frames: seq<Frame>, frameIndexCount: nat, pins: int)
    requires ValidState(frames, frameIndexCount)
    requires AddRoll(frames[CurrentFrameIndex(frameIndexCount)], pins).Ok?
    ensures var k := CurrentFrameIndex(frameIndexCount);
            AddRoll(frames[k], pins).value.Held() == frames[k].Held() + [pins]
  {
    var k := CurrentFrameIndex(frameIndexCount);
    assert FrameShaped(frames, k);
    if k < MaxFrames - 1 {
      assert |frames[k].rolls| < 2;
    }
  }

  /** An accepted roll is appended to the rolls the game holds. */
  lemma RollAppends(frames: seq<Frame>, frameIndexCount: nat, pins: int)
    requires ValidState(frames, frameIndexCount)
    requires AddRoll(frames[CurrentFrameIndex(frameIndexCount)], pins).Ok?
    ensures var k := CurrentFrameIndex(frameIndexCount);
            AllRolls(frames[k := AddRoll(frames[k], pins).value]) == AllRolls(frames) + [pins]
  {
    var k := CurrentFrameIndex(frameIndexCount);
    var f := AddRoll(frames[k], pins).value;
    assert f.Held() == frames[k].Held() + [pins] by {
      RollHeldAppends(frames, frameIndexCount, pins);
    }
    assert AllRolls(frames[k + 1..]) == [] by {
      if k + 1 < MaxFrames {
        assert FrameInStep(frames, frameIndexCount, k + 1);
        EmptyFrom(frames, k + 1);
      } else {
        assert frames[k + 1..] == [];
      }
    }
    ReplaceLastHolder(frames, k, f);
  }

  /** An accepted roll keeps the frames and the progress counter in step. */
  lemma RollKeepsValid(frames: seq<Frame>, frameIndexCount: nat, pins: int, updated: seq<Frame>, count: nat)
    requires ValidState(frames, frameIndexCount)
    requires AddRoll(frames[CurrentFrameIndex(frameIndexCount)], pins).Ok?
    requires var k := CurrentFrameIndex(frameIndexCount);
             var f := AddRoll(frames[k], pins).value;
             updated == frames[k := f] && count == frameIndexCount + if f.IsStrike() then 2 else 1
    ensures ValidState(updated, count)
  {
    var k := CurrentFrameIndex(frameIndexCount);
    var f := AddRoll(frames[k], pins).value;
    var c := CurrentFrameIndex(count);
    assert FrameShaped(frames, k);
    if k < MaxFrames - 1 {
      assert c == k + 1 || (c == k && |f.rolls| == 1 && !f.IsStrike());
      if c == k + 1 && c < MaxFrames - 1 {
        assert FrameInStep(frames, frameIndexCount, c);
      }
    } else {
      assert c == k;
    }
    forall j | 0 <= j < MaxFrames
      ensures FrameShaped(updated, j) && FrameInStep(updated, count, j)
    {
      assert FrameShaped(frames, j) && FrameInStep(frames, frameIndexCount, j);
    }
    forall j | 0 <= j < MaxFrames - 1
      ensures FrameChained(updated, j)
    {
      assert FrameInStep(frames, frameIndexCount, j) && FrameInStep(frames, frameIndexCount, j + 1);
      assert FrameInStep(updated, count, j) && FrameInStep(updated, count, j + 1);
    }
  }

  /**
   * The game: its ten frames, the progress counter that picks the frame for
   * the next roll, and the number of roll attempts.
   */
  class Game {
    var frames: seq<Frame>
    var frameIndexCount: nat
    var rollCount: nat
    /** The pin counts of every roll attempt since the game began, refused ones included. */
    ghost var attempts: seq<int>

    ghost predicate Valid()
      reads this
    {
      ValidState(frames, frameIndexCount) && rollCount == |attempts|
    }

    constructor ()
      ensures Valid()
      ensures frames == NewFrames() && frameIndexCount == 0 && rollCount == 0
      ensures AllRolls(frames) == [] && attempts == []
    {
      frames := [];
      new;
      InitFrames();
      frameIndexCount := 0;
      rollCount := 0;
      attempts := [];
      assert frames == NewFrames();
      NewFramesValid();
    }

    /** Discards the frames and both counters and starts over, as a new game. */
    method Restart()
      modifies this
      ensures Valid()
      ensures frames == NewFrames() && frameIndexCount == 0 && rollCount == 0
      ensures AllRolls(frames) == [] && attempts == []
    {
      frames := [];
      InitFrames();
      frameIndexCount := 0;
      rollCount := 0;
      attempts := [];
      assert frames == NewFrames();
      NewFramesValid();
    }

    /** Appends the ten empty frames, nine normal ones and then the tenth. */
    method InitFrames()
      modifies this`frames
      ensures frames == old(frames) + NewFrames()
    {
      var frame := Normal([]);
      var i := 0;
      while i < MaxFrames - 1
        invariant 0 <= i <= MaxFrames - 1
        invariant frames == old(frames) + NewFrames()[..i]
        invariant frame == NewFrames()[i]
      {
        var next := if i < MaxFrames - 2 then Normal([]) else Tenth([], None);
        frames := frames + [frame];
        frame := next;
        i := i + 1;
      }
      frames := frames + [frame];
    }

    /**
     * Rolls `pins` into the current frame. The attempt is counted first; a
     * refused roll leaves the frames and the progress counter as they were,
     * an accepted one changes the current frame only and advances the
     * counter by two after a strike and by one otherwise.
     */
    method Roll(pins: int) returns (result: Result<()>)
      requires Valid()
      modifies this
      ensures Valid()
      ensures rollCount == old(rollCount) + 1 && attempts == old(attempts) + [pins]
      ensures var k := CurrentFrameIndex(old(frameIndexCount));
              var added := AddRoll(old(frames)[k], pins);
              if added.Err? then
                && result == Err(added.error)
                && frames == old(frames) && frameIndexCount == old(frameIndexCount)
              else
                && result == Ok(())
                && frames == old(frames)[k := added.value]
                && frameIndexCount == old(frameIndexCount) + (if added.value.IsStrike() then 2 else 1)
      ensures result.Ok? ==> AllRolls(frames) == old(AllRolls(frames)) + [pins]
      ensures result.Err? ==> AllRolls(frames) == old(AllRolls(frames))
    {
      rollCount := rollCount + 1;
      attempts := attempts + [pins];
      var k := CurrentFrameIndex(frameIndexCount);
      var added := AddRoll(frames[k], pins);
      if added.Err? {
        result := Err(added.error);
      } else {
        ghost var before := frames;
        ghost var beforeCount := frameIndexCount;
        RollAppends(frames, frameIndexCount, pins);
        frames := frames[k := added.value];
        frameIndexCount := frameIndexCount + if frames[k].IsStrike() then 2 else 1;
        RollKeepsValid(before, beforeCount, pins, frames, frameIndexCount);
        result := Ok(());
      }
    }

    /**
     * The running score: the sum of the ten frames' scores, which is the
     * standard score of the rolls accepted so far.
     */
    function Score(): (points: int)
      reads this
      requires Valid()
      ensures points == StandardScore(AllRolls(frames), 0)
    {
      ScoreMatchesStandard(frames, 0);
      assert frames[0..] == frames;
      SumScores(frames, 0)
    }

    /** The number of roll attempts, refused ones included. */
    function Len(): (n: nat)
      reads this
      requires Valid()
      ensures n == |attempts|
    {
      rollCount
    }
  }
}
