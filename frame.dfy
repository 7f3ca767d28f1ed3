/**
 * Frames of a ten-pin bowling game: the nine normal frames and the tenth
 * frame, the rules for adding a roll to each, and the score each frame
 * contributes, looking ahead to later frames for strike and spare bonuses.
 *
 * A frame is a value here. The game keeps its ten frames in a sequence and
 * the "next frame" link of frame i is frame i + 1 of that sequence.
 */
module Frames {

  datatype Option<T> = None | Some(value: T)

  /** The three ways a roll is refused. */
  datatype BowlingError =
    | FramePinsExceeded
    | ExtraRollWithOpenFrame
    | TenthFrameWithMoreThanThreeRolls

  datatype Result<T> = Ok(value: T) | Err(error: BowlingError)

  /** The number of pins standing at the start of a frame. */
  const AllPins := 10

  function Sum(s: seq<int>): int
  {
    if s == [] then 0 else s[0] + Sum(s[1..])
  }

  lemma {:induction false} SumAppend(s: seq<int>, x: int)
    ensures Sum(s + [x]) == Sum(s) + x
  {
    if s == [] {
      assert s + [x] == [x];
    } else {
      assert (s + [x])[1..] == s[1..] + [x];
      SumAppend(s[1..], x);
    }
  }

  lemma SumOfPair(a: int, b: int)
    ensures Sum([a]) == a && Sum([a, b]) == a + b
  {
    assert [a][1..] == [] && [b][1..] == [] && [a, b][1..] == [b];
  }

  lemma {:induction false} SumNonNegative(s: seq<int>)
    requires forall k :: 0 <= k < |s| ==> s[k] >= 0
    ensures Sum(s) >= 0
  {
    if s != [] {
      SumNonNegative(s[1..]);
    }
  }

  /**
   * A roll is its pin count. Rolls are kept in the order they were thrown;
   * the tenth frame keeps its bonus ball apart from its first two rolls.
   */
  datatype Frame =
    | Normal(rolls: seq<int>)
    | Tenth(rolls: seq<int>, extra: Option<int>)
  {
    /** Pins of the recorded rolls (the tenth frame's bonus ball excluded). */
    function TotalPins(): (pins: int)
      ensures rolls == [] ==> pins == 0
      ensures |rolls| == 1 ==> pins == rolls[0]
      ensures |rolls| == 2 ==> pins == rolls[0] + rolls[1]
    {
      if |rolls| == 2 then
        SumOfPair(rolls[0], rolls[1]);
        assert rolls == [rolls[0], rolls[1]];
        Sum(rolls)
      else if |rolls| == 1 then
        SumOfPair(rolls[0], 0);
        assert rolls == [rolls[0]];
        Sum(rolls)
      else
        Sum(rolls)
    }

    /** All ten pins down with the frame's first ball. */
    predicate IsStrike(): (strike: bool)
      ensures strike ==> Held() != [] && Held()[0] == AllPins
      ensures strike && |rolls| == 1 ==> TotalPins() == AllPins
    {
      |rolls| > 0 && rolls[0] == AllPins
    }

    /** All ten pins down with exactly two balls. */
    predicate IsSpare(): (spare: bool)
      ensures spare ==> |Held()| >= 2 && TotalPins() == AllPins
    {
      |rolls| == 2 && rolls[0] + rolls[1] == AllPins
    }

    /** Every roll the frame holds, in the order thrown, bonus ball last. */
    function Held(): seq<int>
    {
      if Tenth? && extra.Some? then rolls + [extra.value] else rolls
    }

    /** A frame with nothing recorded. */
    predicate IsEmpty()
    {
      rolls == [] && (Tenth? ==> extra.None?)
    }
  }

  /** What a normal frame keeps true: two rolls at most, ten pins at most. */
  ghost predicate NormalOk(f: Frame)
  {
    f.Normal? && |f.rolls| <= 2 && f.TotalPins() <= AllPins
  }

  /**
   * What the tenth frame keeps true: two rolls at most; the bonus ball only
   * after two rolls that make a strike or a spare; an open frame holds ten
   * pins at most.
   */
  ghost predicate TenthOk(f: Frame)
  {
    && f.Tenth?
    && |f.rolls| <= 2
    && (f.extra.Some? ==> |f.rolls| == 2 && (f.IsStrike() || f.IsSpare()))
    && (!f.IsStrike() && !f.IsSpare() ==> f.TotalPins() <= AllPins)
  }

  /**
   * A roll added to a normal frame: refused when the frame would hold more
   * than ten pins; recorded only while the frame holds fewer than two rolls,
   * and otherwise silently dropped.
   */
  function AddNormalRoll(f: Frame, pins: int): (r: Result<Frame>)
    requires f.Normal?
    ensures r.Err? <==> pins + f.TotalPins() > AllPins
    ensures r.Err? ==> r.error == FramePinsExceeded
    ensures r.Ok? && |f.rolls| < 2 ==> r.value == Normal(f.rolls + [pins])
    ensures r.Ok? && |f.rolls| >= 2 ==> r.value == f
    ensures r.Ok? && NormalOk(f) ==> NormalOk(r.value)
  {
    if pins + f.TotalPins() > AllPins then
      Err(FramePinsExceeded)
    else if |f.rolls| < 2 then
      SumAppend(f.rolls, pins);
      Ok(Normal(f.rolls + [pins]))
    else
      Ok(f)
  }

  /**
   * A roll added to the tenth frame: the ten-pin check applies only while
   * the frame is neither a strike nor a spare; the first two rolls are
   * recorded; a third is the bonus ball, allowed once and only after a
   * strike or a spare.
   */
  function AddTenthRoll(f: Frame, pins: int): (r: Result<Frame>)
    requires f.Tenth?
    ensures r == Err(FramePinsExceeded)
            <==> !f.IsStrike() && !f.IsSpare() && pins + f.TotalPins() > AllPins
    ensures r.Ok? && |f.rolls| < 2 ==> r.value == Tenth(f.rolls + [pins], f.extra)
    ensures r.Ok? && |f.rolls| >= 2 ==>
              && |f.rolls| == 2 && f.extra.None? && (f.IsStrike() || f.IsSpare())
              && r.value == Tenth(f.rolls, Some(pins))
    ensures r == Err(ExtraRollWithOpenFrame)
            <==> |f.rolls| == 2 && f.extra.None? && !f.IsStrike() && !f.IsSpare()
                 && pins + f.TotalPins() <= AllPins
    ensures TenthOk(f) ==> (r == Err(TenthFrameWithMoreThanThreeRolls) <==> f.extra.Some?)
    ensures TenthOk(f) && r.Ok? ==> TenthOk(r.value) && r.value.Held() == f.Held() + [pins]
  {
    if !f.IsStrike() && !f.IsSpare() && pins + f.TotalPins() > AllPins then
      Err(FramePinsExceeded)
    else if |f.rolls| < 2 then
      SumAppend(f.rolls, pins);
      Ok(Tenth(f.rolls + [pins], f.extra))
    else if |f.rolls| == 2 && f.extra.None? then
      if f.IsStrike() || f.IsSpare() then
        Ok(Tenth(f.rolls, Some(pins)))
      else
        Err(ExtraRollWithOpenFrame)
    else
      Err(TenthFrameWithMoreThanThreeRolls)
  }

  /** A roll added to whichever kind of frame `f` is. */
  function AddRoll(f: Frame, pins: int): (r: Result<Frame>)
    ensures r.Ok? ==> (r.value.Normal? <==> f.Normal?)
    ensures r.Ok? && (NormalOk(f) || TenthOk(f)) ==>
              r.value.Held() == f.Held() || r.value.Held() == f.Held() + [pins]
  {
    match f
    case Normal(_) => AddNormalRoll(f, pins)
    case Tenth(_, _) => AddTenthRoll(f, pins)
  }

  /**
   * The score of normal frame i of `frames`: its own pins, plus for a strike
   * the next two rolls and for a spare the next roll, as far as they have
   * been thrown. The frame after frame i is frames[i + 1], if there is one.
   */
  function NormalScore(frames: seq<Frame>, i: nat): (points: int)
    requires i < |frames| && frames[i].Normal?
    ensures !frames[i].IsStrike() && !frames[i].IsSpare() ==> points == frames[i].TotalPins()
  {
    var f := frames[i];
    var points := f.TotalPins();
    if f.IsStrike() && i + 1 < |frames| then
      var next := frames[i + 1];
      if |next.rolls| == 2 then
        points + next.TotalPins()
      else if |next.rolls| == 1 then
        if i + 2 < |frames| && |frames[i + 2].rolls| > 0 then
          points + next.rolls[0] + frames[i + 2].rolls[0]
        else if next.Tenth? && next.extra.Some? then
          points + next.rolls[0] + next.extra.value
        else
          points + next.rolls[0]
      else
        points
    else if f.IsSpare() && i + 1 < |frames| then
      if |frames[i + 1].rolls| > 0 then points + frames[i + 1].rolls[0] else points
    else
      points
  }

  /** The score of the tenth frame; it never looks at another frame. */
  function TenthScore(f: Frame): (points: int)
    requires f.Tenth?
    ensures TenthOk(f) ==> points == Sum(f.Held())
  {
    var points := f.TotalPins();
    if (f.IsStrike() || f.IsSpare()) && f.extra.Some? then
      SumAppend(f.rolls, f.extra.value);
      points + f.extra.value
    else
      points
  }

  /** The score of frame i, whichever kind it is. */
  function FrameScore(frames: seq<Frame>, i: nat): (points: int)
    requires i < |frames|
    ensures frames[i].IsEmpty() ==> points == 0
    ensures frames[i].Normal? && !frames[i].IsStrike() && !frames[i].IsSpare() ==>
              points == frames[i].TotalPins()
    ensures TenthOk(frames[i]) ==> points == Sum(frames[i].Held())
  {
    if frames[i].Normal? then NormalScore(frames, i) else TenthScore(frames[i])
  }

  predicate PinsNonNegative(f: Frame)
  {
    (forall k :: 0 <= k < |f.rolls| ==> f.rolls[k] >= 0)
    && (f.Tenth? && f.extra.Some? ==> f.extra.value >= 0)
  }

  /**
   * A bonus that cannot be resolved yet counts nothing, so with no negative
   * pin counts a normal frame scores at least its own pins.
   */
  lemma NormalScoreAtLeastPins(frames: seq<Frame>, i: nat)
    requires i < |frames| && frames[i].Normal?
    requires forall j :: i < j < |frames| ==> PinsNonNegative(frames[j])
    ensures NormalScore(frames, i) >= frames[i].TotalPins()
  {
    if i + 1 < |frames| {
      assert PinsNonNegative(frames[i + 1]);
      SumNonNegative(frames[i + 1].rolls);
      if i + 2 < |frames| {
        assert PinsNonNegative(frames[i + 2]);
      }
    }
  }
}
