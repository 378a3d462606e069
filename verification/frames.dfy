/** One bowling frame as a state machine (the `Frame` class of bowling/bowling/score.py).

    A frame owns the rolls thrown in it (`rolls`) and, in frames 1-9, the rolls it borrows
    from later frames to settle a strike or spare bonus (`nextRolls`).  Every accepted roll
    recomputes the stored flags `strike`, `spare`, `score`, `completed` (the score is final)
    and `rollsCompleted` (no further own roll is accepted).  The Python object is mutated in
    place; here `AddRoll` returns the next snapshot. */
module Frames {
  import opened Wrappers

  const MAX_PINS: int := 10
  const MAX_FRAMES: int := 10

  /** The failures the engine raises, one constructor per `raise` in the source. */
  datatype Error =
    | CompletedFrame   // a roll offered to a frame whose score is already final
    | InvalidPins      // a roll above MAX_PINS
    | FrameOverflow    // the frame's own rolls would exceed its cap
    | TooManyFrames    // a frame numbered above MAX_FRAMES
    | FramesExceeded   // a roll after a finished open tenth frame

  /** `score` is `None` until the first roll is added, as in the source. */
  datatype Frame = Frame(
    number: int,
    prevScore: int,
    rolls: seq<int>,
    nextRolls: seq<int>,
    strike: bool,
    spare: bool,
    score: Option<int>,
    completed: bool,
    rollsCompleted: bool)
  {
    predicate EndFrame() {
      number == MAX_FRAMES
    }
  }

  function Sum(s: seq<int>): int {
    if |s| == 0 then 0 else s[0] + Sum(s[1..])
  }

  lemma SumAppend(s: seq<int>, x: int)
    ensures Sum(s + [x]) == Sum(s) + x
  {
    if s != [] {
      assert (s + [x])[1..] == s[1..] + [x];
      SumAppend(s[1..], x);
    }
  }

  function Min(a: int, b: int): int {
    if a <= b then a else b
  }

  /** The fields a freshly constructed frame starts with. */
  function Blank(number: int, prevScore: int): Frame {
    Frame(number, prevScore, [], [], false, false, None, false, false)
  }

  /** The constructor: only a number above MAX_FRAMES is refused (nothing checks for 0 or
      below). */
  function NewFrame(number: int, prevScore: int): (r: Result<Frame, Error>)
    ensures r.Success? <==> number <= MAX_FRAMES
    ensures r.Failure? ==> r.error == TooManyFrames
    ensures r.Success? ==> WellFormed(r.value) && r.value.rolls == [] && r.value.nextRolls == []
    ensures r.Success? ==> r.value.number == number && r.value.prevScore == prevScore
    ensures r.Success? ==> !r.value.completed && !r.value.rollsCompleted && r.value.score.None?
  {
    if number > MAX_FRAMES then Failure(TooManyFrames) else Success(Blank(number, prevScore))
  }

  /** The largest sum the frame's own rolls may reach with the next own roll: one rack,
      raised by a rack in the last frame only when the pins already down are exactly one
      or two racks. */
  function RollsSumMax(f: Frame): (m: int)
    ensures m == MAX_PINS
            || (f.EndFrame() && (Sum(f.rolls) == MAX_PINS || Sum(f.rolls) == 2 * MAX_PINS)
                && m == Sum(f.rolls) + MAX_PINS)
    ensures f.EndFrame() && (Sum(f.rolls) == MAX_PINS || Sum(f.rolls) == 2 * MAX_PINS) ==>
              m == Sum(f.rolls) + MAX_PINS
  {
    if f.EndFrame() && Sum(f.rolls) == MAX_PINS * 2 then MAX_PINS * 3
    else if f.EndFrame() && Sum(f.rolls) == MAX_PINS then MAX_PINS * 2
    else MAX_PINS
  }

  /** `_calculate_completed`, read on a frame whose strike and spare flags are fresh. */
  function CalculateCompleted(f: Frame): bool {
    if f.strike && f.EndFrame() && |f.rolls| == 3 then true
    else if f.strike && !f.EndFrame() && |f.nextRolls| == 2 then true
    else if f.spare && f.EndFrame() && |f.rolls| == 3 then true
    else if f.spare && |f.nextRolls| == 1 then true
    else if !f.strike && !f.spare && |f.rolls| == 2 then true
    else false
  }

  /** `_calculate_rolls_completed`. */
  function CalculateRollsCompleted(f: Frame): bool {
    if f.EndFrame() && (f.strike || f.spare) then |f.rolls| == 3
    else if !f.EndFrame() && f.strike then |f.rolls| == 1
    else |f.rolls| == 2
  }

  /** The field updates that close every successful `add_roll`, in the source's order. */
  function Recalculate(g: Frame): (h: Frame)
    ensures h.number == g.number && h.prevScore == g.prevScore
    ensures h.rolls == g.rolls && h.nextRolls == g.nextRolls
    ensures h.strike == (|h.rolls| >= 1 && h.rolls[0] == MAX_PINS)
    ensures h.spare == (|h.rolls| >= 2 && h.rolls[0] + h.rolls[1] == MAX_PINS)
    ensures h.score == Some(h.prevScore + Sum(h.rolls) + Sum(h.nextRolls))
    ensures h.completed == CalculateCompleted(h) && h.rollsCompleted == CalculateRollsCompleted(h)
  {
    var g1 := g.(strike := |g.rolls| >= 1 && g.rolls[0] == MAX_PINS,
                 spare := |g.rolls| >= 2 && g.rolls[0] + g.rolls[1] == MAX_PINS,
                 score := Some(g.prevScore + Sum(g.rolls) + Sum(g.nextRolls)));
    g1.(completed := CalculateCompleted(g1), rollsCompleted := CalculateRollsCompleted(g1))
  }

  /** The frame numbered `number`, starting from `prevScore`, holding the given own and
      bonus rolls, with its flags and score as `add_roll` leaves them. */
  function Scored(number: int, prevScore: int, rolls: seq<int>, nextRolls: seq<int>): Frame {
    Recalculate(Blank(number, prevScore).(rolls := rolls, nextRolls := nextRolls))
  }

  /** `add_roll`: refuse a roll on a completed frame, then a roll above MAX_PINS (a negative
      roll passes both checks); route it to the bonus rolls of a strike or spare in frames
      1-9, else to the own rolls under the cap of `RollsSumMax`. */
  function AddRoll(f: Frame, roll: int): (r: Result<Frame, Error>)
    ensures f.completed ==> r == Failure(CompletedFrame)
    ensures !f.completed && roll > MAX_PINS ==> r == Failure(InvalidPins)
    ensures !f.completed && roll <= MAX_PINS && !f.EndFrame() && (f.strike || f.spare) ==>
              r.Success? && r.value.rolls == f.rolls && r.value.nextRolls == f.nextRolls + [roll]
    ensures !f.completed && roll <= MAX_PINS && (f.EndFrame() || !(f.strike || f.spare)) ==>
              (r.Success? <==> Sum(f.rolls) + roll <= RollsSumMax(f))
    ensures !f.completed && roll <= MAX_PINS && (f.EndFrame() || !(f.strike || f.spare)) && r.Success? ==>
              r.value.rolls == f.rolls + [roll] && r.value.nextRolls == f.nextRolls
    ensures !f.completed && roll <= MAX_PINS && (f.EndFrame() || !(f.strike || f.spare)) && r.Failure? ==>
              r.error == FrameOverflow
    ensures r.Success? ==> r.value.number == f.number && r.value.prevScore == f.prevScore
    ensures r.Success? ==> Sum(r.value.rolls) + Sum(r.value.nextRolls) == Sum(f.rolls) + Sum(f.nextRolls) + roll
    ensures r.Success? ==> r.value.score == Some(f.prevScore + Sum(f.rolls) + Sum(f.nextRolls) + roll)
  {
    if f.completed then Failure(CompletedFrame)
    else if roll > MAX_PINS then Failure(InvalidPins)
    else if !f.EndFrame() && (f.strike || f.spare) then
      SumAppend(f.nextRolls, roll);
      Success(Recalculate(f.(nextRolls := f.nextRolls + [roll])))
    else if Sum(f.rolls) + roll > RollsSumMax(f) then Failure(FrameOverflow)
    else
      SumAppend(f.rolls, roll);
      Success(Recalculate(f.(rolls := f.rolls + [roll])))
  }

  /** After every successful roll the derived fields describe the new rolls: a strike is a
      first own roll of MAX_PINS, a spare two first own rolls summing to MAX_PINS, and the
      score is the previous frame's score plus every own and bonus roll. */
  lemma AddRollRecomputes(f: Frame, roll: int)
    requires AddRoll(f, roll).Success?
    ensures var g := AddRoll(f, roll).value;
            && g.strike == (|g.rolls| >= 1 && g.rolls[0] == MAX_PINS)
            && g.spare == (|g.rolls| >= 2 && g.rolls[0] + g.rolls[1] == MAX_PINS)
            && g.score == Some(f.prevScore + Sum(g.rolls) + Sum(g.nextRolls))
            && g.completed == CalculateCompleted(g)
            && g.rollsCompleted == CalculateRollsCompleted(g)
  {
    var h := if !f.EndFrame() && (f.strike || f.spare) then f.(nextRolls := f.nextRolls + [roll])
             else f.(rolls := f.rolls + [roll]);
    RecalculateDescribes(h);
    assert AddRoll(f, roll).value == Recalculate(h);
  }

  lemma RecalculateDescribes(h: Frame)
    ensures var g := Recalculate(h);
            && g.prevScore == h.prevScore
            && g.strike == (|g.rolls| >= 1 && g.rolls[0] == MAX_PINS)
            && g.spare == (|g.rolls| >= 2 && g.rolls[0] + g.rolls[1] == MAX_PINS)
            && g.score == Some(h.prevScore + Sum(g.rolls) + Sum(g.nextRolls))
            && g.completed == CalculateCompleted(g)
            && g.rollsCompleted == CalculateRollsCompleted(g)
  {
  }

  /** The state every frame built from `NewFrame` and `AddRoll` is in: the stored flags agree
      with the rolls, every roll is at most MAX_PINS, and the own and bonus rolls have the
      shapes the caps and tables allow. */
  predicate WellFormed(f: Frame) {
    && f.number <= MAX_FRAMES
    && f.strike == (|f.rolls| >= 1 && f.rolls[0] == MAX_PINS)
    && f.spare == (|f.rolls| >= 2 && f.rolls[0] + f.rolls[1] == MAX_PINS)
    && f.score == (if f.rolls == [] then None else Some(f.prevScore + Sum(f.rolls) + Sum(f.nextRolls)))
    && f.completed == CalculateCompleted(f)
    && f.rollsCompleted == CalculateRollsCompleted(f)
    && (forall k :: 0 <= k < |f.rolls| ==> f.rolls[k] <= MAX_PINS)
    && (forall k :: 0 <= k < |f.nextRolls| ==> f.nextRolls[k] <= MAX_PINS)
    && if f.EndFrame() then
         && f.nextRolls == []
         && |f.rolls| <= 3
         && (|f.rolls| == 3 ==> f.strike || f.spare)
         && Sum(f.rolls) <= 3 * MAX_PINS
       else
         && |f.rolls| <= 2
         && Sum(f.rolls) <= MAX_PINS
         && (f.strike ==> |f.rolls| == 1 && |f.nextRolls| <= 2)
         && (f.spare ==> |f.nextRolls| <= 1)
         && (!f.strike && !f.spare ==> f.nextRolls == [])
  }

  /** The "completed" table by case: a strike or spare in the last frame needs three own
      rolls, elsewhere two or one bonus rolls; an open frame needs two own rolls. */
  predicate ScoreFinal(f: Frame) {
    if f.strike || f.spare then
      if f.EndFrame() then |f.rolls| == 3
      else |f.nextRolls| == (if f.strike then 2 else 1)
    else |f.rolls| == 2
  }

  lemma AddRollKeepsWellFormed(f: Frame, roll: int)
    requires WellFormed(f)
    requires AddRoll(f, roll).Success?
    ensures WellFormed(AddRoll(f, roll).value)
    ensures AddRoll(f, roll).value.score == Some(f.prevScore + Sum(f.rolls) + Sum(f.nextRolls) + roll)
  {
    if !f.EndFrame() && (f.strike || f.spare) {
      BonusRollKeepsWellFormed(f, roll);
    } else {
      OwnRollKeepsWellFormed(f, roll);
    }
  }

  lemma BonusRollKeepsWellFormed(f: Frame, roll: int)
    requires WellFormed(f) && !f.completed && roll <= MAX_PINS
    requires !f.EndFrame() && (f.strike || f.spare)
    ensures var g := Recalculate(f.(nextRolls := f.nextRolls + [roll]));
            WellFormed(g) && g.score == Some(f.prevScore + Sum(f.rolls) + Sum(f.nextRolls) + roll)
  {
    SumAppend(f.nextRolls, roll);
    var g := Recalculate(f.(nextRolls := f.nextRolls + [roll]));
    assert g.strike == f.strike && g.spare == f.spare;
    assert forall k :: 0 <= k < |g.nextRolls| ==> g.nextRolls[k] <= MAX_PINS;
  }

  lemma OwnRollKeepsWellFormed(f: Frame, roll: int)
    requires WellFormed(f) && !f.completed && roll <= MAX_PINS
    requires f.EndFrame() || !(f.strike || f.spare)
    requires Sum(f.rolls) + roll <= RollsSumMax(f)
    ensures var g := Recalculate(f.(rolls := f.rolls + [roll]));
            WellFormed(g) && g.score == Some(f.prevScore + Sum(f.rolls) + Sum(f.nextRolls) + roll)
  {
    SumAppend(f.rolls, roll);
    var g := Recalculate(f.(rolls := f.rolls + [roll]));
    assert g.rolls == f.rolls + [roll];
    if f.rolls != [] {
      assert g.rolls[0] == f.rolls[0];
    }
    if |f.rolls| >= 2 {
      assert g.rolls[1] == f.rolls[1];
    }
    assert forall k :: 0 <= k < |g.rolls| ==> g.rolls[k] <= MAX_PINS;
  }

  /** What `completed` and `rollsCompleted` mean for a well-formed frame, and how they
      relate: a finished score means no more own rolls, the two agree in the last frame,
      and a strike in frames 1-9 closes its own rolls at once but its score only after two
      bonus rolls. */
  lemma CompletionTables(f: Frame)
    requires WellFormed(f)
    ensures f.completed <==> ScoreFinal(f)
    ensures f.completed ==> f.rollsCompleted
    ensures f.EndFrame() ==> (f.completed <==> f.rollsCompleted)
    ensures !f.EndFrame() && f.strike ==> f.rollsCompleted && (f.completed <==> |f.nextRolls| == 2)
  {
  }

  /** A frame whose own rolls are complete never takes another own roll. */
  lemma ClosedFrameTakesNoOwnRoll(f: Frame, roll: int)
    requires WellFormed(f) && f.rollsCompleted
    ensures AddRoll(f, roll).Success? ==> AddRoll(f, roll).value.rolls == f.rolls
  {
    CompletionTables(f);
  }

  /** A frame whose own rolls are not complete takes one more own roll: the largest one
      that fits under its cap (which after `10, 3` in the last frame is -3). */
  lemma OpenFrameTakesOwnRoll(f: Frame)
    requires WellFormed(f) && !f.rollsCompleted
    ensures var roll := Min(MAX_PINS, RollsSumMax(f) - Sum(f.rolls));
            AddRoll(f, roll).Success? && AddRoll(f, roll).value.rolls == f.rolls + [roll]
  {
    CompletionTables(f);
  }
}
