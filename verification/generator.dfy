/** The driver `generate` of bowling/bowling/score.py: it walks the rolls once, opens frames
    in order, feeds each roll to the current frame, looks ahead in the input for the bonus
    rolls of a strike or spare, and emits each frame once.

    The Python loop keeps two variables, the current frame and the list of emitted frames;
    `State` holds both, `Step` is one pass of the loop body and `Iterate` the loop over a
    prefix of the input.  The `IndexError` the lookahead swallows becomes an explicit length check. */
module Generator {
  import opened Wrappers
  import opened Frames

  datatype State = State(frame: Frame, frames: seq<Frame>)

  /** Before the first roll: frame 1 with a previous score of 0, nothing emitted. */
  function Start(): (s: State)
    ensures s.frames == [] && s.frame.number == 1 && s.frame.prevScore == 0
    ensures WellFormed(s.frame) && s.frame.rolls == [] && !s.frame.rollsCompleted
  {
    State(Blank(1, 0), [])
  }

  /** The number of rolls after a frame's own rolls that settle it: two after a strike, one
      after a spare (in the last frame these are further own rolls). */
  function Need(f: Frame): nat {
    if f.strike then 2 else if f.spare then 1 else 0
  }

  /** The `try` block after `add_roll`: a spare takes the next roll, then a strike takes the
      next two, each through `add_roll`; input running out ends the block quietly, any other
      failure propagates.  The rolls it takes are the ones that follow, as many as are owed
      and present. */
  function Lookahead(rolls: seq<int>, index: nat, f: Frame): (r: Result<Frame, Error>)
    ensures !f.strike && !f.spare ==> r == Success(f)
    ensures r.Success? ==> r.value.number == f.number && r.value.prevScore == f.prevScore
    ensures r.Success? && f.score.Some? ==> r.value.score.Some?
    ensures r.Failure? ==> r.error in {CompletedFrame, InvalidPins, FrameOverflow}
  {
    if f.spare && index + 1 >= |rolls| then Success(f)
    else
      var f1 :- if f.spare then AddRoll(f, rolls[index + 1]) else Success(f);
      if !f1.strike || index + 1 >= |rolls| then Success(f1)
      else
        var f2 :- AddRoll(f1, rolls[index + 1]);
        if index + 2 >= |rolls| then Success(f2)
        else AddRoll(f2, rolls[index + 2])
  }

  /** One pass of the loop body for the roll at `index`.  A finished tenth frame refuses the
      roll if it is open and skips it after a strike or spare; otherwise a frame whose own
      rolls are complete is followed by a new one, the roll is added, the lookahead runs, and
      the frame is emitted when its own rolls are complete or the input ends. */
  function Step(rolls: seq<int>, index: nat, s: State): (r: Result<State, Error>)
    requires index < |rolls|
    requires s.frame.rollsCompleted ==> s.frame.score.Some?
    ensures r.Success? ==> s.frames <= r.value.frames && |r.value.frames| <= |s.frames| + 1
    ensures r.Success? ==> s.frame.number <= r.value.frame.number <= s.frame.number + 1
    ensures r.Success? ==> (r.value.frame.rollsCompleted ==> r.value.frame.score.Some?)
  {
    var frame := s.frame;
    if frame.EndFrame() && frame.completed then
      if !frame.strike && !frame.spare then Failure(FramesExceeded)
      else Success(s)
    else
      var current :- if frame.rollsCompleted then NewFrame(frame.number + 1, frame.score.value)
                    else Success(frame);
      var added :- AddRoll(current, rolls[index]);
      var looked :- Lookahead(rolls, index, added);
      var emit := looked.rollsCompleted || index == |rolls| - 1;
      Success(State(looked, if emit then s.frames + [looked] else s.frames))
  }

  /** The state after the loop body has run for the first `count` rolls; the first failure
      aborts the loop. */
  function Iterate(rolls: seq<int>, count: nat): (r: Result<State, Error>)
    requires count <= |rolls|
    ensures r.Success? ==> (r.value.frame.rollsCompleted ==> r.value.frame.score.Some?)
  {
    if count == 0 then Success(Start())
    else
      var s :- Iterate(rolls, count - 1);
      Step(rolls, count - 1, s)
  }

  /** `generate`: the emitted frames once every roll has been seen, or the first failure. */
  function Generate(rolls: seq<int>): Result<seq<Frame>, Error> {
    var s :- Iterate(rolls, |rolls|);
    Success(s.frames)
  }
}
