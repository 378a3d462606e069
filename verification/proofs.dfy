/** What `generate` guarantees about the frames it returns, proved by a loop invariant over
    `Iterate`.

    The invariant has two halves.  `Emission` is the bookkeeping of the emitted list: frames
    1..k in order, each well formed and chained to the score before it, the current frame
    appended exactly when its own rolls are complete or the input has ended.  `Shapes` ties
    the frames to the input: the own rolls of the frames before the current one are the
    input up to some position `b`, the current frame's own rolls start there, and every
    emitted frame in 1-9 holds as bonus the rolls that follow its own rolls. */
module GeneratorProofs {
  import opened Wrappers
  import opened Frames
  import opened Generator

  /** The own rolls of the frames, in order. */
  function Flatten(fs: seq<Frame>): seq<int> {
    if |fs| == 0 then [] else Flatten(fs[..|fs| - 1]) + fs[|fs| - 1].rolls
  }

  lemma SliceExtends(rolls: seq<int>, b: nat, i: nat)
    requires b <= i < |rolls|
    ensures rolls[b..i] + [rolls[i]] == rolls[b..i + 1]
  {
  }

  lemma FlattenStep(fs: seq<Frame>, j: nat)
    requires j < |fs|
    ensures Flatten(fs[..j + 1]) == Flatten(fs[..j]) + fs[j].rolls
  {
    assert fs[..j + 1][..j] == fs[..j];
  }

  /** Frames numbered 1..|fs|, well formed and scored, each starting from the score of the
      one before it (0 for the first), and all but the last with their own rolls complete. */
  predicate Chained(fs: seq<Frame>) {
    && |fs| <= MAX_FRAMES
    && (forall j :: 0 <= j < |fs| ==>
          fs[j].number == j + 1 && WellFormed(fs[j]) && fs[j].rolls != [] && fs[j].score.Some?)
    && (|fs| > 0 ==> fs[0].prevScore == 0)
    && (forall j :: 0 < j < |fs| ==> fs[j].prevScore == fs[j - 1].score.value)
    && (forall j :: 0 <= j < |fs| - 1 ==> fs[j].rollsCompleted)
  }

  /** The input rolls starting at `o`, as many as frame `f`'s strike or spare owes and the
      input still holds. */
  function Following(rolls: seq<int>, o: nat, f: Frame): (r: seq<int>)
    requires o <= |rolls|
    ensures |r| == Min(Need(f), |rolls| - o)
  {
    rolls[o..o + Min(Need(f), |rolls| - o)]
  }

  /** No roll knocks down more than MAX_PINS. */
  predicate WithinPins(xs: seq<int>) {
    forall k :: 0 <= k < |xs| ==> xs[k] <= MAX_PINS
  }

  /** Every emitted frame of 1-9 took as bonus the rolls that follow its own rolls. */
  predicate BonusFromInput(rolls: seq<int>, fs: seq<Frame>) {
    forall j :: 0 <= j < |fs| && !fs[j].EndFrame() ==>
      |Flatten(fs[..j + 1])| <= |rolls| && fs[j].nextRolls == Following(rolls, |Flatten(fs[..j + 1])|, fs[j])
  }

  /** The bookkeeping after `i` rolls. */
  predicate Emission(rolls: seq<int>, i: nat, s: State) {
    var f := s.frame;
    var fs := s.frames;
    var k := f.number;
    && 1 <= k
    && WellFormed(f)
    && (i == 0 ==> s == Start())
    && (i > 0 ==> f.rolls != [])
    && Chained(fs)
    && k - 1 <= |fs| <= k
    && (|fs| == k ==> fs[k - 1] == f)
    && (|fs| == k - 1 ==> f.prevScore == (if k == 1 then 0 else fs[k - 2].score.value))
    && (|fs| == k - 1 && k >= 2 ==> fs[k - 2].rollsCompleted)
    && (f.rollsCompleted ==> |fs| == k)
    && (i < |rolls| && |fs| == k ==> f.rollsCompleted)
    && (i == |rolls| && i > 0 ==> |fs| == k)
  }

  /** The tenth frame, whose own rolls start at input position `b`, after `i` rolls.  Either
      its own rolls are the input from `b` on (the lookahead takes the rolls a strike or
      spare owes ahead of the loop, as many as the input holds), or the input ended right
      after a strike and one more roll, and the loop fed that last roll a second time. */
  predicate EndShape(rolls: seq<int>, i: nat, b: nat, f: Frame) {
    || (&& b + |f.rolls| <= |rolls|
        && f.rolls == rolls[b..b + |f.rolls|]
        && (f.strike || f.spare ==> |f.rolls| == Min(3, |rolls| - b))
        && (f.completed || i == b + |f.rolls| || (f.strike && |f.rolls| == 2 && i + 1 == |rolls| && b + 2 == |rolls|))
        && (!f.completed && (f.strike || f.spare) ==> i == |rolls| || (f.strike && |f.rolls| == 2 && i + 1 == |rolls|))
        && (f.completed && !f.strike && !f.spare ==> i == b + |f.rolls|))
    || (&& i == |rolls| && b + 2 == |rolls|
        && f.rolls == rolls[b..] + [rolls[|rolls| - 1]]
        && f.strike)
  }

  /** Where the frames' rolls come from after `i` rolls. */
  predicate Shapes(rolls: seq<int>, i: nat, s: State)
    requires 1 <= s.frame.number && s.frame.number - 1 <= |s.frames|
  {
    var f := s.frame;
    var b := |Flatten(s.frames[..f.number - 1])|;
    && b <= i <= |rolls|
    && Flatten(s.frames[..f.number - 1]) == rolls[..b]
    && BonusFromInput(rolls, s.frames)
    && (!f.EndFrame() ==> f.rolls == rolls[b..i])
    && (f.EndFrame() ==> EndShape(rolls, i, b, f))
  }

  predicate Inv(rolls: seq<int>, i: nat, s: State) {
    && i <= |rolls|
    && Emission(rolls, i, s)
    && Shapes(rolls, i, s)
  }

  lemma StartInv(rolls: seq<int>)
    ensures Inv(rolls, 0, Start())
  {
  }

  /** In frames 1-9 the lookahead hands a fresh strike or spare the rolls that follow in the
      input, as many as it owes and the input holds, and fails only on a roll above
      MAX_PINS among them. */
  lemma LookaheadTakesFollowing(rolls: seq<int>, i: nat, f: Frame)
    requires i < |rolls| && WellFormed(f) && !f.EndFrame() && f.nextRolls == []
    ensures var r := Lookahead(rolls, i, f);
            && (r.Success? <==> WithinPins(Following(rolls, i + 1, f)))
            && (r.Failure? ==> r.error == InvalidPins)
            && (r.Success? ==> r.value.rolls == f.rolls && r.value.nextRolls == Following(rolls, i + 1, f))
            && (r.Success? ==> WellFormed(r.value) && r.value.rollsCompleted == f.rollsCompleted)
  {
    if f.strike {
      LookaheadStrike(rolls, i, f);
    } else if f.spare {
      LookaheadSpare(rolls, i, f);
    }
  }

  lemma LookaheadSpare(rolls: seq<int>, i: nat, f: Frame)
    requires i < |rolls| && WellFormed(f) && !f.EndFrame() && f.nextRolls == [] && f.spare && !f.strike
    ensures var r := Lookahead(rolls, i, f);
            && (r.Success? <==> WithinPins(Following(rolls, i + 1, f)))
            && (r.Failure? ==> r.error == InvalidPins)
            && (r.Success? ==> r.value.rolls == f.rolls && r.value.nextRolls == Following(rolls, i + 1, f))
            && (r.Success? ==> WellFormed(r.value) && r.value.rollsCompleted == f.rollsCompleted)
  {
    if i + 1 < |rolls| {
      var x := rolls[i + 1];
      assert Following(rolls, i + 1, f) == [x];
      if x <= MAX_PINS {
        AddRollKeepsWellFormed(f, x);
        AddRollRecomputes(f, x);
      }
    }
  }

  lemma LookaheadStrike(rolls: seq<int>, i: nat, f: Frame)
    requires i < |rolls| && WellFormed(f) && !f.EndFrame() && f.nextRolls == [] && f.strike
    ensures var r := Lookahead(rolls, i, f);
            && (r.Success? <==> WithinPins(Following(rolls, i + 1, f)))
            && (r.Failure? ==> r.error == InvalidPins)
            && (r.Success? ==> r.value.rolls == f.rolls && r.value.nextRolls == Following(rolls, i + 1, f))
            && (r.Success? ==> WellFormed(r.value) && r.value.rollsCompleted == f.rollsCompleted)
  {
    if i + 1 < |rolls| {
      var x := rolls[i + 1];
      if x <= MAX_PINS {
        AddRollKeepsWellFormed(f, x);
        AddRollRecomputes(f, x);
        var f2 := AddRoll(f, x).value;
        assert f2.nextRolls == [x];
        if i + 2 < |rolls| {
          var y := rolls[i + 2];
          assert Following(rolls, i + 1, f) == [x, y];
          if y <= MAX_PINS {
            AddRollKeepsWellFormed(f2, y);
            AddRollRecomputes(f2, y);
            assert AddRoll(f2, y).value.nextRolls == [x, y];
          }
        } else {
          assert Following(rolls, i + 1, f) == [x];
        }
      } else {
        assert Following(rolls, i + 1, f)[0] == x;
      }
    }
  }

  /** In the tenth frame the lookahead hands a first-roll strike, or a spare of two rolls,
      the following input rolls as further own rolls; it fails only on a roll above MAX_PINS
      or one over the frame's cap. */
  lemma LookaheadEndFrame(rolls: seq<int>, i: nat, f: Frame)
    requires i < |rolls| && WellFormed(f) && f.EndFrame() && !f.completed
    requires f.strike ==> |f.rolls| == 1 || i + 1 == |rolls|
    requires f.spare && !f.strike ==> |f.rolls| == 2
    ensures var r := Lookahead(rolls, i, f);
            && (r.Failure? ==> r.error == InvalidPins || r.error == FrameOverflow)
            && (r.Success? ==> WellFormed(r.value) && r.value.rolls == f.rolls + Following(rolls, i + 1, f))
  {
    if i + 1 == |rolls| {
      assert Following(rolls, i + 1, f) == [];
      assert f.rolls + [] == f.rolls;
    } else if f.strike {
      LookaheadEndStrike(rolls, i, f);
    } else if f.spare {
      var x := rolls[i + 1];
      assert Following(rolls, i + 1, f) == [x];
      if AddRoll(f, x).Success? {
        AddRollKeepsWellFormed(f, x);
        AddRollRecomputes(f, x);
      }
    } else {
      assert Following(rolls, i + 1, f) == [];
      assert f.rolls + [] == f.rolls;
    }
  }

  lemma LookaheadEndStrike(rolls: seq<int>, i: nat, f: Frame)
    requires i + 1 < |rolls| && WellFormed(f) && f.EndFrame() && f.strike && |f.rolls| == 1
    ensures var r := Lookahead(rolls, i, f);
            && (r.Failure? ==> r.error == InvalidPins || r.error == FrameOverflow)
            && (r.Success? ==> WellFormed(r.value) && r.value.rolls == f.rolls + Following(rolls, i + 1, f))
  {
    var x := rolls[i + 1];
    if AddRoll(f, x).Success? {
      AddRollKeepsWellFormed(f, x);
      AddRollRecomputes(f, x);
      var f2 := AddRoll(f, x).value;
      assert f2.rolls == f.rolls + [x] && f2.strike && !f2.completed;
      if i + 2 < |rolls| {
        var y := rolls[i + 2];
        assert Following(rolls, i + 1, f) == [x, y];
        if AddRoll(f2, y).Success? {
          AddRollKeepsWellFormed(f2, y);
          assert AddRoll(f2, y).value.rolls == f.rolls + [x, y];
        }
      } else {
        assert Following(rolls, i + 1, f) == [x];
      }
    }
  }

  /** The frame a roll goes to: the current one, or a new one after it when its own rolls
      are complete. */
  function Current(f: Frame): Frame
    requires f.rollsCompleted ==> f.score.Some?
  {
    if f.rollsCompleted then Blank(f.number + 1, f.score.value) else f
  }

  /** A pass of the loop body that does not skip the roll: the roll goes to `Current`, the
      lookahead runs on the result, and that frame is emitted when its own rolls are
      complete or the input ends; a failure of either call is the pass's failure. */
  lemma StepUnfolds(rolls: seq<int>, i: nat, s: State)
    requires i < |rolls| && (s.frame.rollsCompleted ==> s.frame.score.Some?)
    requires !(s.frame.EndFrame() && s.frame.completed)
    requires s.frame.rollsCompleted ==> s.frame.number < MAX_FRAMES
    ensures var a := AddRoll(Current(s.frame), rolls[i]);
            a.Failure? ==> Step(rolls, i, s) == Failure(a.error)
    ensures var a := AddRoll(Current(s.frame), rolls[i]);
            a.Success? && Lookahead(rolls, i, a.value).Failure? ==>
              Step(rolls, i, s) == Failure(Lookahead(rolls, i, a.value).error)
    ensures var a := AddRoll(Current(s.frame), rolls[i]);
            a.Success? && Lookahead(rolls, i, a.value).Success? ==>
              var looked := Lookahead(rolls, i, a.value).value;
              Step(rolls, i, s)
              == Success(State(looked, if looked.rollsCompleted || i == |rolls| - 1 then s.frames + [looked] else s.frames))
  {
    StepAddFails(rolls, i, s);
    StepLookaheadFails(rolls, i, s);
    StepPasses(rolls, i, s);
  }

  lemma StepAddFails(rolls: seq<int>, i: nat, s: State)
    requires i < |rolls| && (s.frame.rollsCompleted ==> s.frame.score.Some?)
    requires !(s.frame.EndFrame() && s.frame.completed)
    requires s.frame.rollsCompleted ==> s.frame.number < MAX_FRAMES
    ensures var a := AddRoll(Current(s.frame), rolls[i]);
            a.Failure? ==> Step(rolls, i, s) == Failure(a.error)
  {
  }

  lemma StepLookaheadFails(rolls: seq<int>, i: nat, s: State)
    requires i < |rolls| && (s.frame.rollsCompleted ==> s.frame.score.Some?)
    requires !(s.frame.EndFrame() && s.frame.completed)
    requires s.frame.rollsCompleted ==> s.frame.number < MAX_FRAMES
    ensures var a := AddRoll(Current(s.frame), rolls[i]);
            a.Success? && Lookahead(rolls, i, a.value).Failure? ==>
              Step(rolls, i, s) == Failure(Lookahead(rolls, i, a.value).error)
  {
  }

  lemma StepPasses(rolls: seq<int>, i: nat, s: State)
    requires i < |rolls| && (s.frame.rollsCompleted ==> s.frame.score.Some?)
    requires !(s.frame.EndFrame() && s.frame.completed)
    requires s.frame.rollsCompleted ==> s.frame.number < MAX_FRAMES
    ensures var a := AddRoll(Current(s.frame), rolls[i]);
            a.Success? && Lookahead(rolls, i, a.value).Success? ==>
              var looked := Lookahead(rolls, i, a.value).value;
              Step(rolls, i, s)
              == Success(State(looked, if looked.rollsCompleted || i == |rolls| - 1 then s.frames + [looked] else s.frames))
  {
    var a := AddRoll(Current(s.frame), rolls[i]);
    if a.Success? && Lookahead(rolls, i, a.value).Success? {
      PassThrough(rolls, i, s, a.value, Lookahead(rolls, i, a.value).value);
    }
  }

  /** A pass whose `add_roll` and lookahead both succeed. */
  lemma PassThrough(rolls: seq<int>, i: nat, s: State, added: Frame, looked: Frame)
    requires i < |rolls| && (s.frame.rollsCompleted ==> s.frame.score.Some?)
    requires !(s.frame.EndFrame() && s.frame.completed)
    requires s.frame.rollsCompleted ==> s.frame.number < MAX_FRAMES
    requires AddRoll(Current(s.frame), rolls[i]) == Success(added) && Lookahead(rolls, i, added) == Success(looked)
    ensures Step(rolls, i, s)
            == Success(State(looked, if looked.rollsCompleted || i == |rolls| - 1 then s.frames + [looked] else s.frames))
  {
    var frame := s.frame;
    assert (if frame.rollsCompleted then NewFrame(frame.number + 1, frame.score.value) else Success(frame))
           == Success(Current(frame));
  }

  /** At the last roll the lookahead finds nothing to take. */
  lemma LookaheadAtEnd(rolls: seq<int>, i: nat, f: Frame)
    requires i + 1 == |rolls|
    ensures Lookahead(rolls, i, f) == Success(f)
  {
  }

  lemma FlattenAppend(fs: seq<Frame>, g: Frame)
    ensures Flatten(fs + [g]) == Flatten(fs) + g.rolls
  {
    assert (fs + [g])[..|fs|] == fs;
  }

  lemma BonusAppend(rolls: seq<int>, fs: seq<Frame>, g: Frame, o: nat)
    requires BonusFromInput(rolls, fs)
    requires !g.EndFrame() ==> o == |Flatten(fs)| + |g.rolls| <= |rolls| && g.nextRolls == Following(rolls, o, g)
    ensures BonusFromInput(rolls, fs + [g])
  {
    var fs' := fs + [g];
    forall j | 0 <= j < |fs'| && !fs'[j].EndFrame()
      ensures |Flatten(fs'[..j + 1])| <= |rolls| && fs'[j].nextRolls == Following(rolls, |Flatten(fs'[..j + 1])|, fs'[j])
    {
      if j < |fs| {
        BonusPrefix(rolls, fs, g, j);
      } else {
        BonusLast(rolls, fs, g, o, j);
      }
    }
  }

  lemma BonusLast(rolls: seq<int>, fs: seq<Frame>, g: Frame, o: nat, j: nat)
    requires j == |fs| && !g.EndFrame()
    requires o == |Flatten(fs)| + |g.rolls| <= |rolls| && g.nextRolls == Following(rolls, o, g)
    ensures var fs' := fs + [g];
            |Flatten(fs'[..j + 1])| <= |rolls| && fs'[j].nextRolls == Following(rolls, |Flatten(fs'[..j + 1])|, fs'[j])
  {
    assert (fs + [g])[j] == g;
    assert (fs + [g])[..j + 1] == fs + [g];
    FlattenAppend(fs, g);
  }

  lemma BonusPrefix(rolls: seq<int>, fs: seq<Frame>, g: Frame, j: nat)
    requires BonusFromInput(rolls, fs) && j < |fs| && !fs[j].EndFrame()
    ensures var fs' := fs + [g];
            |Flatten(fs'[..j + 1])| <= |rolls| && fs'[j].nextRolls == Following(rolls, |Flatten(fs'[..j + 1])|, fs'[j])
  {
    assert (fs + [g])[..j + 1] == fs[..j + 1];
    assert (fs + [g])[j] == fs[j];
  }

  lemma ChainedAppend(fs: seq<Frame>, g: Frame)
    requires Chained(fs) && WellFormed(g) && g.rolls != [] && g.number == |fs| + 1
    requires |fs| == 0 ==> g.prevScore == 0
    requires |fs| > 0 ==> fs[|fs| - 1].rollsCompleted && g.prevScore == fs[|fs| - 1].score.value
    ensures Chained(fs + [g])
  {
    var fs' := fs + [g];
    forall j | 0 <= j < |fs'|
      ensures fs'[j].number == j + 1 && WellFormed(fs'[j]) && fs'[j].rolls != [] && fs'[j].score.Some?
    {
      assert fs'[j] == if j < |fs| then fs[j] else g;
    }
    forall j | 0 < j < |fs'|
      ensures fs'[j].prevScore == fs'[j - 1].score.value
    {
      assert fs'[j] == if j < |fs| then fs[j] else g;
      assert fs'[j - 1] == fs[j - 1];
    }
    forall j | 0 <= j < |fs'| - 1
      ensures fs'[j].rollsCompleted
    {
      assert fs'[j] == fs[j];
    }
  }

  /** The bookkeeping survives a pass that adds a roll: `looked` is the frame the pass ends
      with, numbered after the current frame when that one had its own rolls complete. */
  lemma EmissionAdvances(rolls: seq<int>, i: nat, s: State, looked: Frame)
    requires i < |rolls| && Emission(rolls, i, s)
    requires WellFormed(looked) && looked.rolls != []
    requires s.frame.rollsCompleted ==>
               looked.number == s.frame.number + 1 && looked.prevScore == s.frame.score.value
    requires !s.frame.rollsCompleted ==>
               looked.number == s.frame.number && looked.prevScore == s.frame.prevScore
    ensures Emission(rolls, i + 1,
                     State(looked, if looked.rollsCompleted || i == |rolls| - 1 then s.frames + [looked] else s.frames))
  {
    var f := s.frame;
    var fs := s.frames;
    var k := f.number;
    if looked.rollsCompleted || i == |rolls| - 1 {
      if f.rollsCompleted {
        assert |fs| == k;
      } else {
        assert |fs| == k - 1;
      }
      ChainedAppend(fs, looked);
    }
  }

  /** A finished tenth frame: a further roll is skipped after a strike or spare and refused
      after an open frame. */
  lemma SkipStep(rolls: seq<int>, i: nat, s: State)
    requires Inv(rolls, i, s) && i < |rolls| && s.frame.EndFrame() && s.frame.completed
    ensures var r := Step(rolls, i, s);
            && (s.frame.strike || s.frame.spare ==> r == Success(s) && Inv(rolls, i + 1, s))
            && (!s.frame.strike && !s.frame.spare ==> r == Failure(FramesExceeded))
  {
    CompletionTables(s.frame);
  }

  /** A tenth frame opened by the roll at `i`, after the lookahead. */
  lemma OpeningEndShape(rolls: seq<int>, i: nat, added: Frame, looked: Frame)
    requires i < |rolls| && WellFormed(added) && added.EndFrame() && added.rolls == [rolls[i]]
    requires WellFormed(looked) && looked.EndFrame()
    requires looked.rolls == added.rolls + Following(rolls, i + 1, added)
    ensures EndShape(rolls, i + 1, i, looked)
  {
    var m := Min(Need(added), |rolls| - i - 1);
    assert looked.rolls == rolls[i..i + 1 + m];
    assert looked.strike == added.strike;
    CompletionTables(looked);
  }

  /** Once a frame of 1-9 has its own rolls complete, the frames emitted so far hold the
      input up to the loop position as own rolls. */
  lemma ClosedFrameFlatten(rolls: seq<int>, i: nat, s: State)
    requires Inv(rolls, i, s) && s.frame.rollsCompleted && !s.frame.EndFrame()
    ensures |s.frames| == s.frame.number && Flatten(s.frames) == rolls[..i]
  {
    var f := s.frame;
    var fs := s.frames;
    var k := f.number;
    var b := |Flatten(fs[..k - 1])|;
    assert |fs| == k && fs[k - 1] == f;
    LastFlatten(rolls, i, b, fs, f, k);
  }

  /** The frames' own rolls are the input up to `i` when those of the last, `f`, run from `b`
      to `i` and those before it are the input up to `b`. */
  lemma LastFlatten(rolls: seq<int>, i: nat, b: nat, fs: seq<Frame>, f: Frame, k: int)
    requires k == |fs| >= 1 && fs[k - 1] == f && b <= i <= |rolls|
    requires Flatten(fs[..k - 1]) == rolls[..b] && f.rolls == rolls[b..i]
    ensures Flatten(fs) == rolls[..i]
  {
    assert fs[..k] == fs;
    FlattenStep(fs, k - 1);
    assert rolls[..b] + rolls[b..i] == rolls[..i];
  }

  /** Where the rolls come from after a pass on the frame whose own rolls start at input
      position `b`, the frames `fs` before it holding the input up to `b`. */
  lemma PassShapes(rolls: seq<int>, i: nat, b: nat, fs: seq<Frame>, looked: Frame)
    requires b <= i < |rolls| && |fs| + 1 == looked.number
    requires Flatten(fs) == rolls[..b] && BonusFromInput(rolls, fs)
    requires !looked.EndFrame() ==>
               looked.rolls == rolls[b..i + 1] && looked.nextRolls == Following(rolls, i + 1, looked)
    requires looked.EndFrame() ==> EndShape(rolls, i + 1, b, looked)
    ensures var fs' := if looked.rollsCompleted || i == |rolls| - 1 then fs + [looked] else fs;
            Shapes(rolls, i + 1, State(looked, fs'))
  {
    if looked.rollsCompleted || i == |rolls| - 1 {
      PassShapesEmitted(rolls, i, b, fs, looked);
    } else {
      assert fs[..|fs|] == fs;
    }
  }

  lemma PassShapesEmitted(rolls: seq<int>, i: nat, b: nat, fs: seq<Frame>, looked: Frame)
    requires b <= i < |rolls| && |fs| + 1 == looked.number
    requires Flatten(fs) == rolls[..b] && BonusFromInput(rolls, fs)
    requires !looked.EndFrame() ==>
               looked.rolls == rolls[b..i + 1] && looked.nextRolls == Following(rolls, i + 1, looked)
    requires looked.EndFrame() ==> EndShape(rolls, i + 1, b, looked)
    ensures Shapes(rolls, i + 1, State(looked, fs + [looked]))
  {
    BonusPass(rolls, i, b, fs, looked);
    EmittedShapes(rolls, i, b, fs, looked);
  }

  /** The bonus rolls of an emitted frame of 1-9 are the ones after its own rolls. */
  lemma BonusPass(rolls: seq<int>, i: nat, b: nat, fs: seq<Frame>, looked: Frame)
    requires b <= i < |rolls| && Flatten(fs) == rolls[..b] && BonusFromInput(rolls, fs)
    requires !looked.EndFrame() ==>
               looked.rolls == rolls[b..i + 1] && looked.nextRolls == Following(rolls, i + 1, looked)
    ensures BonusFromInput(rolls, fs + [looked])
  {
    if !looked.EndFrame() {
      assert |Flatten(fs)| == b && |looked.rolls| == i + 1 - b;
    }
    BonusAppend(rolls, fs, looked, i + 1);
  }

  lemma EmittedShapes(rolls: seq<int>, i: nat, b: nat, fs: seq<Frame>, looked: Frame)
    requires b <= i < |rolls| && |fs| + 1 == looked.number
    requires Flatten(fs) == rolls[..b] && BonusFromInput(rolls, fs + [looked])
    requires !looked.EndFrame() ==> looked.rolls == rolls[b..i + 1]
    requires looked.EndFrame() ==> EndShape(rolls, i + 1, b, looked)
    ensures Shapes(rolls, i + 1, State(looked, fs + [looked]))
  {
    assert (fs + [looked])[..looked.number - 1] == fs;
  }

  /** A pass that opens a new frame after one whose own rolls are complete. */
  lemma NewFrameStep(rolls: seq<int>, i: nat, s: State)
    requires Inv(rolls, i, s) && i < |rolls| && s.frame.rollsCompleted && !s.frame.EndFrame()
    ensures var r := Step(rolls, i, s);
            r.Success? ==> Inv(rolls, i + 1, r.value)
  {
    ClosedFrameFlatten(rolls, i, s);
    NewFrameAdds(rolls, i, s);
    if Step(rolls, i, s).Success? {
      NewFrameLookahead(rolls, i, s, AddRoll(Current(s.frame), rolls[i]).value);
    }
  }

  /** The roll that opens a new frame is its first own roll. */
  lemma NewFrameAdds(rolls: seq<int>, i: nat, s: State)
    requires i < |rolls| && WellFormed(s.frame) && s.frame.rollsCompleted && !s.frame.EndFrame()
    ensures var a := AddRoll(Current(s.frame), rolls[i]);
            Step(rolls, i, s).Success? ==>
              && a.Success?
              && WellFormed(a.value) && a.value.rolls == rolls[i..i + 1] && a.value.nextRolls == []
              && a.value.number == s.frame.number + 1 && a.value.prevScore == s.frame.score.value
              && var la := Lookahead(rolls, i, a.value);
                 && la.Success?
                 && Step(rolls, i, s)
                    == Success(State(la.value, if la.value.rollsCompleted || i == |rolls| - 1 then s.frames + [la.value] else s.frames))
  {
    var f := s.frame;
    var k := f.number;
    StepUnfolds(rolls, i, s);
    assert NewFrame(k + 1, f.score.value) == Success(Current(f));
    OpeningAdd(rolls, i, Current(f));
  }

  /** The first roll added to a fresh frame becomes its one own roll. */
  lemma OpeningAdd(rolls: seq<int>, i: nat, g: Frame)
    requires i < |rolls| && g == Blank(g.number, g.prevScore) && g.number <= MAX_FRAMES
    ensures var a := AddRoll(g, rolls[i]);
            a.Success? ==>
              && WellFormed(a.value) && a.value.rolls == rolls[i..i + 1] && a.value.nextRolls == []
              && a.value.number == g.number && a.value.prevScore == g.prevScore
  {
    var a := AddRoll(g, rolls[i]);
    if a.Success? {
      AddRollKeepsWellFormed(g, rolls[i]);
      assert a.value.rolls == [] + [rolls[i]] == rolls[i..i + 1];
    }
  }

  /** The lookahead on a frame just opened by the roll at `i`. */
  lemma NewFrameLookahead(rolls: seq<int>, i: nat, s: State, added: Frame)
    requires i < |rolls| && Emission(rolls, i, s) && s.frame.rollsCompleted
    requires |s.frames| == s.frame.number && Flatten(s.frames) == rolls[..i] && BonusFromInput(rolls, s.frames)
    requires WellFormed(added) && added.rolls == rolls[i..i + 1] && added.nextRolls == []
    requires added.number == s.frame.number + 1 && added.prevScore == s.frame.score.value
    ensures var la := Lookahead(rolls, i, added);
            la.Success? ==>
              Inv(rolls, i + 1, State(la.value, if la.value.rollsCompleted || i == |rolls| - 1
                                                then s.frames + [la.value] else s.frames))
  {
    var la := Lookahead(rolls, i, added);
    if la.Success? {
      var looked := la.value;
      if !added.EndFrame() {
        MidLookahead(rolls, i, i, added);
      } else {
        NewFrameLookaheadTenth(rolls, i, added);
      }
      EmissionAdvances(rolls, i, s, looked);
      PassShapes(rolls, i, i, s.frames, looked);
    }
  }

  /** The lookahead on a frame of 1-9 whose own rolls are the input from `b` to `i`. */
  lemma MidLookahead(rolls: seq<int>, i: nat, b: nat, added: Frame)
    requires b <= i < |rolls| && WellFormed(added) && !added.EndFrame()
    requires added.rolls == rolls[b..i + 1] && added.nextRolls == []
    requires Lookahead(rolls, i, added).Success?
    ensures var looked := Lookahead(rolls, i, added).value;
            && WellFormed(looked) && looked.rolls == rolls[b..i + 1] && looked.number == added.number
            && looked.prevScore == added.prevScore
            && looked.nextRolls == Following(rolls, i + 1, looked)
  {
    LookaheadTakesFollowing(rolls, i, added);
    var looked := Lookahead(rolls, i, added).value;
    assert looked.strike == added.strike && looked.spare == added.spare;
  }

  lemma NewFrameLookaheadTenth(rolls: seq<int>, i: nat, added: Frame)
    requires i < |rolls| && WellFormed(added) && added.EndFrame()
    requires added.rolls == rolls[i..i + 1] && added.nextRolls == []
    requires Lookahead(rolls, i, added).Success?
    ensures var looked := Lookahead(rolls, i, added).value;
            && WellFormed(looked) && looked.number == added.number && looked.prevScore == added.prevScore
            && looked.rolls != [] && EndShape(rolls, i + 1, i, looked)
  {
    assert added.rolls == [rolls[i]];
    LookaheadEndFrame(rolls, i, added);
    OpeningEndShape(rolls, i, added, Lookahead(rolls, i, added).value);
  }

  /** The facts about a frame whose own rolls are not complete: it has not been emitted, its
      score is not final and it holds no bonus rolls; in 1-9 its own rolls are the input from
      `b` to `i`; in the tenth frame either one open roll, or a strike and one more roll
      taken just before the input ends. */
  lemma OpenFrameFacts(rolls: seq<int>, i: nat, s: State)
    requires Inv(rolls, i, s) && i < |rolls| && !s.frame.rollsCompleted
    ensures var f := s.frame;
            var fs := s.frames;
            var b := |Flatten(fs)|;
            && |fs| == f.number - 1 && b <= i && Flatten(fs) == rolls[..b] && BonusFromInput(rolls, fs)
            && !f.completed && f.nextRolls == []
            && (!f.EndFrame() ==> f.rolls == rolls[b..i] && !f.strike && !f.spare)
            && (f.EndFrame() ==>
                  || (!f.strike && !f.spare && |f.rolls| == 1 && i == b + 1 && f.rolls == rolls[b..i])
                  || (f.strike && |f.rolls| == 2 && i + 1 == |rolls| && b + 2 == |rolls| && f.rolls == rolls[b..|rolls|]))
  {
    OpenFrameUnemitted(rolls, i, s);
    var fs := s.frames;
    assert fs[..s.frame.number - 1] == fs;
    if s.frame.EndFrame() {
      EndFrameOpenCases(rolls, i, |Flatten(fs)|, s.frame);
    }
  }

  /** A frame whose own rolls are not complete is not yet emitted and holds no bonus rolls. */
  lemma OpenFrameUnemitted(rolls: seq<int>, i: nat, s: State)
    requires Emission(rolls, i, s) && i < |rolls| && !s.frame.rollsCompleted
    ensures |s.frames| == s.frame.number - 1 && !s.frame.completed && s.frame.nextRolls == []
    ensures !s.frame.EndFrame() ==> !s.frame.strike && !s.frame.spare
    ensures s.frame.EndFrame() ==> s.frame.rolls != []
  {
    CompletionTables(s.frame);
    if i == 0 {
      assert s == Start();
    }
  }

  /** The two ways the tenth frame can be short of its own rolls between two passes. */
  lemma EndFrameOpenCases(rolls: seq<int>, i: nat, b: nat, f: Frame)
    requires i < |rolls| && WellFormed(f) && f.EndFrame() && !f.rollsCompleted && f.rolls != []
    requires EndShape(rolls, i, b, f)
    ensures || (!f.strike && !f.spare && |f.rolls| == 1 && i == b + 1 && f.rolls == rolls[b..i])
            || (f.strike && |f.rolls| == 2 && i + 1 == |rolls| && b + 2 == |rolls| && f.rolls == rolls[b..|rolls|])
  {
    assert !f.completed;
    assert |f.rolls| == 1 || |f.rolls| == 2;
    if |f.rolls| == 2 {
      assert f.strike || f.spare;
    }
  }

  /** The roll a frame with open own rolls takes is its next own roll. */
  lemma SameFrameAdds(rolls: seq<int>, i: nat, s: State)
    requires i < |rolls| && WellFormed(s.frame) && !s.frame.rollsCompleted && !s.frame.completed
    requires s.frame.EndFrame() || (!s.frame.strike && !s.frame.spare)
    ensures var a := AddRoll(Current(s.frame), rolls[i]);
            Step(rolls, i, s).Success? ==>
              && a.Success?
              && WellFormed(a.value) && a.value.rolls == s.frame.rolls + [rolls[i]]
              && a.value.nextRolls == s.frame.nextRolls
              && a.value.number == s.frame.number && a.value.prevScore == s.frame.prevScore
              && var la := Lookahead(rolls, i, a.value);
                 && la.Success?
                 && Step(rolls, i, s)
                    == Success(State(la.value, if la.value.rollsCompleted || i == |rolls| - 1 then s.frames + [la.value] else s.frames))
  {
    StepUnfolds(rolls, i, s);
    var a := AddRoll(s.frame, rolls[i]);
    if a.Success? {
      AddRollKeepsWellFormed(s.frame, rolls[i]);
    }
  }

  /** A pass that adds an own roll to the current frame. */
  lemma SameFrameStep(rolls: seq<int>, i: nat, s: State)
    requires Inv(rolls, i, s) && i < |rolls| && !s.frame.rollsCompleted
    ensures var r := Step(rolls, i, s);
            r.Success? ==> Inv(rolls, i + 1, r.value)
  {
    if s.frame.EndFrame() {
      SameFrameTenthStep(rolls, i, s);
    } else {
      SameFrameMidStep(rolls, i, s);
    }
  }

  lemma SameFrameMidStep(rolls: seq<int>, i: nat, s: State)
    requires Inv(rolls, i, s) && i < |rolls| && !s.frame.rollsCompleted && !s.frame.EndFrame()
    ensures var r := Step(rolls, i, s);
            r.Success? ==> Inv(rolls, i + 1, r.value)
  {
    OpenFrameFacts(rolls, i, s);
    SameFrameAdds(rolls, i, s);
    if Step(rolls, i, s).Success? {
      SameFrameLookaheadMid(rolls, i, |Flatten(s.frames)|, s, AddRoll(Current(s.frame), rolls[i]).value);
    }
  }

  lemma SameFrameTenthStep(rolls: seq<int>, i: nat, s: State)
    requires Inv(rolls, i, s) && i < |rolls| && !s.frame.rollsCompleted && s.frame.EndFrame()
    ensures var r := Step(rolls, i, s);
            r.Success? ==> Inv(rolls, i + 1, r.value)
  {
    OpenFrameFacts(rolls, i, s);
    SameFrameAdds(rolls, i, s);
    if Step(rolls, i, s).Success? {
      SameFrameLookaheadTenth(rolls, i, |Flatten(s.frames)|, s, AddRoll(Current(s.frame), rolls[i]).value);
    }
  }

  lemma SameFrameLookaheadMid(rolls: seq<int>, i: nat, b: nat, s: State, added: Frame)
    requires b <= i < |rolls| && Emission(rolls, i, s) && !s.frame.rollsCompleted && !s.frame.EndFrame()
    requires |s.frames| == s.frame.number - 1 && Flatten(s.frames) == rolls[..b] && BonusFromInput(rolls, s.frames)
    requires s.frame.rolls == rolls[b..i] && s.frame.nextRolls == []
    requires WellFormed(added) && added.rolls == s.frame.rolls + [rolls[i]] && added.nextRolls == s.frame.nextRolls
    requires added.number == s.frame.number && added.prevScore == s.frame.prevScore
    ensures var la := Lookahead(rolls, i, added);
            la.Success? ==>
              Inv(rolls, i + 1, State(la.value, if la.value.rollsCompleted || i == |rolls| - 1
                                                then s.frames + [la.value] else s.frames))
  {
    SliceExtends(rolls, b, i);
    var la := Lookahead(rolls, i, added);
    if la.Success? {
      var looked := la.value;
      MidLookahead(rolls, i, b, added);
      EmissionAdvances(rolls, i, s, looked);
      PassShapes(rolls, i, b, s.frames, looked);
    }
  }

  lemma SameFrameLookaheadTenth(rolls: seq<int>, i: nat, b: nat, s: State, added: Frame)
    requires b <= i < |rolls| && Emission(rolls, i, s) && !s.frame.rollsCompleted && s.frame.EndFrame()
    requires |s.frames| == s.frame.number - 1 && Flatten(s.frames) == rolls[..b] && BonusFromInput(rolls, s.frames)
    requires var f := s.frame;
             || (!f.strike && !f.spare && |f.rolls| == 1 && i == b + 1 && f.rolls == rolls[b..i])
             || (f.strike && |f.rolls| == 2 && i + 1 == |rolls| && b + 2 == |rolls| && f.rolls == rolls[b..|rolls|])
    requires WellFormed(added) && added.rolls == s.frame.rolls + [rolls[i]]
    requires added.number == s.frame.number && added.prevScore == s.frame.prevScore
    ensures var la := Lookahead(rolls, i, added);
            la.Success? ==>
              Inv(rolls, i + 1, State(la.value, if la.value.rollsCompleted || i == |rolls| - 1
                                                then s.frames + [la.value] else s.frames))
  {
    var la := Lookahead(rolls, i, added);
    if la.Success? {
      var looked := la.value;
      if s.frame.strike {
        Refeed(rolls, i, b, s.frame, added);
      } else {
        SecondRollTenth(rolls, i, b, s.frame, added);
      }
      EmissionAdvances(rolls, i, s, looked);
      PassShapes(rolls, i, b, s.frames, looked);
    }
  }

  /** The second own roll of an open tenth frame, and what the lookahead adds to it. */
  lemma SecondRollTenth(rolls: seq<int>, i: nat, b: nat, f: Frame, added: Frame)
    requires i < |rolls| && f.EndFrame() && WellFormed(f) && !f.strike && !f.spare
    requires |f.rolls| == 1 && i == b + 1 && f.rolls == rolls[b..i]
    requires WellFormed(added) && added.EndFrame() && added.rolls == f.rolls + [rolls[i]]
    requires Lookahead(rolls, i, added).Success?
    ensures var looked := Lookahead(rolls, i, added).value;
            WellFormed(looked) && looked.number == added.number && looked.prevScore == added.prevScore
            && looked.rolls != [] && EndShape(rolls, i + 1, b, looked)
  {
    assert added.rolls == rolls[b..i + 1];
    assert !added.strike;
    if !added.spare {
      SecondRollOpen(rolls, i, b, added);
    } else {
      SecondRollSpare(rolls, i, b, added);
    }
  }

  lemma SecondRollOpen(rolls: seq<int>, i: nat, b: nat, added: Frame)
    requires i < |rolls| && i == b + 1 && WellFormed(added) && added.EndFrame() && !added.strike && !added.spare
    requires added.rolls == rolls[b..i + 1]
    ensures Lookahead(rolls, i, added) == Success(added)
    ensures added.rolls != [] && EndShape(rolls, i + 1, b, added)
  {
    CompletionTables(added);
  }

  lemma SecondRollSpare(rolls: seq<int>, i: nat, b: nat, added: Frame)
    requires i < |rolls| && i == b + 1 && WellFormed(added) && added.EndFrame() && !added.strike && added.spare
    requires added.rolls == rolls[b..i + 1]
    requires Lookahead(rolls, i, added).Success?
    ensures var looked := Lookahead(rolls, i, added).value;
            WellFormed(looked) && looked.number == added.number && looked.prevScore == added.prevScore
            && looked.rolls != [] && EndShape(rolls, i + 1, b, looked)
  {
    CompletionTables(added);
    LookaheadEndFrame(rolls, i, added);
    var looked := Lookahead(rolls, i, added).value;
    var m := Min(Need(added), |rolls| - i - 1);
    assert looked.rolls == rolls[b..i + 1 + m];
    CompletionTables(looked);
  }

  /** The input ends after a tenth-frame strike and one more roll: the loop feeds that roll
      to the frame a second time, and the lookahead finds nothing more. */
  lemma Refeed(rolls: seq<int>, i: nat, b: nat, f: Frame, added: Frame)
    requires i < |rolls| && WellFormed(f) && f.EndFrame() && f.strike
    requires |f.rolls| == 2 && i + 1 == |rolls| && b + 2 == |rolls| && f.rolls == rolls[b..|rolls|]
    requires WellFormed(added) && added.EndFrame() && added.rolls == f.rolls + [rolls[i]]
    ensures var la := Lookahead(rolls, i, added);
            la == Success(added) && added.rolls != [] && EndShape(rolls, i + 1, b, added)
  {
    LookaheadAtEnd(rolls, i, added);
    assert added.rolls[0] == f.rolls[0];
  }

  /** The input ends after a tenth-frame strike and one more roll, which the lookahead has
      already taken as the frame's second own roll: the loop's own pass for that roll adds
      it again, as a third own roll, and emits the frame; it fails exactly when `add_roll`
      refuses the repeated roll. */
  lemma RefeedStep(rolls: seq<int>, i: nat, b: nat, f: Frame, fs: seq<Frame>)
    requires i < |rolls| && WellFormed(f) && f.EndFrame() && f.strike
    requires |f.rolls| == 2 && i + 1 == |rolls| && b + 2 == |rolls| && f.rolls == rolls[b..|rolls|]
    ensures f.rolls[1] == rolls[i]
    ensures var r := Step(rolls, i, State(f, fs));
            && (r.Success? <==> AddRoll(f, rolls[i]).Success?)
            && (r.Failure? ==> r.error == AddRoll(f, rolls[i]).error)
            && (r.Success? ==> r.value.frame.rolls == f.rolls + [rolls[i]] && r.value.frames == fs + [r.value.frame])
  {
    CompletionTables(f);
    if AddRoll(f, rolls[i]).Success? {
      AddRollKeepsWellFormed(f, rolls[i]);
      Refeed(rolls, i, b, f, AddRoll(f, rolls[i]).value);
    }
  }

  /** The invariant after `i` rolls, when the loop got that far. */
  predicate InvAfter(rolls: seq<int>, i: nat, r: Result<State, Error>) {
    r.Success? ==> Inv(rolls, i, r.value)
  }

  /** One pass of the loop keeps the invariant. */
  lemma StepKeepsInv(rolls: seq<int>, i: nat, s: State)
    requires Inv(rolls, i, s) && i < |rolls|
    ensures InvAfter(rolls, i + 1, Step(rolls, i, s))
  {
    CompletionTables(s.frame);
    if s.frame.EndFrame() && s.frame.completed {
      SkipStep(rolls, i, s);
    } else if s.frame.rollsCompleted {
      NewFrameStep(rolls, i, s);
    } else {
      SameFrameStep(rolls, i, s);
    }
  }

  /** The loop after `i + 1` rolls: the earlier failure, or one more pass. */
  lemma IterateUnfolds(rolls: seq<int>, i: nat)
    requires i < |rolls|
    ensures var p := Iterate(rolls, i);
            && (p.Failure? ==> Iterate(rolls, i + 1) == Failure(p.error))
            && (p.Success? ==> Iterate(rolls, i + 1) == Step(rolls, i, p.value))
  {
  }

  /** The invariant carries over one more pass of the loop. */
  lemma IterateStep(rolls: seq<int>, i: nat)
    requires i < |rolls| && InvAfter(rolls, i, Iterate(rolls, i))
    ensures InvAfter(rolls, i + 1, Iterate(rolls, i + 1))
  {
    IterateUnfolds(rolls, i);
    var p := Iterate(rolls, i);
    if p.Success? {
      StepKeepsInv(rolls, i, p.value);
    }
  }

  lemma InvAfterShift(rolls: seq<int>, i: nat, count: nat)
    requires count == i + 1 <= |rolls| && InvAfter(rolls, i + 1, Iterate(rolls, i + 1))
    ensures InvAfter(rolls, count, Iterate(rolls, count))
  {
  }

  /** The loop keeps the invariant over every prefix of the input. */
  lemma {:induction false} IterateInv(rolls: seq<int>, count: nat)
    requires count <= |rolls|
    ensures InvAfter(rolls, count, Iterate(rolls, count))
  {
    if count == 0 {
      StartInv(rolls);
    } else {
      var i := count - 1;
      IterateInv(rolls, i);
      IterateStep(rolls, i);
      InvAfterShift(rolls, i, count);
    }
  }

  /** The lookahead after a roll the loop fed fails only on a roll above MAX_PINS or over
      the tenth frame's cap. */
  lemma LookaheadErrors(rolls: seq<int>, i: nat, f: Frame)
    requires i < |rolls| && WellFormed(f)
    requires !f.EndFrame() ==> f.nextRolls == []
    requires f.EndFrame() && i + 1 < |rolls| && (f.strike || f.spare) ==>
               && !f.completed && (f.strike ==> |f.rolls| == 1) && (f.spare && !f.strike ==> |f.rolls| == 2)
    ensures var r := Lookahead(rolls, i, f);
            r.Failure? ==> r.error == InvalidPins || r.error == FrameOverflow
  {
    if i + 1 == |rolls| {
      LookaheadAtEnd(rolls, i, f);
    } else if !f.EndFrame() {
      LookaheadTakesFollowing(rolls, i, f);
    } else if f.strike || f.spare {
      LookaheadEndFrame(rolls, i, f);
    }
  }

  /** Adding the loop's roll to the frame it goes to, and the lookahead after it, fail only
      on a roll above MAX_PINS or over the frame's cap. */
  lemma PassErrors(rolls: seq<int>, i: nat, c: Frame)
    requires i < |rolls| && WellFormed(c) && !c.completed && c.nextRolls == []
    requires c.EndFrame() || (!c.strike && !c.spare)
    requires c.EndFrame() ==>
               || c.rolls == []
               || (|c.rolls| == 1 && !c.strike)
               || (c.strike && |c.rolls| == 2 && i + 1 == |rolls|)
    ensures var a := AddRoll(c, rolls[i]);
            && (a.Failure? ==> a.error == InvalidPins || a.error == FrameOverflow)
            && (a.Success? && Lookahead(rolls, i, a.value).Failure? ==>
                  Lookahead(rolls, i, a.value).error == InvalidPins || Lookahead(rolls, i, a.value).error == FrameOverflow)
  {
    var a := AddRoll(c, rolls[i]);
    if a.Success? {
      AddRollKeepsWellFormed(c, rolls[i]);
      CompletionTables(a.value);
      LookaheadErrors(rolls, i, a.value);
    }
  }

  /** A pass of the loop fails only on a roll above MAX_PINS, a roll over a frame's cap, or
      a roll after a finished open tenth frame. */
  lemma StepErrors(rolls: seq<int>, i: nat, s: State)
    requires Inv(rolls, i, s) && i < |rolls|
    ensures var r := Step(rolls, i, s);
            r.Failure? ==>
              || r.error == InvalidPins
              || r.error == FrameOverflow
              || (r.error == FramesExceeded && s.frame.EndFrame() && s.frame.completed)
  {
    CompletionTables(s.frame);
    if s.frame.EndFrame() && s.frame.completed {
      SkipStep(rolls, i, s);
    } else {
      StepUnfolds(rolls, i, s);
      if s.frame.rollsCompleted {
        PassErrors(rolls, i, Current(s.frame));
      } else {
        OpenFrameFacts(rolls, i, s);
        PassErrors(rolls, i, s.frame);
      }
    }
  }

  /** The errors a pass of the loop can raise. */
  predicate LoopError(e: Error) {
    e == InvalidPins || e == FrameOverflow || e == FramesExceeded
  }

  /** The failures the loop can end with, when it ends with one. */
  predicate FailsWithLoopError(r: Result<State, Error>) {
    r.Failure? ==> LoopError(r.error)
  }

  lemma IterateErrorsStep(rolls: seq<int>, i: nat)
    requires i < |rolls| && FailsWithLoopError(Iterate(rolls, i))
    ensures FailsWithLoopError(Iterate(rolls, i + 1))
  {
    IterateUnfolds(rolls, i);
    IterateInv(rolls, i);
    var p := Iterate(rolls, i);
    if p.Success? {
      StepErrors(rolls, i, p.value);
    }
  }

  lemma FailsShift(rolls: seq<int>, i: nat, count: nat)
    requires count == i + 1 <= |rolls| && FailsWithLoopError(Iterate(rolls, i + 1))
    ensures FailsWithLoopError(Iterate(rolls, count))
  {
  }

  /** The loop never fails on a finished frame or an eleventh frame. */
  lemma {:induction false} IterateErrors(rolls: seq<int>, count: nat)
    requires count <= |rolls|
    ensures FailsWithLoopError(Iterate(rolls, count))
  {
    if count > 0 {
      var i := count - 1;
      IterateErrors(rolls, i);
      IterateErrorsStep(rolls, i);
      FailsShift(rolls, i, count);
    }
  }
}
