/** What a whole run of `generate` returns: the frames in order with chained running
    scores, the input rolls accounted for frame by frame, the bonus rolls of frames 1-9
    taken from the input that follows, and the only failures it can raise. */
module GameProperties {
  import opened Wrappers
  import opened Frames
  import opened Generator
  import opened GeneratorProofs

  /** Where the input went: every roll belongs to exactly the frames' own rolls, in order;
      or the tenth frame finished on a strike or spare and the rest of the input was
      skipped; or the input ended right after a tenth-frame strike and one more roll, and
      that roll was counted twice. */
  predicate Consumed(rolls: seq<int>, fs: seq<Frame>) {
    || Flatten(fs) == rolls
    || (&& |fs| == MAX_FRAMES
        && fs[MAX_FRAMES - 1].completed && (fs[MAX_FRAMES - 1].strike || fs[MAX_FRAMES - 1].spare)
        && |Flatten(fs)| < |rolls| && Flatten(fs) == rolls[..|Flatten(fs)|])
    || (&& |fs| == MAX_FRAMES && |rolls| >= 2
        && fs[MAX_FRAMES - 1].strike && |fs[MAX_FRAMES - 1].rolls| == 3
        && Flatten(fs) == rolls + [rolls[|rolls| - 1]])
  }

  /** The loop state once every roll has been seen. */
  lemma FinalFrames(rolls: seq<int>, s: State)
    requires Inv(rolls, |rolls|, s)
    ensures Chained(s.frames) && BonusFromInput(rolls, s.frames)
    ensures s.frames == [] <==> rolls == []
    ensures rolls != [] ==> s.frames[|s.frames| - 1] == s.frame
  {
    if rolls == [] {
      assert s == Start();
    }
  }

  /** The own rolls of the frames, once every roll has been seen. */
  lemma FinalRolls(rolls: seq<int>, s: State)
    requires Inv(rolls, |rolls|, s) && rolls != []
    ensures Consumed(rolls, s.frames)
  {
    var f := s.frame;
    var fs := s.frames;
    var b := |Flatten(fs[..f.number - 1])|;
    assert |fs| == f.number && fs[|fs| - 1] == f;
    LastFrameRolls(rolls, fs, f, f.number, b);
  }

  /** The frames' own rolls when those of all but the last, `f`, are the input up to `b` and
      those of `f` start there. */
  lemma LastFrameRolls(rolls: seq<int>, fs: seq<Frame>, f: Frame, k: int, b: nat)
    requires k == |fs| >= 1 && fs[|fs| - 1] == f && b <= |rolls| && Flatten(fs[..k - 1]) == rolls[..b]
    requires WellFormed(f) && f.number == k
    requires !f.EndFrame() ==> f.rolls == rolls[b..|rolls|]
    requires f.EndFrame() ==> EndShape(rolls, |rolls|, b, f)
    ensures Consumed(rolls, fs)
  {
    assert fs[..|fs|] == fs;
    FlattenStep(fs, k - 1);
    if !f.EndFrame() {
      ConsumedAll(rolls, fs, b, f);
    } else {
      ConsumedTenth(rolls, fs, b, f);
    }
  }

  lemma ConsumedAll(rolls: seq<int>, fs: seq<Frame>, b: nat, f: Frame)
    requires b <= |rolls| && Flatten(fs) == rolls[..b] + f.rolls && f.rolls == rolls[b..|rolls|]
    ensures Consumed(rolls, fs)
  {
    assert rolls[..b] + rolls[b..|rolls|] == rolls;
  }

  lemma ConsumedTenth(rolls: seq<int>, fs: seq<Frame>, b: nat, f: Frame)
    requires |fs| == MAX_FRAMES && fs[MAX_FRAMES - 1] == f && b <= |rolls| && Flatten(fs) == rolls[..b] + f.rolls
    requires WellFormed(f) && f.EndFrame() && EndShape(rolls, |rolls|, b, f)
    ensures Consumed(rolls, fs)
  {
    FinalTenth(rolls, b, f);
  }

  /** The tenth frame once every roll has been seen, whose own rolls start at `b`. */
  lemma FinalTenth(rolls: seq<int>, b: nat, f: Frame)
    requires b <= |rolls| && WellFormed(f) && f.EndFrame() && EndShape(rolls, |rolls|, b, f)
    ensures var xs := rolls[..b] + f.rolls;
            || xs == rolls
            || (f.completed && (f.strike || f.spare) && |xs| < |rolls| && xs == rolls[..|xs|])
            || (|rolls| >= 2 && f.strike && |f.rolls| == 3 && xs == rolls + [rolls[|rolls| - 1]])
  {
    CompletionTables(f);
    var m := |f.rolls|;
    if b + m <= |rolls| && f.rolls == rolls[b..b + m] {
      assert rolls[..b] + f.rolls == rolls[..b + m];
      if b + m == |rolls| {
        assert rolls[..b + m] == rolls;
      }
    } else {
      assert rolls[..b] + rolls[b..] == rolls;
    }
  }

  /** `generate` returns frames 1..k in order, each well formed and starting from the score
      of the one before it, all but the last with their own rolls complete, and no frames
      exactly when there are no rolls; the input is accounted for as `Consumed` says; and
      each frame of 1-9 holds as bonus the rolls that follow its own rolls. */
  lemma GenerateFrames(rolls: seq<int>)
    ensures var r := Generate(rolls);
            r.Success? ==>
              && Chained(r.value)
              && (r.value == [] <==> rolls == [])
              && Consumed(rolls, r.value)
              && BonusFromInput(rolls, r.value)
  {
    IterateInv(rolls, |rolls|);
    var it := Iterate(rolls, |rolls|);
    if it.Success? {
      FinalFrames(rolls, it.value);
      if rolls != [] {
        FinalRolls(rolls, it.value);
      }
    }
  }

  /** `generate` raises only for a roll above MAX_PINS, a roll over a frame's cap or a roll
      after a finished open tenth frame: never for a finished frame or an eleventh frame. */
  lemma GenerateErrors(rolls: seq<int>)
    ensures var r := Generate(rolls);
            r.Failure? ==> r.error == InvalidPins || r.error == FrameOverflow || r.error == FramesExceeded
  {
    IterateErrors(rolls, |rolls|);
  }

  /** The points a frame adds to the running score: its own and its bonus rolls. */
  function Points(f: Frame): int {
    Sum(f.rolls) + Sum(f.nextRolls)
  }

  /** The points of the frames, added up. */
  function Total(fs: seq<Frame>): int {
    if |fs| == 0 then 0 else Total(fs[..|fs| - 1]) + Points(fs[|fs| - 1])
  }

  lemma ChainedPrefix(fs: seq<Frame>)
    requires Chained(fs) && |fs| > 0
    ensures Chained(fs[..|fs| - 1])
  {
  }

  /** In a chained list each frame's score is the running total of the points of the frames
      up to and including it. */
  lemma {:induction false} ScoresAreRunningTotals(fs: seq<Frame>)
    requires Chained(fs)
    ensures forall j :: 0 <= j < |fs| ==> fs[j].score == Some(Total(fs[..j + 1]))
  {
    if |fs| > 0 {
      var init := fs[..|fs| - 1];
      ChainedPrefix(fs);
      ScoresAreRunningTotals(init);
      forall j | 0 <= j < |fs|
        ensures fs[j].score == Some(Total(fs[..j + 1]))
      {
        if j < |fs| - 1 {
          assert init[j] == fs[j];
          assert init[..j + 1] == fs[..j + 1];
        } else {
          assert fs[..j + 1] == fs;
          assert fs[..j + 1][..j] == init;
          if j > 0 {
            assert init[..j] == init;
          }
        }
      }
    }
  }

  /** The score `generate` reports for each frame is the running total of the points of all
      frames so far. */
  lemma GenerateScores(rolls: seq<int>)
    ensures var r := Generate(rolls);
            r.Success? ==>
              forall j :: 0 <= j < |r.value| ==> r.value[j].score == Some(Total(r.value[..j + 1]))
  {
    GenerateFrames(rolls);
    if Generate(rolls).Success? {
      ScoresAreRunningTotals(Generate(rolls).value);
    }
  }

  predicate NonNegative(xs: seq<int>) {
    forall k :: 0 <= k < |xs| ==> xs[k] >= 0
  }

  lemma {:induction false} SumNonNegative(xs: seq<int>)
    requires NonNegative(xs)
    ensures Sum(xs) >= 0
  {
    if xs != [] {
      assert NonNegative(xs[1..]) by {
        forall k | 0 <= k < |xs| - 1
          ensures xs[1..][k] >= 0
        {
          assert xs[1..][k] == xs[k + 1];
        }
      }
      SumNonNegative(xs[1..]);
    }
  }

  /** When the own rolls of the frames, in order, are all non-negative, so is each frame's. */
  lemma {:induction false} FlattenNonNegative(fs: seq<Frame>)
    requires NonNegative(Flatten(fs))
    ensures forall j :: 0 <= j < |fs| ==> NonNegative(fs[j].rolls)
  {
    if |fs| > 0 {
      var init := fs[..|fs| - 1];
      var last := fs[|fs| - 1].rolls;
      assert Flatten(fs) == Flatten(init) + last;
      assert NonNegative(Flatten(init)) by {
        forall k | 0 <= k < |Flatten(init)|
          ensures Flatten(init)[k] >= 0
        {
          assert Flatten(fs)[k] == Flatten(init)[k];
        }
      }
      assert NonNegative(last) by {
        forall k | 0 <= k < |last|
          ensures last[k] >= 0
        {
          assert Flatten(fs)[|Flatten(init)| + k] == last[k];
        }
      }
      FlattenNonNegative(init);
      forall j | 0 <= j < |fs|
        ensures NonNegative(fs[j].rolls)
      {
        if j < |fs| - 1 {
          assert init[j] == fs[j];
        }
      }
    }
  }

  /** The own rolls of the frames are all non-negative when the input is. */
  lemma ConsumedNonNegative(rolls: seq<int>, fs: seq<Frame>)
    requires NonNegative(rolls) && Consumed(rolls, fs)
    ensures NonNegative(Flatten(fs))
  {
    var xs := Flatten(fs);
    forall k | 0 <= k < |xs|
      ensures xs[k] >= 0
    {
      if xs != rolls && !(|xs| < |rolls| && xs == rolls[..|xs|]) {
        assert xs == rolls + [rolls[|rolls| - 1]];
        if k == |rolls| {
          assert xs[k] == rolls[|rolls| - 1];
        } else {
          assert xs[k] == rolls[k];
        }
      } else if xs != rolls {
        assert xs[k] == rolls[k];
      }
    }
  }

  /** With no negative rolls in the input the running score never goes down: each frame's
      score is at least the score it starts from, which is the score of the frame before. */
  lemma GenerateScoresNonDecreasing(rolls: seq<int>)
    requires NonNegative(rolls)
    ensures var r := Generate(rolls);
            r.Success? ==>
              forall j :: 0 <= j < |r.value| ==>
                r.value[j].score.Some? && r.value[j].prevScore <= r.value[j].score.value
  {
    GenerateFrames(rolls);
    var r := Generate(rolls);
    if r.Success? {
      var fs := r.value;
      ConsumedNonNegative(rolls, fs);
      FlattenNonNegative(fs);
      forall j | 0 <= j < |fs|
        ensures fs[j].score.Some? && fs[j].prevScore <= fs[j].score.value
      {
        if !fs[j].EndFrame() {
          FramePointsNonNegative(rolls, fs[j], |Flatten(fs[..j + 1])|);
        } else {
          FramePointsNonNegative(rolls, fs[j], 0);
        }
      }
    }
  }

  /** A well-formed frame whose own rolls are non-negative and whose bonus rolls, in 1-9,
      come from a non-negative input at `o` adds a non-negative number of points. */
  lemma FramePointsNonNegative(rolls: seq<int>, f: Frame, o: nat)
    requires NonNegative(rolls) && WellFormed(f) && NonNegative(f.rolls) && o <= |rolls|
    requires !f.EndFrame() ==> f.nextRolls == Following(rolls, o, f)
    ensures Points(f) >= 0
  {
    SumNonNegative(f.rolls);
    if !f.EndFrame() {
      assert NonNegative(f.nextRolls) by {
        forall k | 0 <= k < |f.nextRolls|
          ensures f.nextRolls[k] >= 0
        {
          assert f.nextRolls[k] == rolls[o + k];
        }
      }
      SumNonNegative(f.nextRolls);
    }
  }

  /** Once the tenth frame is finished on a strike or spare, every later roll is skipped:
      the loop state no longer changes. */
  lemma {:induction false} SkipsAfterBonusTenth(rolls: seq<int>, c: nat, m: nat)
    requires c <= m <= |rolls| && Iterate(rolls, c).Success?
    requires var f := Iterate(rolls, c).value.frame;
             f.EndFrame() && f.completed && (f.strike || f.spare)
    ensures Iterate(rolls, m) == Iterate(rolls, c)
  {
    if m > c {
      var i := m - 1;
      SkipsAfterBonusTenth(rolls, c, i);
      IterateUnfolds(rolls, i);
    }
  }

  /** Once the tenth frame is finished open, any further roll makes the loop fail with
      `FramesExceeded`, and the failure stands. */
  lemma {:induction false} FailsAfterOpenTenth(rolls: seq<int>, c: nat, m: nat)
    requires c < m <= |rolls| && Iterate(rolls, c).Success?
    requires var f := Iterate(rolls, c).value.frame;
             f.EndFrame() && f.completed && !f.strike && !f.spare
    ensures Iterate(rolls, m) == Failure(FramesExceeded)
  {
    var i := m - 1;
    if i > c {
      FailsAfterOpenTenth(rolls, c, i);
      FailureStays(rolls, i, m);
    } else {
      OpenTenthRefuses(rolls, c, m);
    }
  }

  /** A failure ends the loop: later rolls leave it as it is. */
  lemma FailureStays(rolls: seq<int>, i: nat, m: nat)
    requires m == i + 1 <= |rolls| && Iterate(rolls, i).Failure?
    ensures Iterate(rolls, m) == Iterate(rolls, i)
  {
    IterateUnfolds(rolls, i);
  }

  /** A finished open tenth frame refuses the next roll. */
  lemma OpenTenthRefuses(rolls: seq<int>, c: nat, m: nat)
    requires m == c + 1 <= |rolls| && Iterate(rolls, c).Success?
    requires var f := Iterate(rolls, c).value.frame;
             f.EndFrame() && f.completed && !f.strike && !f.spare
    ensures Iterate(rolls, m) == Failure(FramesExceeded)
  {
    IterateUnfolds(rolls, c);
  }

  /** What `generate` returns once the tenth frame is finished after the first `c` rolls:
      the frames so far when it ended on a strike or spare, whatever follows; a
      `FramesExceeded` failure when it ended open and any roll follows. */
  lemma GenerateAfterTenth(rolls: seq<int>, c: nat)
    requires c <= |rolls| && Iterate(rolls, c).Success?
    requires Iterate(rolls, c).value.frame.EndFrame() && Iterate(rolls, c).value.frame.completed
    ensures var f := Iterate(rolls, c).value.frame;
            f.strike || f.spare ==> Generate(rolls) == Success(Iterate(rolls, c).value.frames)
    ensures var f := Iterate(rolls, c).value.frame;
            !f.strike && !f.spare && c < |rolls| ==> Generate(rolls) == Failure(FramesExceeded)
  {
    var f := Iterate(rolls, c).value.frame;
    if f.strike || f.spare {
      SkipsAfterBonusTenth(rolls, c, |rolls|);
    } else if c < |rolls| {
      FailsAfterOpenTenth(rolls, c, |rolls|);
    }
  }
}
