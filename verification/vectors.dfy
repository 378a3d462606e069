/** The games the repository's own scoring tests play, run through the model: the expected
    frames, scores and flags, the inputs that are refused and with what, and the inputs
    whose outcome the code decides differently from what its tests expect.

    Each game is evaluated one pass of the loop at a time.  The pass lemmas below are
    stated for any input and any state of the right shape, so the games are chains of
    them. */
module ReferenceGames {
  import opened Wrappers
  import opened Frames
  import opened Generator
  import opened GeneratorProofs
  import opened GameProperties

  /** What a test expects of one frame: its number, own rolls, score and flags. */
  datatype Expected = Expected(number: int, rolls: seq<int>, score: int, strike: bool, spare: bool, completed: bool)

  /** The frame shows what is expected of it, field by field. */
  predicate Shows(f: Frame, e: Expected) {
    && f.number == e.number && f.rolls == e.rolls && f.score == Some(e.score)
    && f.strike == e.strike && f.spare == e.spare && f.completed == e.completed
  }

  /** The emitted frames are the expected ones, in order and no more. */
  predicate Validates(fs: seq<Frame>, es: seq<Expected>) {
    |fs| == |es| && forall j :: 0 <= j < |fs| ==> Shows(fs[j], es[j])
  }

  /** The frame the loop adds the next roll to is a fresh frame `k` starting from `p`:
      either the very first frame, or the one after a frame whose own rolls are complete. */
  predicate Opens(s: State, k: int, p: int) {
    || (s.frame == Blank(1, 0) && k == 1 && p == 0)
    || (&& s.frame.rollsCompleted && !s.frame.EndFrame()
        && s.frame.number + 1 == k && s.frame.score == Some(p))
  }

  /** A well-formed frame is fixed by its number, starting score and rolls. */
  lemma ScoredByRolls(f: Frame)
    requires WellFormed(f) && f.rolls != []
    ensures f == Scored(f.number, f.prevScore, f.rolls, f.nextRolls)
  {
  }

  /** The first roll of a fresh frame, at most MAX_PINS, is its first own roll. */
  lemma OpeningRoll(s: State, k: int, p: int, x: int)
    requires Opens(s, k, p) && k <= MAX_FRAMES && x <= MAX_PINS
    ensures AddRoll(Current(s.frame), x) == Success(Scored(k, p, [x], []))
  {
    assert Current(s.frame) == Blank(k, p);
    assert [] + [x] == [x];
  }

  /** A first roll short of a strike opens frame `k` and waits for the second. */
  lemma FirstRoll(rolls: seq<int>, i: nat, s: State, k: int, p: int)
    requires i < |rolls| && Opens(s, k, p) && k <= MAX_FRAMES && rolls[i] < MAX_PINS
    ensures var f := Scored(k, p, [rolls[i]], []);
            Step(rolls, i, s) == Success(State(f, if i == |rolls| - 1 then s.frames + [f] else s.frames))
  {
    OpeningRoll(s, k, p, rolls[i]);
    StepUnfolds(rolls, i, s);
  }

  /** A first-roll strike in frames 1-9 takes the rolls that follow as bonus, up to two. */
  lemma StrikeRoll(rolls: seq<int>, i: nat, s: State, k: int, p: int)
    requires i < |rolls| && Opens(s, k, p) && k < MAX_FRAMES && rolls[i] == MAX_PINS
    requires WithinPins(rolls[i + 1..Min(i + 3, |rolls|)])
    ensures var f := Scored(k, p, [MAX_PINS], rolls[i + 1..Min(i + 3, |rolls|)]);
            Step(rolls, i, s) == Success(State(f, s.frames + [f]))
  {
    OpeningRoll(s, k, p, rolls[i]);
    StepUnfolds(rolls, i, s);
    StrikeBonus(rolls, i, k, p);
  }

  /** The lookahead after a strike in frames 1-9. */
  lemma StrikeBonus(rolls: seq<int>, i: nat, k: int, p: int)
    requires i < |rolls| && k < MAX_FRAMES && WithinPins(rolls[i + 1..Min(i + 3, |rolls|)])
    ensures Lookahead(rolls, i, Scored(k, p, [MAX_PINS], []))
            == Success(Scored(k, p, [MAX_PINS], rolls[i + 1..Min(i + 3, |rolls|)]))
  {
    var a := Scored(k, p, [MAX_PINS], []);
    LookaheadTakesFollowing(rolls, i, a);
    ScoredByRolls(Lookahead(rolls, i, a).value);
  }

  /** A roll above MAX_PINS opening a frame is refused. */
  lemma InvalidRoll(rolls: seq<int>, i: nat, s: State, k: int, p: int)
    requires i < |rolls| && Opens(s, k, p) && k <= MAX_FRAMES && rolls[i] > MAX_PINS
    ensures Step(rolls, i, s) == Failure(InvalidPins)
  {
    assert Current(s.frame) == Blank(k, p);
    StepUnfolds(rolls, i, s);
  }

  /** The second own roll of a frame whose first roll `x` is not a strike. */
  lemma SecondOwnRoll(s: State, k: int, p: int, x: int, y: int)
    requires s.frame == Scored(k, p, [x], []) && k <= MAX_FRAMES && 0 <= x < MAX_PINS && y <= MAX_PINS
    ensures !s.frame.rollsCompleted && !s.frame.completed
    ensures x + y <= MAX_PINS ==> AddRoll(Current(s.frame), y) == Success(Scored(k, p, [x, y], []))
    ensures x + y > MAX_PINS ==> AddRoll(Current(s.frame), y) == Failure(FrameOverflow)
  {
    assert Current(s.frame) == s.frame;
    assert [x] + [y] == [x, y];
  }

  /** A second roll that leaves pins standing closes the frame open. */
  lemma OpenRoll(rolls: seq<int>, i: nat, s: State, k: int, p: int, x: int)
    requires i < |rolls| && k <= MAX_FRAMES && 0 <= x < MAX_PINS && s.frame == Scored(k, p, [x], [])
    requires x + rolls[i] < MAX_PINS
    ensures var f := Scored(k, p, [x, rolls[i]], []);
            Step(rolls, i, s) == Success(State(f, s.frames + [f]))
  {
    SecondOwnRoll(s, k, p, x, rolls[i]);
    StepUnfolds(rolls, i, s);
  }

  /** A second roll over the pins left standing is refused. */
  lemma OverflowRoll(rolls: seq<int>, i: nat, s: State, k: int, p: int, x: int)
    requires i < |rolls| && k <= MAX_FRAMES && 0 <= x < MAX_PINS && s.frame == Scored(k, p, [x], [])
    requires rolls[i] <= MAX_PINS && x + rolls[i] > MAX_PINS
    ensures Step(rolls, i, s) == Failure(FrameOverflow)
  {
    SecondOwnRoll(s, k, p, x, rolls[i]);
    StepUnfolds(rolls, i, s);
  }

  /** A spare in frames 1-9 takes the roll that follows as bonus. */
  lemma SpareRoll(rolls: seq<int>, i: nat, s: State, k: int, p: int, x: int)
    requires i < |rolls| && k < MAX_FRAMES && 0 <= x < MAX_PINS && s.frame == Scored(k, p, [x], [])
    requires x + rolls[i] == MAX_PINS && WithinPins(rolls[i + 1..Min(i + 2, |rolls|)])
    ensures var f := Scored(k, p, [x, rolls[i]], rolls[i + 1..Min(i + 2, |rolls|)]);
            Step(rolls, i, s) == Success(State(f, s.frames + [f]))
  {
    var y := rolls[i];
    var a := Scored(k, p, [x, y], []);
    var f := Scored(k, p, [x, y], rolls[i + 1..Min(i + 2, |rolls|)]);
    SecondOwnRoll(s, k, p, x, y);
    SpareBonus(rolls, i, k, p, x, y);
    assert f.rollsCompleted;
    PassThrough(rolls, i, s, a, f);
  }

  /** The lookahead after a spare in frames 1-9. */
  lemma SpareBonus(rolls: seq<int>, i: nat, k: int, p: int, x: int, y: int)
    requires i < |rolls| && k < MAX_FRAMES && 0 <= x < MAX_PINS && x + y == MAX_PINS
    requires WithinPins(rolls[i + 1..Min(i + 2, |rolls|)])
    ensures Lookahead(rolls, i, Scored(k, p, [x, y], []))
            == Success(Scored(k, p, [x, y], rolls[i + 1..Min(i + 2, |rolls|)]))
  {
    var a := Scored(k, p, [x, y], []);
    PairSum(x, y);
    LookaheadTakesFollowing(rolls, i, a);
    ScoredByRolls(Lookahead(rolls, i, a).value);
  }

  /** A spare in the tenth frame takes the roll that follows as a third own roll. */
  lemma TenthSpareRoll(rolls: seq<int>, i: nat, s: State, p: int, x: int)
    requires i < |rolls| && 0 <= x < MAX_PINS && s.frame == Scored(MAX_FRAMES, p, [x], [])
    requires x + rolls[i] == MAX_PINS && WithinPins(rolls[i + 1..Min(i + 2, |rolls|)])
    ensures var f := Scored(MAX_FRAMES, p, [x, rolls[i]] + rolls[i + 1..Min(i + 2, |rolls|)], []);
            Step(rolls, i, s) == Success(State(f, s.frames + [f]))
  {
    var y := rolls[i];
    var a := Scored(MAX_FRAMES, p, [x, y], []);
    var f := Scored(MAX_FRAMES, p, [x, y] + rolls[i + 1..Min(i + 2, |rolls|)], []);
    SecondOwnRoll(s, MAX_FRAMES, p, x, y);
    TenthSpareBonus(rolls, i, p, x, y);
    assert f.rollsCompleted || i == |rolls| - 1;
    PassThrough(rolls, i, s, a, f);
  }

  /** The lookahead after a spare in the tenth frame. */
  lemma TenthSpareBonus(rolls: seq<int>, i: nat, p: int, x: int, y: int)
    requires i < |rolls| && 0 <= x < MAX_PINS && x + y == MAX_PINS
    requires WithinPins(rolls[i + 1..Min(i + 2, |rolls|)])
    ensures Lookahead(rolls, i, Scored(MAX_FRAMES, p, [x, y], []))
            == Success(Scored(MAX_FRAMES, p, [x, y] + rolls[i + 1..Min(i + 2, |rolls|)], []))
  {
    var a := Scored(MAX_FRAMES, p, [x, y], []);
    PairSum(x, y);
    LookaheadEndFrame(rolls, i, a);
    if i + 1 < |rolls| {
      TenthSpareThird(rolls, i, p, x, y, a);
    }
    ScoredByRolls(Lookahead(rolls, i, a).value);
  }

  lemma TenthSpareThird(rolls: seq<int>, i: nat, p: int, x: int, y: int, a: Frame)
    requires i + 1 < |rolls| && 0 <= x < MAX_PINS && x + y == MAX_PINS && rolls[i + 1] <= MAX_PINS
    requires a == Scored(MAX_FRAMES, p, [x, y], []) && Sum(a.rolls) == MAX_PINS
    ensures Lookahead(rolls, i, a).Success?
  {
    assert AddRoll(a, rolls[i + 1]).Success?;
  }

  lemma PairSum(x: int, y: int)
    ensures Sum([x, y]) == x + y
  {
    assert [x, y][1..] == [y];
    assert Sum([y]) == y;
  }

  /** A strike in the tenth frame followed by a strike or a gutter ball and one more roll:
      all three are its own rolls, and the frame is complete. */
  lemma TenthStrikes(rolls: seq<int>, i: nat, s: State, p: int)
    requires i + 2 < |rolls| && Opens(s, MAX_FRAMES, p) && rolls[i] == MAX_PINS
    requires rolls[i + 1] == MAX_PINS || rolls[i + 1] == 0
    requires rolls[i + 2] <= MAX_PINS
    ensures var f := Scored(MAX_FRAMES, p, [MAX_PINS, rolls[i + 1], rolls[i + 2]], []);
            Step(rolls, i, s) == Success(State(f, s.frames + [f]))
  {
    var a := Scored(MAX_FRAMES, p, [MAX_PINS], []);
    var f := Scored(MAX_FRAMES, p, [MAX_PINS, rolls[i + 1], rolls[i + 2]], []);
    OpeningRoll(s, MAX_FRAMES, p, rolls[i]);
    TenthStrikeBonus(rolls, i, p);
    PassThrough(rolls, i, s, a, f);
  }

  /** The lookahead after a strike in the tenth frame takes the next two rolls as own rolls
      when the first of them is a strike or a gutter ball. */
  lemma TenthStrikeBonus(rolls: seq<int>, i: nat, p: int)
    requires i + 2 < |rolls| && (rolls[i + 1] == MAX_PINS || rolls[i + 1] == 0)
    requires rolls[i + 2] <= MAX_PINS
    ensures Lookahead(rolls, i, Scored(MAX_FRAMES, p, [MAX_PINS], []))
            == Success(Scored(MAX_FRAMES, p, [MAX_PINS, rolls[i + 1], rolls[i + 2]], []))
  {
    TenthSecondRoll(p, rolls[i + 1]);
    TenthThirdRoll(p, rolls[i + 1], rolls[i + 2]);
  }

  /** Any roll fits after a strike in the tenth frame. */
  lemma TenthSecondRoll(p: int, x: int)
    requires x <= MAX_PINS
    ensures var a := Scored(MAX_FRAMES, p, [MAX_PINS], []);
            a.strike && !a.completed
            && AddRoll(a, x) == Success(Scored(MAX_FRAMES, p, [MAX_PINS, x], []))
  {
    assert [MAX_PINS] + [x] == [MAX_PINS, x];
  }

  /** After a strike and a strike or gutter ball in the tenth frame any roll fits. */
  lemma TenthThirdRoll(p: int, x: int, y: int)
    requires (x == MAX_PINS || x == 0) && y <= MAX_PINS
    ensures var b := Scored(MAX_FRAMES, p, [MAX_PINS, x], []);
            !b.completed && AddRoll(b, y) == Success(Scored(MAX_FRAMES, p, [MAX_PINS, x, y], []))
  {
    PairSum(MAX_PINS, x);
    assert [MAX_PINS, x] + [y] == [MAX_PINS, x, y];
  }

  /** The third roll of a tenth frame opened by a strike, at most MAX_PINS, fits exactly when
      the second roll was a strike or a gutter ball, or the two later rolls add up to no pins
      at all: after any other second roll the cap falls back to one rack, so even a gutter
      ball overflows after a second roll from 1 to 9. */
  lemma TenthThirdRollFits(p: int, x: int, y: int)
    requires x <= MAX_PINS && y <= MAX_PINS
    ensures var b := Scored(MAX_FRAMES, p, [MAX_PINS, x], []);
            AddRoll(b, y).Success? <==> x == MAX_PINS || x == 0 || x + y <= 0
    ensures x != MAX_PINS && x != 0 && x + y > 0 ==>
              AddRoll(Scored(MAX_FRAMES, p, [MAX_PINS, x], []), y) == Failure(FrameOverflow)
  {
    PairSum(MAX_PINS, x);
  }

  /** A tenth frame of three own rolls opening with a strike or a spare is complete. */
  lemma TenthClosed(p: int, x: int, y: int, z: int)
    requires x == MAX_PINS || (0 <= x < MAX_PINS && x + y == MAX_PINS)
    ensures var f := Scored(MAX_FRAMES, p, [x, y, z], []);
            f.EndFrame() && f.completed && (f.strike || f.spare)
  {
  }

  lemma NinthStrikeOpensTenth()
    ensures Opens(State(RunFrame(9), Strikes(9)), MAX_FRAMES, 270)
  {
    PairSum(MAX_PINS, MAX_PINS);
  }

  /** A strike as the last roll of the input in the tenth frame is emitted on its own. */
  lemma TenthStrikeLast(rolls: seq<int>, i: nat, s: State, p: int)
    requires i + 1 == |rolls| && Opens(s, MAX_FRAMES, p) && rolls[i] == MAX_PINS
    ensures var f := Scored(MAX_FRAMES, p, [MAX_PINS], []);
            Step(rolls, i, s) == Success(State(f, s.frames + [f]))
  {
    var a := Scored(MAX_FRAMES, p, [MAX_PINS], []);
    OpeningRoll(s, MAX_FRAMES, p, rolls[i]);
    assert Lookahead(rolls, i, a) == Success(a);
    PassThrough(rolls, i, s, a, a);
  }

  /** A strike in the tenth frame with one roll left in the input: both are own rolls, and
      the frame is neither complete nor emitted. */
  lemma TenthStrikeShort(rolls: seq<int>, i: nat, s: State, p: int)
    requires i + 2 == |rolls| && Opens(s, MAX_FRAMES, p)
    requires rolls[i] == MAX_PINS && rolls[i + 1] <= MAX_PINS
    ensures var f := Scored(MAX_FRAMES, p, [MAX_PINS, rolls[i + 1]], []);
            Step(rolls, i, s) == Success(State(f, s.frames))
  {
    var a := Scored(MAX_FRAMES, p, [MAX_PINS], []);
    var f := Scored(MAX_FRAMES, p, [MAX_PINS, rolls[i + 1]], []);
    OpeningRoll(s, MAX_FRAMES, p, rolls[i]);
    assert [MAX_PINS] + [rolls[i + 1]] == [MAX_PINS, rolls[i + 1]];
    assert Lookahead(rolls, i, a) == Success(f);
    assert !f.rollsCompleted;
    PassThrough(rolls, i, s, a, f);
  }

  /** The last roll of the input reaches the tenth frame a second time after
      `TenthStrikeShort` took it as the second own roll: a second strike fits as the third
      roll, a gutter ball as a third 0 that completes a frame flagged both strike and spare,
      and any roll from 1 to 9 overflows the frame. */
  lemma Refeed(rolls: seq<int>, i: nat, s: State, p: int)
    requires i + 1 == |rolls| && s.frame == Scored(MAX_FRAMES, p, [MAX_PINS, rolls[i]], [])
    requires 0 <= rolls[i] <= MAX_PINS
    ensures var f := Scored(MAX_FRAMES, p, [MAX_PINS, MAX_PINS, MAX_PINS], []);
            rolls[i] == MAX_PINS ==> Step(rolls, i, s) == Success(State(f, s.frames + [f]))
    ensures var g := Scored(MAX_FRAMES, p, [MAX_PINS, 0, 0], []);
            rolls[i] == 0 ==>
              && Step(rolls, i, s) == Success(State(g, s.frames + [g]))
              && g.completed && g.strike && g.spare && g.score == Some(p + MAX_PINS)
    ensures 0 < rolls[i] < MAX_PINS ==> Step(rolls, i, s) == Failure(FrameOverflow)
  {
    var x := rolls[i];
    PairSum(MAX_PINS, x);
    assert Current(s.frame) == s.frame;
    if x == MAX_PINS {
      var f := Scored(MAX_FRAMES, p, [MAX_PINS, MAX_PINS, MAX_PINS], []);
      assert [MAX_PINS, MAX_PINS] + [MAX_PINS] == [MAX_PINS, MAX_PINS, MAX_PINS];
      assert AddRoll(s.frame, x) == Success(f);
      PassThrough(rolls, i, s, f, f);
    } else if x == 0 {
      var g := Scored(MAX_FRAMES, p, [MAX_PINS, 0, 0], []);
      TripleSum(MAX_PINS, 0, 0);
      assert [MAX_PINS, 0] + [0] == [MAX_PINS, 0, 0];
      assert AddRoll(s.frame, x) == Success(g);
      PassThrough(rolls, i, s, g, g);
    } else {
      StepUnfolds(rolls, i, s);
    }
  }

  /** Frame `j` of a run of strikes: one own roll and the next two strikes as bonus. */
  function RunFrame(j: int): Frame {
    Scored(j, 3 * MAX_PINS * (j - 1), [MAX_PINS], [MAX_PINS, MAX_PINS])
  }

  /** The first `k` frames of a run of strikes. */
  function Strikes(k: nat): (fs: seq<Frame>)
    ensures |fs| == k
  {
    if k == 0 then [] else Strikes(k - 1) + [RunFrame(k)]
  }

  /** The first `m` rolls are all strikes. */
  predicate AllStrikes(rolls: seq<int>, m: nat)
    requires m <= |rolls|
  {
    forall j :: 0 <= j < m ==> rolls[j] == MAX_PINS
  }

  /** Any input opening with `k + 2` strikes, `k` at most 9: after `k` rolls the first `k`
      frames are emitted, each a strike scoring 30 more than the one before. */
  lemma {:induction false} StrikeRun(rolls: seq<int>, k: nat)
    requires 1 <= k < MAX_FRAMES && k + 2 <= |rolls| && AllStrikes(rolls, k + 2)
    ensures Iterate(rolls, k) == Success(State(RunFrame(k), Strikes(k)))
  {
    var i := k - 1;
    if i == 0 {
      IterateUnfolds(rolls, 0);
      StrikeRunPass(rolls, 0, Start(), k);
    } else {
      StrikeRun(rolls, i);
      IterateUnfolds(rolls, i);
      StrikeRunPass(rolls, i, State(RunFrame(i), Strikes(i)), k);
    }
  }

  lemma StrikeRunPass(rolls: seq<int>, i: nat, s: State, k: nat)
    requires k == i + 1 && k < MAX_FRAMES && k + 2 <= |rolls| && AllStrikes(rolls, k + 2)
    requires s == if i == 0 then Start() else State(RunFrame(i), Strikes(i))
    ensures Step(rolls, i, s) == Success(State(RunFrame(k), Strikes(k)))
  {
    var p := 3 * MAX_PINS * i;
    var bonus := rolls[i + 1..Min(i + 3, |rolls|)];
    RunOpens(i, s, k, p);
    RunBonus(rolls, i, bonus);
    StrikeRoll(rolls, i, s, k, p);
    RunFrameIs(k, p, bonus);
  }

  /** Frame `k` of a run of strikes opens at 30 per frame before it. */
  lemma RunOpens(i: nat, s: State, k: nat, p: int)
    requires k == i + 1 && k < MAX_FRAMES && p == 3 * MAX_PINS * i
    requires s == if i == 0 then Start() else State(RunFrame(i), Strikes(i))
    ensures Opens(s, k, p) && s.frames + [RunFrame(k)] == Strikes(k)
  {
    PairSum(MAX_PINS, MAX_PINS);
  }

  lemma RunBonus(rolls: seq<int>, i: nat, bonus: seq<int>)
    requires i + 3 <= |rolls| && AllStrikes(rolls, i + 3) && bonus == rolls[i + 1..Min(i + 3, |rolls|)]
    ensures rolls[i] == MAX_PINS && bonus == [MAX_PINS, MAX_PINS] && WithinPins(bonus)
  {
  }

  lemma RunFrameIs(k: nat, p: int, bonus: seq<int>)
    requires p == 3 * MAX_PINS * (k - 1) && bonus == [MAX_PINS, MAX_PINS]
    ensures Scored(k, p, [MAX_PINS], bonus) == RunFrame(k)
  {
  }

  /** Twelve strikes or more: nine strike frames scoring 30, 60, ..., 270 and a tenth frame
      of three strikes scoring 300; strikes after the twelfth are skipped, not refused. */
  lemma PerfectGame(rolls: seq<int>)
    requires 12 <= |rolls| && AllStrikes(rolls, |rolls|)
    ensures Generate(rolls).Success?
    ensures var fs := Generate(rolls).value;
            && |fs| == MAX_FRAMES
            && (forall j :: 0 <= j < MAX_FRAMES - 1 ==>
                  Shows(fs[j], Expected(j + 1, [MAX_PINS], 30 * (j + 1), true, false, true)))
            && Shows(fs[9], Expected(10, [10, 10, 10], 300, true, false, true))
  {
    PerfectFrames(rolls);
    StrikesShow(9);
    TripleStrikeShows(270);
  }

  /** Every frame of a run of strikes is a completed strike scoring 30 more than the one before. */
  lemma {:induction false} StrikesShow(k: nat)
    requires k < MAX_FRAMES
    ensures forall j :: 0 <= j < k ==> Shows(Strikes(k)[j], Expected(j + 1, [MAX_PINS], 30 * (j + 1), true, false, true))
  {
    if k > 0 {
      var fs := Strikes(k - 1);
      assert Strikes(k) == fs + [RunFrame(k)];
      StrikesShow(k - 1);
      StrikeShows(k);
      forall j | 0 <= j < k
        ensures Shows(Strikes(k)[j], Expected(j + 1, [MAX_PINS], 30 * (j + 1), true, false, true))
      {
        if j < k - 1 {
          assert Strikes(k)[j] == fs[j];
        } else {
          assert Strikes(k)[j] == RunFrame(k);
        }
      }
    }
  }

  lemma TripleStrikeShows(p: int)
    ensures Shows(Scored(MAX_FRAMES, p, [MAX_PINS, MAX_PINS, MAX_PINS], []),
                  Expected(MAX_FRAMES, [MAX_PINS, MAX_PINS, MAX_PINS], p + 30, true, false, true))
  {
    TripleSum(MAX_PINS, MAX_PINS, MAX_PINS);
  }

  lemma TripleSum(x: int, y: int, z: int)
    ensures Sum([x, y, z]) == x + y + z
  {
    assert [x, y, z][1..] == [y, z];
    PairSum(y, z);
  }

  /** A game of twelve or more strikes, up to the end of the tenth frame. */
  lemma PerfectFrames(rolls: seq<int>)
    requires 12 <= |rolls| && AllStrikes(rolls, 12)
    ensures Generate(rolls) == Success(Strikes(9) + [Scored(MAX_FRAMES, 270, [MAX_PINS, MAX_PINS, MAX_PINS], [])])
  {
    StrikeRun(rolls, 9);
    var s9 := State(RunFrame(9), Strikes(9));
    NinthStrikeOpensTenth();
    TenthClosed(270, MAX_PINS, MAX_PINS, MAX_PINS);
    TenthStrikesPass(rolls, 9, 10, s9, 270);
    GenerateAfterTenth(rolls, 10);
  }

  lemma StrikeShows(j: int)
    requires j < MAX_FRAMES
    ensures Shows(RunFrame(j), Expected(j, [MAX_PINS], 30 * j, true, false, true))
  {
    PairSum(MAX_PINS, MAX_PINS);
  }

  /** A single strike: frame 1 is emitted incomplete, scoring 10. */
  lemma OneStrike()
    ensures Generate([10]).Success?
    ensures Validates(Generate([10]).value, [Expected(1, [10], 10, true, false, false)])
  {
    var R := [10];
    StrikeRoll(R, 0, Start(), 1, 0);
    IterateUnfolds(R, 0);
  }

  /** Two strikes: both frames are emitted incomplete, scoring 20 and 30. */
  lemma TwoStrikes()
    ensures Generate([10, 10]).Success?
    ensures Validates(Generate([10, 10]).value,
                      [Expected(1, [10], 20, true, false, false), Expected(2, [10], 30, true, false, false)])
  {
    var R := [10, 10];
    var f1 := Scored(1, 0, [10], [10]);
    var f2 := Scored(2, 20, [10], []);
    assert R[1..Min(3, 2)] == [10] && R[2..Min(4, 2)] == [];
    assert Start().frames + [f1] == [f1];
    StrikePass(R, 0, 1, Start(), 1, 0);
    StrikePass(R, 1, 2, State(f1, [f1]), 2, 20);
  }

  /** Three strikes: frame 1 is complete at 30, frames 2 and 3 are emitted incomplete at 50
      and 60. */
  lemma ThreeStrikes(R: seq<int>)
    requires R == [10, 10, 10]
    ensures Generate(R).Success?
    ensures Validates(Generate(R).value,
                      [Expected(1, [10], 30, true, false, true), Expected(2, [10], 50, true, false, false),
                       Expected(3, [10], 60, true, false, false)])
  {
    var f1 := Scored(1, 0, [10], [10, 10]);
    var f2 := Scored(2, 30, [10], [10]);
    var f3 := Scored(3, 50, [10], []);
    ThreeStrikeFrames(R);
    PairSum(10, 10);
    assert Shows(f1, Expected(1, [10], 30, true, false, true));
    assert Shows(f2, Expected(2, [10], 50, true, false, false));
    assert Shows(f3, Expected(3, [10], 60, true, false, false));
  }

  lemma ThreeStrikeFrames(R: seq<int>)
    requires R == [10, 10, 10]
    ensures Generate(R) == Success([Scored(1, 0, [10], [10, 10]), Scored(2, 30, [10], [10]), Scored(3, 50, [10], [])])
  {
    var f1 := Scored(1, 0, [10], [10, 10]);
    var f2 := Scored(2, 30, [10], [10]);
    PairSum(10, 10);
    assert R[1..Min(3, 3)] == [10, 10] && R[2..Min(4, 3)] == [10] && R[3..Min(5, 3)] == [];
    assert Start().frames + [f1] == [f1];
    assert [f1] + [f2] == [f1, f2];
    StrikePass(R, 0, 1, Start(), 1, 0);
    StrikePass(R, 1, 2, State(f1, [f1]), 2, 30);
    StrikePass(R, 2, 3, State(f2, [f1, f2]), 3, 50);
    assert [f1, f2] + [Scored(3, 50, [10], [])] == [f1, f2, Scored(3, 50, [10], [])];
    Finish(R, State(Scored(3, 50, [10], []), [f1, f2, Scored(3, 50, [10], [])]));
  }

  /** `StrikeRoll` as a pass of the loop. */
  lemma StrikePass(rolls: seq<int>, i: nat, m: nat, s: State, k: int, p: int)
    requires m == i + 1 <= |rolls| && Iterate(rolls, i) == Success(s)
    requires Opens(s, k, p) && k < MAX_FRAMES && rolls[i] == MAX_PINS
    requires WithinPins(rolls[i + 1..Min(i + 3, |rolls|)])
    ensures var f := Scored(k, p, [MAX_PINS], rolls[i + 1..Min(i + 3, |rolls|)]);
            Iterate(rolls, m) == Success(State(f, s.frames + [f]))
  {
    StrikeRoll(rolls, i, s, k, p);
    IterateUnfolds(rolls, i);
  }

  /** `TenthStrikes` as a pass of the loop. */
  lemma TenthStrikesPass(rolls: seq<int>, i: nat, m: nat, s: State, p: int)
    requires m == i + 1 && i + 2 < |rolls| && Iterate(rolls, i) == Success(s)
    requires Opens(s, MAX_FRAMES, p) && rolls[i] == MAX_PINS
    requires (rolls[i + 1] == MAX_PINS || rolls[i + 1] == 0) && 0 <= rolls[i + 2] <= MAX_PINS
    ensures var f := Scored(MAX_FRAMES, p, [MAX_PINS, rolls[i + 1], rolls[i + 2]], []);
            Iterate(rolls, m) == Success(State(f, s.frames + [f]))
  {
    TenthStrikes(rolls, i, s, p);
    IterateUnfolds(rolls, i);
  }

  /** The frames `generate` returns are those of the state after the last pass. */
  lemma Finish(rolls: seq<int>, s: State)
    requires Iterate(rolls, |rolls|) == Success(s)
    ensures Generate(rolls) == Success(s.frames)
  {
  }

  /** `FirstRoll` as a pass of the loop. */
  lemma FirstPass(rolls: seq<int>, i: nat, m: nat, s: State, k: int, p: int)
    requires m == i + 1 <= |rolls| && Iterate(rolls, i) == Success(s)
    requires Opens(s, k, p) && k <= MAX_FRAMES && rolls[i] < MAX_PINS
    ensures var f := Scored(k, p, [rolls[i]], []);
            Iterate(rolls, m) == Success(State(f, if i == |rolls| - 1 then s.frames + [f] else s.frames))
  {
    FirstRoll(rolls, i, s, k, p);
    IterateUnfolds(rolls, i);
  }

  /** `OpenRoll` as a pass of the loop. */
  lemma OpenPass(rolls: seq<int>, i: nat, m: nat, s: State, k: int, p: int, x: int)
    requires m == i + 1 <= |rolls| && Iterate(rolls, i) == Success(s)
    requires k <= MAX_FRAMES && 0 <= x < MAX_PINS && s.frame == Scored(k, p, [x], [])
    requires x + rolls[i] < MAX_PINS
    ensures var f := Scored(k, p, [x, rolls[i]], []);
            Iterate(rolls, m) == Success(State(f, s.frames + [f]))
  {
    OpenRoll(rolls, i, s, k, p, x);
    IterateUnfolds(rolls, i);
  }

  /** `SpareRoll` as a pass of the loop. */
  lemma SparePass(rolls: seq<int>, i: nat, m: nat, s: State, k: int, p: int, x: int)
    requires m == i + 1 <= |rolls| && Iterate(rolls, i) == Success(s)
    requires k < MAX_FRAMES && 0 <= x < MAX_PINS && s.frame == Scored(k, p, [x], [])
    requires x + rolls[i] == MAX_PINS && WithinPins(rolls[i + 1..Min(i + 2, |rolls|)])
    ensures var f := Scored(k, p, [x, rolls[i]], rolls[i + 1..Min(i + 2, |rolls|)]);
            Iterate(rolls, m) == Success(State(f, s.frames + [f]))
  {
    SpareRoll(rolls, i, s, k, p, x);
    IterateUnfolds(rolls, i);
  }

  /** `TenthSpareRoll` as a pass of the loop. */
  lemma TenthSparePass(rolls: seq<int>, i: nat, m: nat, s: State, p: int, x: int)
    requires m == i + 1 <= |rolls| && Iterate(rolls, i) == Success(s)
    requires 0 <= x < MAX_PINS && s.frame == Scored(MAX_FRAMES, p, [x], [])
    requires x + rolls[i] == MAX_PINS && WithinPins(rolls[i + 1..Min(i + 2, |rolls|)])
    ensures var f := Scored(MAX_FRAMES, p, [x, rolls[i]] + rolls[i + 1..Min(i + 2, |rolls|)], []);
            Iterate(rolls, m) == Success(State(f, s.frames + [f]))
  {
    TenthSpareRoll(rolls, i, s, p, x);
    IterateUnfolds(rolls, i);
  }

  /** A frame of two rolls leaving pins standing, as two passes of the loop. */
  lemma OpenFrame(rolls: seq<int>, i: nat, m: nat, s: State, k: int, p: int)
    requires m == i + 2 <= |rolls| && Iterate(rolls, i) == Success(s)
    requires Opens(s, k, p) && k <= MAX_FRAMES && 0 <= rolls[i] && 0 <= rolls[i + 1] && rolls[i] + rolls[i + 1] < MAX_PINS
    ensures var f := Scored(k, p, [rolls[i], rolls[i + 1]], []);
            Iterate(rolls, m) == Success(State(f, s.frames + [f]))
  {
    var j := i + 1;
    var a := State(Scored(k, p, [rolls[i]], []), s.frames);
    FirstPass(rolls, i, j, s, k, p);
    OpenPass(rolls, j, m, a, k, p, rolls[i]);
  }

  /** A spare in frames 1-9, as two passes of the loop. */
  lemma SpareFrame(rolls: seq<int>, i: nat, m: nat, s: State, k: int, p: int)
    requires m == i + 2 < |rolls| && Iterate(rolls, i) == Success(s)
    requires Opens(s, k, p) && k < MAX_FRAMES && 0 <= rolls[i] < MAX_PINS
    requires rolls[i] + rolls[i + 1] == MAX_PINS && rolls[i + 2] <= MAX_PINS
    ensures var f := Scored(k, p, [rolls[i], rolls[i + 1]], [rolls[i + 2]]);
            Iterate(rolls, m) == Success(State(f, s.frames + [f]))
  {
    var j := i + 1;
    var a := State(Scored(k, p, [rolls[i]], []), s.frames);
    FirstPass(rolls, i, j, s, k, p);
    OneAhead(rolls, j);
    SparePass(rolls, j, m, a, k, p, rolls[i]);
  }

  lemma OneAhead(rolls: seq<int>, j: nat)
    requires j + 1 < |rolls|
    ensures rolls[j + 1..Min(j + 2, |rolls|)] == [rolls[j + 1]]
  {
  }

  lemma TwoAhead(rolls: seq<int>, i: nat)
    requires i + 2 < |rolls|
    ensures rolls[i + 1..Min(i + 3, |rolls|)] == [rolls[i + 1], rolls[i + 2]]
  {
  }

  /** A spare in the tenth frame, as two passes of the loop: the roll after it, if any, is
      the frame's third own roll. */
  lemma TenthSpareFrame(rolls: seq<int>, i: nat, m: nat, s: State, p: int)
    requires m == i + 2 <= |rolls| && Iterate(rolls, i) == Success(s)
    requires Opens(s, MAX_FRAMES, p) && 0 <= rolls[i] < MAX_PINS && rolls[i] + rolls[i + 1] == MAX_PINS
    requires WithinPins(rolls[m..Min(m + 1, |rolls|)])
    ensures var f := Scored(MAX_FRAMES, p, [rolls[i], rolls[i + 1]] + rolls[m..Min(m + 1, |rolls|)], []);
            Iterate(rolls, m) == Success(State(f, s.frames + [f]))
  {
    var j := i + 1;
    var a := State(Scored(MAX_FRAMES, p, [rolls[i]], []), s.frames);
    FirstPass(rolls, i, j, s, MAX_FRAMES, p);
    TenthSparePass(rolls, j, m, a, p, rolls[i]);
  }
}
