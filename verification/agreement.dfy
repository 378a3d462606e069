/** The loop of `generate` against the rules-based scorer of `Reference`: on every legal
    game, finished or not, the loop emits exactly the frames `Score` gives. */
module Agreement {
  import opened Wrappers
  import opened Frames
  import opened Generator
  import opened GeneratorProofs
  import opened ReferenceGames
  import opened GameProperties
  import opened Reference

  /** A strike in frames 1-9 opens the next frame at its score. */
  lemma StrikeOpens(fs: seq<Frame>, k: int, p: int, bonus: seq<int>, q: int)
    requires 1 <= k < MAX_FRAMES && q == p + MAX_PINS + Sum(bonus)
    ensures Opens(State(Scored(k, p, [MAX_PINS], bonus), fs), k + 1, q)
  {
    assert Sum([MAX_PINS]) == MAX_PINS;
    ClosedOpens(fs, k, p, [MAX_PINS], bonus, q);
  }

  /** A spare in frames 1-9 opens the next frame at its score. */
  lemma SpareOpens(fs: seq<Frame>, k: int, p: int, x: int, y: int, bonus: seq<int>, q: int)
    requires 1 <= k < MAX_FRAMES && x < MAX_PINS && x + y == MAX_PINS && q == p + MAX_PINS + Sum(bonus)
    ensures Opens(State(Scored(k, p, [x, y], bonus), fs), k + 1, q)
  {
    PairSum(x, y);
    ClosedOpens(fs, k, p, [x, y], bonus, q);
  }

  /** An open frame in frames 1-9 opens the next frame at its score. */
  lemma OpenOpens(fs: seq<Frame>, k: int, p: int, x: int, y: int, q: int)
    requires 1 <= k < MAX_FRAMES && x < MAX_PINS && q == p + x + y
    ensures Opens(State(Scored(k, p, [x, y], []), fs), k + 1, q)
  {
    PairSum(x, y);
    ClosedOpens(fs, k, p, [x, y], [], q);
  }

  /** A frame of 1-9 whose own rolls are complete opens the next frame at its score. */
  lemma ClosedOpens(fs: seq<Frame>, k: int, p: int, own: seq<int>, bonus: seq<int>, q: int)
    requires 1 <= k < MAX_FRAMES && own != [] && q == p + Sum(own) + Sum(bonus)
    requires (own[0] == MAX_PINS && |own| == 1) || (own[0] != MAX_PINS && |own| == 2)
    ensures Opens(State(Scored(k, p, own, bonus), fs), k + 1, q)
  {
  }

  /** The loop resumed at index `i` from state `s`: the passes for the rolls from `i` on, the
      first failure aborting it. */
  function Run(rolls: seq<int>, i: nat, s: State): Result<State, Error>
    requires i <= |rolls| && (s.frame.rollsCompleted ==> s.frame.score.Some?)
    decreases |rolls| - i
  {
    if i == |rolls| then Success(s)
    else
      var t :- Step(rolls, i, s);
      Run(rolls, i + 1, t)
  }

  /** The frames emitted once the loop, resumed at index `i` from state `s`, has seen the
      rest of the input, or its first failure. */
  function Resume(rolls: seq<int>, i: nat, s: State): Result<seq<Frame>, Error>
    requires i <= |rolls| && (s.frame.rollsCompleted ==> s.frame.score.Some?)
  {
    var t :- Run(rolls, i, s);
    Success(t.frames)
  }

  /** A failure of the loop stands to the end of the input. */
  lemma {:induction false} FailureLasts(rolls: seq<int>, j: nat, m: nat)
    requires j <= m <= |rolls| && Iterate(rolls, j).Failure?
    ensures Iterate(rolls, m) == Iterate(rolls, j)
    decreases m - j
  {
    if j < m {
      var h := j + 1;
      FailureStays(rolls, j, h);
      FailureLasts(rolls, h, m);
    }
  }

  /** Resuming the loop from the state it reached after `i` rolls finishes it. */
  lemma {:induction false} IterateThenRun(rolls: seq<int>, i: nat, s: State)
    requires i <= |rolls| && Iterate(rolls, i) == Success(s)
    ensures Run(rolls, i, s) == Iterate(rolls, |rolls|)
    decreases |rolls| - i
  {
    if i < |rolls| {
      var j := i + 1;
      var r := PassOnce(rolls, i, j, s);
      if r.Success? {
        IterateThenRun(rolls, j, r.value);
      } else {
        FailureLasts(rolls, j, |rolls|);
      }
    }
  }

  /** One more pass, seen from both ends: it is the loop's next state, and resuming from the
      earlier state goes through it (or stops at its failure). */
  lemma PassOnce(rolls: seq<int>, i: nat, j: nat, s: State) returns (r: Result<State, Error>)
    requires j == i + 1 <= |rolls| && Iterate(rolls, i) == Success(s)
    ensures r == Iterate(rolls, j)
    ensures r.Success? ==> Run(rolls, i, s) == Run(rolls, j, r.value)
    ensures r.Failure? ==> Run(rolls, i, s) == r
  {
    IterateUnfolds(rolls, i);
    r := Step(rolls, i, s);
  }

  /** One pass that succeeds hands its state on to the rest of the loop. */
  lemma RunStep(rolls: seq<int>, i: nat, s: State, t: State)
    requires i < |rolls| && (s.frame.rollsCompleted ==> s.frame.score.Some?) && Step(rolls, i, s) == Success(t)
    ensures t.frame.rollsCompleted ==> t.frame.score.Some?
    ensures Run(rolls, i, s) == Run(rolls, i + 1, t)
  {
  }

  /** After a finished tenth frame with a strike or spare every further roll is skipped. */
  lemma {:induction false} RunSkips(rolls: seq<int>, i: nat, t: State)
    requires i <= |rolls| && (t.frame.rollsCompleted ==> t.frame.score.Some?)
    requires t.frame.EndFrame() && t.frame.completed && (t.frame.strike || t.frame.spare)
    ensures Run(rolls, i, t) == Success(t)
    decreases |rolls| - i
  {
    if i < |rolls| {
      assert Step(rolls, i, t) == Success(t);
      RunSkips(rolls, i + 1, t);
    }
  }

  /** A lone last roll short of a strike in frames 1-9 is emitted as an unfinished frame. */
  lemma AgreeLast(rolls: seq<int>, i: nat, k: int, p: int, s: State)
    requires i + 1 == |rolls| && 1 <= k < MAX_FRAMES && 0 <= rolls[i] < MAX_PINS && Opens(s, k, p)
    ensures Resume(rolls, i, s) == Success(Score(rolls, i, k, p, s.frames))
  {
    var f := Scored(k, p, [rolls[i]], []);
    FirstRoll(rolls, i, s, k, p);
    RunStep(rolls, i, s, State(f, s.frames + [f]));
  }

  /** A strike in frames 1-9 is one pass of the loop. */
  lemma StrikeContinues(rolls: seq<int>, i: nat, j: nat, s: State, k: int, p: int, bonus: seq<int>)
    requires j == i + 1 <= |rolls| && Opens(s, k, p) && k < MAX_FRAMES && rolls[i] == MAX_PINS
    requires bonus == rolls[i + 1..Min(i + 3, |rolls|)] && WithinPins(bonus)
    ensures var f := Scored(k, p, [MAX_PINS], bonus);
            Run(rolls, i, s) == Run(rolls, j, State(f, s.frames + [f]))
  {
    var f := Scored(k, p, [MAX_PINS], bonus);
    StrikeRoll(rolls, i, s, k, p);
    RunStep(rolls, i, s, State(f, s.frames + [f]));
  }

  /** A first roll short of a strike that is not the last roll is one pass of the loop. */
  lemma FirstContinues(rolls: seq<int>, i: nat, j: nat, s: State, k: int, p: int, x: int)
    requires j == i + 1 < |rolls| && x == rolls[i] && Opens(s, k, p) && k <= MAX_FRAMES && x < MAX_PINS
    ensures Run(rolls, i, s) == Run(rolls, j, State(Scored(k, p, [x], []), s.frames))
  {
    FirstRoll(rolls, i, s, k, p);
    RunStep(rolls, i, s, State(Scored(k, p, [x], []), s.frames));
  }

  /** A spare in frames 1-9 is two passes of the loop. */
  lemma SpareContinues(rolls: seq<int>, i: nat, m: nat, s: State, k: int, p: int, x: int, y: int, bonus: seq<int>)
    requires m == i + 2 <= |rolls| && x == rolls[i] && y == rolls[i + 1] && bonus == rolls[m..Min(m + 1, |rolls|)]
    requires Opens(s, k, p) && k < MAX_FRAMES && 0 <= x < MAX_PINS && x + y == MAX_PINS && WithinPins(bonus)
    ensures var f := Scored(k, p, [x, y], bonus);
            Run(rolls, i, s) == Run(rolls, m, State(f, s.frames + [f]))
  {
    var j := i + 1;
    var a := State(Scored(k, p, [x], []), s.frames);
    var f := Scored(k, p, [x, y], bonus);
    FirstContinues(rolls, i, j, s, k, p, x);
    SpareRoll(rolls, j, a, k, p, x);
    RunStep(rolls, j, a, State(f, s.frames + [f]));
  }

  /** An open frame is two passes of the loop. */
  lemma OpenContinues(rolls: seq<int>, i: nat, m: nat, s: State, k: int, p: int, x: int, y: int)
    requires m == i + 2 <= |rolls| && x == rolls[i] && y == rolls[i + 1]
    requires Opens(s, k, p) && k <= MAX_FRAMES && 0 <= x && 0 <= y && x + y < MAX_PINS
    ensures var f := Scored(k, p, [x, y], []);
            Run(rolls, i, s) == Run(rolls, m, State(f, s.frames + [f]))
  {
    var j := i + 1;
    var a := State(Scored(k, p, [x], []), s.frames);
    var f := Scored(k, p, [x, y], []);
    FirstContinues(rolls, i, j, s, k, p, x);
    OpenRoll(rolls, j, a, k, p, x);
    RunStep(rolls, j, a, State(f, s.frames + [f]));
  }

  /** From a state that has just opened frame `k` at score `p`, the loop over a legal rest
      of the input emits the frames the rules give for it. */
  lemma {:induction false} Agrees(rolls: seq<int>, i: nat, k: int, p: int, s: State)
    requires i <= |rolls| && 1 <= k <= MAX_FRAMES && Legal(rolls, i, k) && Opens(s, k, p)
    ensures Resume(rolls, i, s) == Success(Score(rolls, i, k, p, s.frames))
    decreases |rolls| - i, 2
  {
    if i == |rolls| {
    } else if k == MAX_FRAMES {
      AgreeTenth(rolls, i, p, s);
    } else if rolls[i] == MAX_PINS {
      AgreeStrike(rolls, i, k, p, s);
    } else if i + 1 == |rolls| {
      AgreeLast(rolls, i, k, p, s);
    } else if rolls[i] + rolls[i + 1] == MAX_PINS {
      AgreeSpare(rolls, i, k, p, s, rolls[i], rolls[i + 1], rolls[i + 2..Min(i + 3, |rolls|)]);
    } else {
      AgreeOpen(rolls, i, k, p, s, rolls[i], rolls[i + 1]);
    }
  }

  lemma {:induction false} AgreeStrike(rolls: seq<int>, i: nat, k: int, p: int, s: State)
    requires i < |rolls| && 1 <= k < MAX_FRAMES && Legal(rolls, i, k) && rolls[i] == MAX_PINS && Opens(s, k, p)
    ensures Resume(rolls, i, s) == Success(Score(rolls, i, k, p, s.frames))
    decreases |rolls| - i, 1
  {
    var j := i + 1;
    var bonus := rolls[i + 1..Min(i + 3, |rolls|)];
    var q := p + MAX_PINS + Sum(bonus);
    AfterStrike(rolls, i, j, k, p, s, bonus, q);
    StrikeScore(rolls, i, j, k, p, bonus, q, s.frames);
    StrikeContinues(rolls, i, j, s, k, p, bonus);
  }

  lemma {:induction false} AfterStrike(rolls: seq<int>, i: nat, j: nat, k: int, p: int, s: State, bonus: seq<int>, q: int)
    requires j == i + 1 <= |rolls| && 1 <= k < MAX_FRAMES && Legal(rolls, i, k) && rolls[i] == MAX_PINS
    requires bonus == rolls[i + 1..Min(i + 3, |rolls|)] && q == p + MAX_PINS + Sum(bonus)
    ensures WithinPins(bonus)
    ensures var f := Scored(k, p, [MAX_PINS], bonus);
            Resume(rolls, j, State(f, s.frames + [f])) == Success(Score(rolls, j, k + 1, q, s.frames + [f]))
    decreases |rolls| - i, 0
  {
    var f := Scored(k, p, [MAX_PINS], bonus);
    StrikeLegal(rolls, i, j, k, bonus);
    StrikeOpens(s.frames + [f], k, p, bonus, q);
    AgreesAfter(rolls, j, k + 1, q, f, s.frames);
  }

  lemma {:induction false} AgreeSpare(rolls: seq<int>, i: nat, k: int, p: int, s: State, x: int, y: int, bonus: seq<int>)
    requires i + 1 < |rolls| && x == rolls[i] && y == rolls[i + 1] && bonus == rolls[i + 2..Min(i + 3, |rolls|)]
    requires 1 <= k < MAX_FRAMES && Legal(rolls, i, k) && x < MAX_PINS && x + y == MAX_PINS && Opens(s, k, p)
    ensures Resume(rolls, i, s) == Success(Score(rolls, i, k, p, s.frames))
    decreases |rolls| - i, 1
  {
    var m := i + 2;
    var q := p + MAX_PINS + Sum(bonus);
    AfterSpare(rolls, i, m, k, p, s, x, y, bonus, q);
    SpareScore(rolls, i, m, k, p, x, y, bonus, q, s.frames);
    SpareContinues(rolls, i, m, s, k, p, x, y, bonus);
  }

  lemma {:induction false} AfterSpare(rolls: seq<int>, i: nat, m: nat, k: int, p: int, s: State, x: int, y: int, bonus: seq<int>, q: int)
    requires m == i + 2 <= |rolls| && x == rolls[i] && y == rolls[i + 1] && bonus == rolls[m..Min(m + 1, |rolls|)]
    requires 1 <= k < MAX_FRAMES && Legal(rolls, i, k) && x < MAX_PINS && x + y == MAX_PINS && q == p + MAX_PINS + Sum(bonus)
    ensures 0 <= x && WithinPins(bonus)
    ensures var f := Scored(k, p, [x, y], bonus);
            Resume(rolls, m, State(f, s.frames + [f])) == Success(Score(rolls, m, k + 1, q, s.frames + [f]))
    decreases |rolls| - i, 0
  {
    var f := Scored(k, p, [x, y], bonus);
    SpareLegal(rolls, i, m, k, bonus);
    SpareOpens(s.frames + [f], k, p, x, y, bonus, q);
    AgreesAfter(rolls, m, k + 1, q, f, s.frames);
  }

  /** The loop resumed just after it emitted frame `f`, which opened frame `k` at `q`. */
  lemma {:induction false} AgreesAfter(rolls: seq<int>, m: nat, k: int, q: int, f: Frame, fs: seq<Frame>)
    requires m <= |rolls| && 1 <= k <= MAX_FRAMES && Legal(rolls, m, k) && Opens(State(f, fs + [f]), k, q)
    ensures Resume(rolls, m, State(f, fs + [f])) == Success(Score(rolls, m, k, q, fs + [f]))
    decreases |rolls| - m, 3
  {
    Agrees(rolls, m, k, q, State(f, fs + [f]));
  }

  lemma {:induction false} AgreeOpen(rolls: seq<int>, i: nat, k: int, p: int, s: State, x: int, y: int)
    requires i + 1 < |rolls| && x == rolls[i] && y == rolls[i + 1]
    requires 1 <= k < MAX_FRAMES && Legal(rolls, i, k) && x < MAX_PINS && x + y != MAX_PINS && Opens(s, k, p)
    ensures Resume(rolls, i, s) == Success(Score(rolls, i, k, p, s.frames))
    decreases |rolls| - i, 1
  {
    var m := i + 2;
    var q := p + x + y;
    AfterOpen(rolls, i, m, k, p, s, x, y, q);
    OpenScore(rolls, i, m, k, p, x, y, q, s.frames);
    OpenContinues(rolls, i, m, s, k, p, x, y);
  }

  lemma {:induction false} AfterOpen(rolls: seq<int>, i: nat, m: nat, k: int, p: int, s: State, x: int, y: int, q: int)
    requires m == i + 2 <= |rolls| && x == rolls[i] && y == rolls[i + 1]
    requires 1 <= k < MAX_FRAMES && Legal(rolls, i, k) && x < MAX_PINS && x + y != MAX_PINS && q == p + x + y
    ensures 0 <= x && 0 <= y && x + y < MAX_PINS
    ensures var f := Scored(k, p, [x, y], []);
            Resume(rolls, m, State(f, s.frames + [f])) == Success(Score(rolls, m, k + 1, q, s.frames + [f]))
    decreases |rolls| - i, 0
  {
    var f := Scored(k, p, [x, y], []);
    OpenLegal(rolls, i, m, k, x, y);
    OpenOpens(s.frames + [f], k, p, x, y, q);
    AgreesAfter(rolls, m, k + 1, q, f, s.frames);
  }

  /** The tenth frame: the loop emits the rest of the input as one frame. */
  lemma AgreeTenth(rolls: seq<int>, i: nat, p: int, s: State)
    requires i < |rolls| && Legal(rolls, i, MAX_FRAMES) && Opens(s, MAX_FRAMES, p)
    ensures Resume(rolls, i, s) == Success(Score(rolls, i, MAX_FRAMES, p, s.frames))
  {
    TenthScore(rolls, i, p, s.frames);
    if i + 1 == |rolls| {
      TenthOne(rolls, i, p, s);
    } else if i + 2 == |rolls| {
      TenthTwo(rolls, i, p, s);
    } else {
      TenthThree(rolls, i, p, s);
    }
  }

  lemma TenthOne(rolls: seq<int>, i: nat, p: int, s: State)
    requires i + 1 == |rolls| && 0 <= rolls[i] <= MAX_PINS && Opens(s, MAX_FRAMES, p)
    ensures var f := Scored(MAX_FRAMES, p, rolls[i..], []);
            Run(rolls, i, s) == Success(State(f, s.frames + [f]))
  {
    RestOne(rolls, i);
    if rolls[i] < MAX_PINS {
      FirstRoll(rolls, i, s, MAX_FRAMES, p);
    } else {
      TenthStrikeLast(rolls, i, s, p);
    }
  }

  lemma TenthTwo(rolls: seq<int>, i: nat, p: int, s: State)
    requires i + 2 == |rolls| && 0 <= rolls[i] && 0 <= rolls[i + 1] && rolls[i] < MAX_PINS
    requires rolls[i] + rolls[i + 1] <= MAX_PINS && Opens(s, MAX_FRAMES, p)
    ensures var f := Scored(MAX_FRAMES, p, rolls[i..], []);
            Run(rolls, i, s) == Success(State(f, s.frames + [f]))
  {
    var m := i + 2;
    var x, y := rolls[i], rolls[i + 1];
    if x + y < MAX_PINS {
      RestTwo(rolls, i);
      OpenContinues(rolls, i, m, s, MAX_FRAMES, p, x, y);
    } else {
      var j := i + 1;
      var a := State(Scored(MAX_FRAMES, p, [x], []), s.frames);
      SpareRest(rolls, i, m);
      NoneAfter(rolls, m);
      FirstContinues(rolls, i, j, s, MAX_FRAMES, p, x);
      TenthSpareRoll(rolls, j, a, p, x);
    }
  }

  lemma TenthThree(rolls: seq<int>, i: nat, p: int, s: State)
    requires i + 3 == |rolls| && forall j :: i <= j < |rolls| ==> Pins(rolls[j])
    requires || (rolls[i] < MAX_PINS && rolls[i] + rolls[i + 1] == MAX_PINS)
             || (rolls[i] == MAX_PINS && (rolls[i + 1] == MAX_PINS || rolls[i + 1] == 0))
    requires Opens(s, MAX_FRAMES, p)
    ensures var f := Scored(MAX_FRAMES, p, rolls[i..], []);
            Run(rolls, i, s) == Success(State(f, s.frames + [f]))
  {
    var x, y, z := rolls[i], rolls[i + 1], rolls[i + 2];
    var f := Scored(MAX_FRAMES, p, [x, y, z], []);
    var t := State(f, s.frames + [f]);
    RestThree(rolls, i);
    TenthClosed(p, x, y, z);
    if x < MAX_PINS {
      var j := i + 1;
      var m := i + 2;
      var a := State(Scored(MAX_FRAMES, p, [x], []), s.frames);
      SpareRest(rolls, i, m);
      PinsWithin(rolls, m, Min(m + 1, |rolls|));
      FirstContinues(rolls, i, j, s, MAX_FRAMES, p, x);
      TenthSpareRoll(rolls, j, a, p, x);
      RunStep(rolls, j, a, t);
      RunSkips(rolls, m, t);
    } else {
      var j := i + 1;
      TenthStrikes(rolls, i, s, p);
      RunStep(rolls, i, s, t);
      RunSkips(rolls, j, t);
    }
  }

  /** On a legal game `generate` returns exactly the frames the rules give. */
  lemma GenerateAgrees(rolls: seq<int>)
    requires Legal(rolls, 0, 1)
    ensures Generate(rolls) == Success(Score(rolls, 0, 1, 0, []))
  {
    Agrees(rolls, 0, 1, 0, Start());
    IterateThenRun(rolls, 0, Start());
  }
}
