/** The games of the repository's scoring tests (bowling/bowling/tests.py) played through
    `generate`: the frames each test expects, the inputs it expects refused, and the
    inputs whose outcome the code decides differently from what its tests expect.

    Each game is a chain of lemmas, one per frame.  A legal game is played through the
    reference scorer of module `Reference`, which `GenerateAgrees` shows the loop agrees
    with; a game the code refuses is played through the loop itself (`Run`).  The rolls
    are described element by element (`R[0] == 1 && ...`) and each frame's rolls are named
    by their positions in the input, so that every step stays small. */
module ScoreTestCases {
  import opened Wrappers
  import opened Frames
  import opened Generator
  import opened GeneratorProofs
  import opened ReferenceGames
  import opened GameProperties
  import opened Reference
  import opened Agreement

  /** The first `k` frames show what the test expects of frames 1 to `k`, `es(n)` being the
      expectation for frame `n`. */
  predicate ShowsFirst(fs: seq<Frame>, es: int -> Expected, k: nat) {
    |fs| == k && forall j :: 0 <= j < k ==> Shows(fs[j], es(j + 1))
  }

  lemma ShowsExtend(fs: seq<Frame>, f: Frame, es: int -> Expected, k: nat)
    requires ShowsFirst(fs, es, k) && Shows(f, es(k + 1))
    ensures ShowsFirst(fs + [f], es, k + 1)
  {
    forall j | 0 <= j < k + 1 ensures Shows((fs + [f])[j], es(j + 1)) {
      if j < k {
        assert (fs + [f])[j] == fs[j];
      }
    }
  }

  /** Two tests that expect the same of frames 1 to `k`. */
  lemma ShowsAgree(fs: seq<Frame>, es: int -> Expected, ds: int -> Expected, k: nat)
    requires ShowsFirst(fs, es, k) && forall n :: 1 <= n <= k ==> es(n) == ds(n)
    ensures ShowsFirst(fs, ds, k)
  {
    forall j | 0 <= j < k ensures Shows(fs[j], ds(j + 1)) {
      assert es(j + 1) == ds(j + 1);
    }
  }

  lemma SingleSum(z: int)
    ensures Sum([z]) == z
  {
    assert [z][1..] == [];
  }

  /** An open frame shows its two rolls and their sum on top of the score before it, and
      is completed. */
  lemma OpenShows(k: int, p: int, x: int, y: int, e: Expected)
    requires 1 <= k <= MAX_FRAMES && 0 <= x && 0 <= y && x + y < MAX_PINS
    requires e == Expected(k, [x, y], p + x + y, false, false, true)
    ensures Shows(Scored(k, p, [x, y], []), e)
  {
    PairSum(x, y);
  }

  /** A spare in frames 1-9 scores MAX_PINS plus its bonus roll `z`. */
  lemma SpareShows(k: int, p: int, x: int, y: int, z: int, e: Expected)
    requires 1 <= k < MAX_FRAMES && 0 <= x < MAX_PINS && x + y == MAX_PINS
    requires e == Expected(k, [x, y], p + MAX_PINS + z, false, true, true)
    ensures Shows(Scored(k, p, [x, y], [z]), e)
  {
    PairSum(x, y);
    SingleSum(z);
  }

  /** A strike in frames 1-9 scores MAX_PINS plus its bonus rolls `a` and `b`. */
  lemma StrikeShown(k: int, p: int, a: int, b: int, e: Expected)
    requires 1 <= k < MAX_FRAMES
    requires e == Expected(k, [MAX_PINS], p + MAX_PINS + a + b, true, false, true)
    ensures Shows(Scored(k, p, [MAX_PINS], [a, b]), e)
  {
    PairSum(a, b);
    SingleSum(MAX_PINS);
  }

  /** A spare in the tenth frame with its third roll `z` is completed at MAX_PINS plus `z`. */
  lemma TenthSpareShows(p: int, x: int, y: int, z: int, e: Expected)
    requires 0 <= x < MAX_PINS && x + y == MAX_PINS
    requires e == Expected(MAX_FRAMES, [x, y, z], p + MAX_PINS + z, false, true, true)
    ensures Shows(Scored(MAX_FRAMES, p, [x, y, z], []), e)
  {
    TripleSum(x, y, z);
  }

  /** A spare in the tenth frame still waiting for its third roll scores MAX_PINS and is
      not completed. */
  lemma TenthSpareWaits(p: int, x: int, y: int, e: Expected)
    requires 0 <= x < MAX_PINS && x + y == MAX_PINS
    requires e == Expected(MAX_FRAMES, [x, y], p + MAX_PINS, false, true, false)
    ensures Shows(Scored(MAX_FRAMES, p, [x, y], []), e)
  {
    PairSum(x, y);
  }

  /** The frames of `DELASPORT_ROLLS` in tests.py. */
  function DelasportExpected(n: int): Expected {
    match n
    case 1 => Expected(1, [1, 4], 5, false, false, true)
    case 2 => Expected(2, [4, 5], 14, false, false, true)
    case 3 => Expected(3, [6, 4], 29, false, true, true)
    case 4 => Expected(4, [5, 5], 49, false, true, true)
    case 5 => Expected(5, [10], 60, true, false, true)
    case 6 => Expected(6, [0, 1], 61, false, false, true)
    case 7 => Expected(7, [7, 3], 77, false, true, true)
    case 8 => Expected(8, [6, 4], 97, false, true, true)
    case 9 => Expected(9, [10], 117, true, false, true)
    case _ => Expected(10, [2, 8, 6], 133, false, true, true)
  }

  /** The same game without its last roll: the tenth frame is a spare still waiting. */
  function DelasportShortExpected(n: int): Expected {
    if n == 10 then Expected(10, [2, 8], 127, false, true, false) else DelasportExpected(n)
  }

  /** The first sixteen rolls of the Delasport game, frames 1-8 and the strike of frame 9,
      and at least two rolls after them. */
  predicate DelasportOpening(R: seq<int>) {
    && |R| >= 18
    && R[0] == 1 && R[1] == 4 && R[2] == 4 && R[3] == 5 && R[4] == 6 && R[5] == 4
    && R[6] == 5 && R[7] == 5 && R[8] == 10 && R[9] == 0 && R[10] == 1 && R[11] == 7
    && R[12] == 3 && R[13] == 6 && R[14] == 4 && R[15] == 10
  }

  /** The Delasport game before its tenth frame. */
  predicate DelasportNine(R: seq<int>) {
    DelasportOpening(R) && R[16] == 2 && R[17] == 8
  }

  /** `DelasportUpTo`k: the reference scorer over the Delasport rolls, after frame k: the
      frames so far show what the test expects of them. */
  lemma DelasportUpTo1(R: seq<int>) returns (fs: seq<Frame>)
    requires DelasportOpening(R)
    ensures Score(R, 0, 1, 0, []) == Score(R, 2, 2, 5, fs) && ShowsFirst(fs, DelasportExpected, 1)
  {
    var gs: seq<Frame> := [];
    OpenScore(R, 0, 2, 1, 0, R[0], R[1], 5, gs);
    OpenShows(1, 0, R[0], R[1], DelasportExpected(1));
    fs := gs + [Scored(1, 0, [R[0], R[1]], [])];
    ShowsExtend(gs, Scored(1, 0, [R[0], R[1]], []), DelasportExpected, 0);
  }

  lemma DelasportUpTo2(R: seq<int>) returns (fs: seq<Frame>)
    requires DelasportOpening(R)
    ensures Score(R, 0, 1, 0, []) == Score(R, 4, 3, 14, fs) && ShowsFirst(fs, DelasportExpected, 2)
  {
    var gs := DelasportUpTo1(R);
    OpenScore(R, 2, 4, 2, 5, R[2], R[3], 14, gs);
    OpenShows(2, 5, R[2], R[3], DelasportExpected(2));
    fs := gs + [Scored(2, 5, [R[2], R[3]], [])];
    ShowsExtend(gs, Scored(2, 5, [R[2], R[3]], []), DelasportExpected, 1);
  }

  lemma DelasportUpTo3(R: seq<int>) returns (fs: seq<Frame>)
    requires DelasportOpening(R)
    ensures Score(R, 0, 1, 0, []) == Score(R, 6, 4, 29, fs) && ShowsFirst(fs, DelasportExpected, 3)
  {
    var gs := DelasportUpTo2(R);
    SingleSum(R[6]);
    SpareScore(R, 4, 6, 3, 14, R[4], R[5], [R[6]], 29, gs);
    SpareShows(3, 14, R[4], R[5], R[6], DelasportExpected(3));
    fs := gs + [Scored(3, 14, [R[4], R[5]], [R[6]])];
    ShowsExtend(gs, Scored(3, 14, [R[4], R[5]], [R[6]]), DelasportExpected, 2);
  }

  lemma DelasportUpTo4(R: seq<int>) returns (fs: seq<Frame>)
    requires DelasportOpening(R)
    ensures Score(R, 0, 1, 0, []) == Score(R, 8, 5, 49, fs) && ShowsFirst(fs, DelasportExpected, 4)
  {
    var gs := DelasportUpTo3(R);
    SingleSum(R[8]);
    SpareScore(R, 6, 8, 4, 29, R[6], R[7], [R[8]], 49, gs);
    SpareShows(4, 29, R[6], R[7], R[8], DelasportExpected(4));
    fs := gs + [Scored(4, 29, [R[6], R[7]], [R[8]])];
    ShowsExtend(gs, Scored(4, 29, [R[6], R[7]], [R[8]]), DelasportExpected, 3);
  }

  lemma DelasportUpTo5(R: seq<int>) returns (fs: seq<Frame>)
    requires DelasportOpening(R)
    ensures Score(R, 0, 1, 0, []) == Score(R, 9, 6, 60, fs) && ShowsFirst(fs, DelasportExpected, 5)
  {
    var gs := DelasportUpTo4(R);
    PairSum(R[9], R[10]);
    StrikeScore(R, 8, 9, 5, 49, [R[9], R[10]], 60, gs);
    StrikeShown(5, 49, R[9], R[10], DelasportExpected(5));
    fs := gs + [Scored(5, 49, [MAX_PINS], [R[9], R[10]])];
    ShowsExtend(gs, Scored(5, 49, [MAX_PINS], [R[9], R[10]]), DelasportExpected, 4);
  }

  lemma DelasportUpTo6(R: seq<int>) returns (fs: seq<Frame>)
    requires DelasportOpening(R)
    ensures Score(R, 0, 1, 0, []) == Score(R, 11, 7, 61, fs) && ShowsFirst(fs, DelasportExpected, 6)
  {
    var gs := DelasportUpTo5(R);
    OpenScore(R, 9, 11, 6, 60, R[9], R[10], 61, gs);
    OpenShows(6, 60, R[9], R[10], DelasportExpected(6));
    fs := gs + [Scored(6, 60, [R[9], R[10]], [])];
    ShowsExtend(gs, Scored(6, 60, [R[9], R[10]], []), DelasportExpected, 5);
  }

  lemma DelasportUpTo7(R: seq<int>) returns (fs: seq<Frame>)
    requires DelasportOpening(R)
    ensures Score(R, 0, 1, 0, []) == Score(R, 13, 8, 77, fs) && ShowsFirst(fs, DelasportExpected, 7)
  {
    var gs := DelasportUpTo6(R);
    SingleSum(R[13]);
    SpareScore(R, 11, 13, 7, 61, R[11], R[12], [R[13]], 77, gs);
    SpareShows(7, 61, R[11], R[12], R[13], DelasportExpected(7));
    fs := gs + [Scored(7, 61, [R[11], R[12]], [R[13]])];
    ShowsExtend(gs, Scored(7, 61, [R[11], R[12]], [R[13]]), DelasportExpected, 6);
  }

  lemma DelasportUpTo8(R: seq<int>) returns (fs: seq<Frame>)
    requires DelasportOpening(R)
    ensures Score(R, 0, 1, 0, []) == Score(R, 15, 9, 97, fs) && ShowsFirst(fs, DelasportExpected, 8)
  {
    var gs := DelasportUpTo7(R);
    SingleSum(R[15]);
    SpareScore(R, 13, 15, 8, 77, R[13], R[14], [R[15]], 97, gs);
    SpareShows(8, 77, R[13], R[14], R[15], DelasportExpected(8));
    fs := gs + [Scored(8, 77, [R[13], R[14]], [R[15]])];
    ShowsExtend(gs, Scored(8, 77, [R[13], R[14]], [R[15]]), DelasportExpected, 7);
  }

  lemma DelasportUpTo9(R: seq<int>) returns (fs: seq<Frame>)
    requires DelasportNine(R)
    ensures Score(R, 0, 1, 0, []) == Score(R, 16, 10, 117, fs) && ShowsFirst(fs, DelasportExpected, 9)
  {
    var gs := DelasportUpTo8(R);
    PairSum(R[16], R[17]);
    StrikeScore(R, 15, 16, 9, 97, [R[16], R[17]], 117, gs);
    StrikeShown(9, 97, R[16], R[17], DelasportExpected(9));
    fs := gs + [Scored(9, 97, [MAX_PINS], [R[16], R[17]])];
    ShowsExtend(gs, Scored(9, 97, [MAX_PINS], [R[16], R[17]]), DelasportExpected, 8);
  }

  /** The Delasport rolls are a legal game once its tenth frame is. */
  lemma DelasportLegal(R: seq<int>)
    requires DelasportNine(R) && Legal(R, 16, 10)
    ensures Legal(R, 0, 1)
  {
    assert Legal(R, 15, 9);
    assert Legal(R, 13, 8);
    assert Legal(R, 11, 7);
    assert Legal(R, 9, 6);
    assert Legal(R, 8, 5);
    assert Legal(R, 6, 4);
    assert Legal(R, 4, 3);
    assert Legal(R, 2, 2);
  }

  lemma DelasportGame(R: seq<int>)
    requires DelasportNine(R) && |R| == 19 && R[18] == 6
    ensures Generate(R).Success? && ShowsFirst(Generate(R).value, DelasportExpected, 10)
  {
    RestThree(R, 16);
    assert Legal(R, 16, 10);
    DelasportLegal(R);
    GenerateAgrees(R);
    var fs := DelasportUpTo9(R);
    TenthScore(R, 16, 117, fs);
    TenthSpareShows(117, R[16], R[17], R[18], DelasportExpected(10));
    ShowsExtend(fs, Scored(MAX_FRAMES, 117, [R[16], R[17], R[18]], []), DelasportExpected, 9);
  }

  /** `test_delasport`: the ten frames of the Delasport game, ending on 133. */
  lemma Delasport(R: seq<int>)
    requires R == [1, 4, 4, 5, 6, 4, 5, 5, 10, 0, 1, 7, 3, 6, 4, 10, 2, 8, 6]
    ensures Generate(R).Success? && ShowsFirst(Generate(R).value, DelasportExpected, 10)
  {
    DelasportGame(R);
  }

  lemma DelasportShortGame(R: seq<int>)
    requires DelasportNine(R) && |R| == 18
    ensures Generate(R).Success? && ShowsFirst(Generate(R).value, DelasportShortExpected, 10)
  {
    RestTwo(R, 16);
    assert Legal(R, 16, 10);
    DelasportLegal(R);
    GenerateAgrees(R);
    var fs := DelasportUpTo9(R);
    TenthScore(R, 16, 117, fs);
    ShowsAgree(fs, DelasportExpected, DelasportShortExpected, 9);
    TenthSpareWaits(117, R[16], R[17], DelasportShortExpected(10));
    ShowsExtend(fs, Scored(MAX_FRAMES, 117, [R[16], R[17]], []), DelasportShortExpected, 9);
  }

  /** `test_delasport_without_last_roll`: without the roll after the tenth frame's spare,
      that frame is emitted at 127 and not completed. */
  lemma DelasportWithoutLastRoll(R: seq<int>)
    requires R == [1, 4, 4, 5, 6, 4, 5, 5, 10, 0, 1, 7, 3, 6, 4, 10, 2, 8]
    ensures Generate(R).Success? && ShowsFirst(Generate(R).value, DelasportShortExpected, 10)
  {
    DelasportShortGame(R);
  }

  /** `DelasportStep`k: frame k of the loop over any input opening like the Delasport game. */
  lemma DelasportStep1(R: seq<int>) returns (fs: seq<Frame>)
    requires DelasportOpening(R)
    ensures Run(R, 0, Start()) == Run(R, 2, State(Scored(1, 0, [R[0], R[1]], []), fs))
  {
    OpenContinues(R, 0, 2, Start(), 1, 0, R[0], R[1]);
    fs := [] + [Scored(1, 0, [R[0], R[1]], [])];
  }

  lemma DelasportStep2(R: seq<int>, gs: seq<Frame>)
    requires DelasportOpening(R)
    ensures var f := Scored(2, 5, [R[2], R[3]], []);
            Run(R, 2, State(Scored(1, 0, [R[0], R[1]], []), gs)) == Run(R, 4, State(f, gs + [f]))
  {
    OpenOpens(gs, 1, 0, R[0], R[1], 5);
    OpenContinues(R, 2, 4, State(Scored(1, 0, [R[0], R[1]], []), gs), 2, 5, R[2], R[3]);
  }

  lemma DelasportStep3(R: seq<int>, gs: seq<Frame>)
    requires DelasportOpening(R)
    ensures var f := Scored(3, 14, [R[4], R[5]], [R[6]]);
            Run(R, 4, State(Scored(2, 5, [R[2], R[3]], []), gs)) == Run(R, 6, State(f, gs + [f]))
  {
    OpenOpens(gs, 2, 5, R[2], R[3], 14);
    OneAhead(R, 5);
    SpareContinues(R, 4, 6, State(Scored(2, 5, [R[2], R[3]], []), gs), 3, 14, R[4], R[5], [R[6]]);
  }

  lemma DelasportStep4(R: seq<int>, gs: seq<Frame>)
    requires DelasportOpening(R)
    ensures var f := Scored(4, 29, [R[6], R[7]], [R[8]]);
            Run(R, 6, State(Scored(3, 14, [R[4], R[5]], [R[6]]), gs)) == Run(R, 8, State(f, gs + [f]))
  {
    SingleSum(R[6]);
    SpareOpens(gs, 3, 14, R[4], R[5], [R[6]], 29);
    OneAhead(R, 7);
    SpareContinues(R, 6, 8, State(Scored(3, 14, [R[4], R[5]], [R[6]]), gs), 4, 29, R[6], R[7], [R[8]]);
  }

  lemma DelasportStep5(R: seq<int>, gs: seq<Frame>)
    requires DelasportOpening(R)
    ensures var f := Scored(5, 49, [MAX_PINS], [R[9], R[10]]);
            Run(R, 8, State(Scored(4, 29, [R[6], R[7]], [R[8]]), gs)) == Run(R, 9, State(f, gs + [f]))
  {
    SingleSum(R[8]);
    SpareOpens(gs, 4, 29, R[6], R[7], [R[8]], 49);
    TwoAhead(R, 8);
    StrikeContinues(R, 8, 9, State(Scored(4, 29, [R[6], R[7]], [R[8]]), gs), 5, 49, [R[9], R[10]]);
  }

  lemma DelasportStep6(R: seq<int>, gs: seq<Frame>)
    requires DelasportOpening(R)
    ensures var f := Scored(6, 60, [R[9], R[10]], []);
            Run(R, 9, State(Scored(5, 49, [MAX_PINS], [R[9], R[10]]), gs)) == Run(R, 11, State(f, gs + [f]))
  {
    PairSum(R[9], R[10]);
    StrikeOpens(gs, 5, 49, [R[9], R[10]], 60);
    OpenContinues(R, 9, 11, State(Scored(5, 49, [MAX_PINS], [R[9], R[10]]), gs), 6, 60, R[9], R[10]);
  }

  lemma DelasportStep7(R: seq<int>, gs: seq<Frame>)
    requires DelasportOpening(R)
    ensures var f := Scored(7, 61, [R[11], R[12]], [R[13]]);
            Run(R, 11, State(Scored(6, 60, [R[9], R[10]], []), gs)) == Run(R, 13, State(f, gs + [f]))
  {
    OpenOpens(gs, 6, 60, R[9], R[10], 61);
    OneAhead(R, 12);
    SpareContinues(R, 11, 13, State(Scored(6, 60, [R[9], R[10]], []), gs), 7, 61, R[11], R[12], [R[13]]);
  }

  lemma DelasportStep8(R: seq<int>, gs: seq<Frame>)
    requires DelasportOpening(R)
    ensures var f := Scored(8, 77, [R[13], R[14]], [R[15]]);
            Run(R, 13, State(Scored(7, 61, [R[11], R[12]], [R[13]]), gs)) == Run(R, 15, State(f, gs + [f]))
  {
    SingleSum(R[13]);
    SpareOpens(gs, 7, 61, R[11], R[12], [R[13]], 77);
    OneAhead(R, 14);
    SpareContinues(R, 13, 15, State(Scored(7, 61, [R[11], R[12]], [R[13]]), gs), 8, 77, R[13], R[14], [R[15]]);
  }

  lemma DelasportStep9(R: seq<int>, gs: seq<Frame>)
    requires DelasportOpening(R) && 0 <= R[16] <= MAX_PINS && 0 <= R[17] <= MAX_PINS
    ensures var f := Scored(9, 97, [MAX_PINS], [R[16], R[17]]);
            Run(R, 15, State(Scored(8, 77, [R[13], R[14]], [R[15]]), gs)) == Run(R, 16, State(f, gs + [f]))
  {
    SingleSum(R[15]);
    SpareOpens(gs, 8, 77, R[13], R[14], [R[15]], 97);
    TwoAhead(R, 15);
    StrikeContinues(R, 15, 16, State(Scored(8, 77, [R[13], R[14]], [R[15]]), gs), 9, 97, [R[16], R[17]]);
  }

  /** The loop over any input opening like the Delasport game reaches the tenth frame with
      the strike of frame 9 pending. */
  lemma DelasportRun9(R: seq<int>) returns (fs: seq<Frame>)
    requires DelasportOpening(R) && 0 <= R[16] <= MAX_PINS && 0 <= R[17] <= MAX_PINS
    ensures Run(R, 0, Start()) == Run(R, 16, State(Scored(9, 97, [MAX_PINS], [R[16], R[17]]), fs))
  {
    fs := DelasportStep1(R);
    DelasportStep2(R, fs);
    fs := fs + [Scored(2, 5, [R[2], R[3]], [])];
    DelasportStep3(R, fs);
    fs := fs + [Scored(3, 14, [R[4], R[5]], [R[6]])];
    DelasportStep4(R, fs);
    fs := fs + [Scored(4, 29, [R[6], R[7]], [R[8]])];
    DelasportStep5(R, fs);
    fs := fs + [Scored(5, 49, [MAX_PINS], [R[9], R[10]])];
    DelasportStep6(R, fs);
    fs := fs + [Scored(6, 60, [R[9], R[10]], [])];
    DelasportStep7(R, fs);
    fs := fs + [Scored(7, 61, [R[11], R[12]], [R[13]])];
    DelasportStep8(R, fs);
    fs := fs + [Scored(8, 77, [R[13], R[14]], [R[15]])];
    DelasportStep9(R, fs);
    fs := fs + [Scored(9, 97, [MAX_PINS], [R[16], R[17]])];
  }

  lemma LastFrameOverflowGame(R: seq<int>)
    requires DelasportOpening(R) && |R| == 18 && R[16] == 9 && R[17] == 9
    ensures Generate(R) == Failure(FrameOverflow)
  {
    var fs := DelasportRun9(R);
    var s := State(Scored(MAX_FRAMES, 125, [R[16]], []), fs);
    PairSum(R[16], R[17]);
    StrikeOpens(fs, 9, 97, [R[16], R[17]], 125);
    FirstContinues(R, 16, 17, State(Scored(9, 97, [MAX_PINS], [R[16], R[17]]), fs), MAX_FRAMES, 125, R[16]);
    OverflowRoll(R, 17, s, MAX_FRAMES, 125, R[16]);
    IterateThenRun(R, 0, Start());
  }

  /** `test_more_then_max_pins_in_a_last_frame`: after the first nine Delasport frames, 9
      and 9 in the tenth frame are refused. */
  lemma LastFrameOverflow(R: seq<int>)
    requires R == [1, 4, 4, 5, 6, 4, 5, 5, 10, 0, 1, 7, 3, 6, 4, 10, 9, 9]
    ensures Generate(R) == Failure(FrameOverflow)
  {
    LastFrameOverflowGame(R);
  }

  /** The frames of `test_all_spare`. */
  function AllSparesExpected(n: int): Expected {
    match n
    case 1 => Expected(1, [1, 9], 12, false, true, true)
    case 2 => Expected(2, [2, 8], 25, false, true, true)
    case 3 => Expected(3, [3, 7], 39, false, true, true)
    case 4 => Expected(4, [4, 6], 54, false, true, true)
    case 5 => Expected(5, [5, 5], 70, false, true, true)
    case 6 => Expected(6, [6, 4], 87, false, true, true)
    case 7 => Expected(7, [7, 3], 105, false, true, true)
    case 8 => Expected(8, [8, 2], 124, false, true, true)
    case 9 => Expected(9, [9, 1], 135, false, true, true)
    case _ => Expected(10, [1, 9, 1], 146, false, true, true)
  }

  predicate AllSparesRolls(R: seq<int>) {
    && |R| == 21
    && R[0] == 1 && R[1] == 9 && R[2] == 2 && R[3] == 8 && R[4] == 3 && R[5] == 7
    && R[6] == 4 && R[7] == 6 && R[8] == 5 && R[9] == 5 && R[10] == 6 && R[11] == 4
    && R[12] == 7 && R[13] == 3 && R[14] == 8 && R[15] == 2 && R[16] == 9 && R[17] == 1
    && R[18] == 1 && R[19] == 9 && R[20] == 1
  }

  /** `AllSparesUpTo`k: the reference scorer over the rolls of `test_all_spare`, after frame k. */
  lemma AllSparesUpTo1(R: seq<int>) returns (fs: seq<Frame>)
    requires AllSparesRolls(R)
    ensures Score(R, 0, 1, 0, []) == Score(R, 2, 2, 12, fs) && ShowsFirst(fs, AllSparesExpected, 1)
  {
    var gs: seq<Frame> := [];
    SingleSum(R[2]);
    SpareScore(R, 0, 2, 1, 0, R[0], R[1], [R[2]], 12, gs);
    SpareShows(1, 0, R[0], R[1], R[2], AllSparesExpected(1));
    fs := gs + [Scored(1, 0, [R[0], R[1]], [R[2]])];
    ShowsExtend(gs, Scored(1, 0, [R[0], R[1]], [R[2]]), AllSparesExpected, 0);
  }

  lemma AllSparesUpTo2(R: seq<int>) returns (fs: seq<Frame>)
    requires AllSparesRolls(R)
    ensures Score(R, 0, 1, 0, []) == Score(R, 4, 3, 25, fs) && ShowsFirst(fs, AllSparesExpected, 2)
  {
    var gs := AllSparesUpTo1(R);
    SingleSum(R[4]);
    SpareScore(R, 2, 4, 2, 12, R[2], R[3], [R[4]], 25, gs);
    SpareShows(2, 12, R[2], R[3], R[4], AllSparesExpected(2));
    fs := gs + [Scored(2, 12, [R[2], R[3]], [R[4]])];
    ShowsExtend(gs, Scored(2, 12, [R[2], R[3]], [R[4]]), AllSparesExpected, 1);
  }

  lemma AllSparesUpTo3(R: seq<int>) returns (fs: seq<Frame>)
    requires AllSparesRolls(R)
    ensures Score(R, 0, 1, 0, []) == Score(R, 6, 4, 39, fs) && ShowsFirst(fs, AllSparesExpected, 3)
  {
    var gs := AllSparesUpTo2(R);
    SingleSum(R[6]);
    SpareScore(R, 4, 6, 3, 25, R[4], R[5], [R[6]], 39, gs);
    SpareShows(3, 25, R[4], R[5], R[6], AllSparesExpected(3));
    fs := gs + [Scored(3, 25, [R[4], R[5]], [R[6]])];
    ShowsExtend(gs, Scored(3, 25, [R[4], R[5]], [R[6]]), AllSparesExpected, 2);
  }

  lemma AllSparesUpTo4(R: seq<int>) returns (fs: seq<Frame>)
    requires AllSparesRolls(R)
    ensures Score(R, 0, 1, 0, []) == Score(R, 8, 5, 54, fs) && ShowsFirst(fs, AllSparesExpected, 4)
  {
    var gs := AllSparesUpTo3(R);
    SingleSum(R[8]);
    SpareScore(R, 6, 8, 4, 39, R[6], R[7], [R[8]], 54, gs);
    SpareShows(4, 39, R[6], R[7], R[8], AllSparesExpected(4));
    fs := gs + [Scored(4, 39, [R[6], R[7]], [R[8]])];
    ShowsExtend(gs, Scored(4, 39, [R[6], R[7]], [R[8]]), AllSparesExpected, 3);
  }

  lemma AllSparesUpTo5(R: seq<int>) returns (fs: seq<Frame>)
    requires AllSparesRolls(R)
    ensures Score(R, 0, 1, 0, []) == Score(R, 10, 6, 70, fs) && ShowsFirst(fs, AllSparesExpected, 5)
  {
    var gs := AllSparesUpTo4(R);
    SingleSum(R[10]);
    SpareScore(R, 8, 10, 5, 54, R[8], R[9], [R[10]], 70, gs);
    SpareShows(5, 54, R[8], R[9], R[10], AllSparesExpected(5));
    fs := gs + [Scored(5, 54, [R[8], R[9]], [R[10]])];
    ShowsExtend(gs, Scored(5, 54, [R[8], R[9]], [R[10]]), AllSparesExpected, 4);
  }

  lemma AllSparesUpTo6(R: seq<int>) returns (fs: seq<Frame>)
    requires AllSparesRolls(R)
    ensures Score(R, 0, 1, 0, []) == Score(R, 12, 7, 87, fs) && ShowsFirst(fs, AllSparesExpected, 6)
  {
    var gs := AllSparesUpTo5(R);
    SingleSum(R[12]);
    SpareScore(R, 10, 12, 6, 70, R[10], R[11], [R[12]], 87, gs);
    SpareShows(6, 70, R[10], R[11], R[12], AllSparesExpected(6));
    fs := gs + [Scored(6, 70, [R[10], R[11]], [R[12]])];
    ShowsExtend(gs, Scored(6, 70, [R[10], R[11]], [R[12]]), AllSparesExpected, 5);
  }

  lemma AllSparesUpTo7(R: seq<int>) returns (fs: seq<Frame>)
    requires AllSparesRolls(R)
    ensures Score(R, 0, 1, 0, []) == Score(R, 14, 8, 105, fs) && ShowsFirst(fs, AllSparesExpected, 7)
  {
    var gs := AllSparesUpTo6(R);
    SingleSum(R[14]);
    SpareScore(R, 12, 14, 7, 87, R[12], R[13], [R[14]], 105, gs);
    SpareShows(7, 87, R[12], R[13], R[14], AllSparesExpected(7));
    fs := gs + [Scored(7, 87, [R[12], R[13]], [R[14]])];
    ShowsExtend(gs, Scored(7, 87, [R[12], R[13]], [R[14]]), AllSparesExpected, 6);
  }

  lemma AllSparesUpTo8(R: seq<int>) returns (fs: seq<Frame>)
    requires AllSparesRolls(R)
    ensures Score(R, 0, 1, 0, []) == Score(R, 16, 9, 124, fs) && ShowsFirst(fs, AllSparesExpected, 8)
  {
    var gs := AllSparesUpTo7(R);
    SingleSum(R[16]);
    SpareScore(R, 14, 16, 8, 105, R[14], R[15], [R[16]], 124, gs);
    SpareShows(8, 105, R[14], R[15], R[16], AllSparesExpected(8));
    fs := gs + [Scored(8, 105, [R[14], R[15]], [R[16]])];
    ShowsExtend(gs, Scored(8, 105, [R[14], R[15]], [R[16]]), AllSparesExpected, 7);
  }

  lemma AllSparesUpTo9(R: seq<int>) returns (fs: seq<Frame>)
    requires AllSparesRolls(R)
    ensures Score(R, 0, 1, 0, []) == Score(R, 18, 10, 135, fs) && ShowsFirst(fs, AllSparesExpected, 9)
  {
    var gs := AllSparesUpTo8(R);
    SingleSum(R[18]);
    SpareScore(R, 16, 18, 9, 124, R[16], R[17], [R[18]], 135, gs);
    SpareShows(9, 124, R[16], R[17], R[18], AllSparesExpected(9));
    fs := gs + [Scored(9, 124, [R[16], R[17]], [R[18]])];
    ShowsExtend(gs, Scored(9, 124, [R[16], R[17]], [R[18]]), AllSparesExpected, 8);
  }

  lemma AllSparesLegal(R: seq<int>)
    requires AllSparesRolls(R) && Legal(R, 18, 10)
    ensures Legal(R, 0, 1)
  {
    assert Legal(R, 16, 9);
    assert Legal(R, 14, 8);
    assert Legal(R, 12, 7);
    assert Legal(R, 10, 6);
    assert Legal(R, 8, 5);
    assert Legal(R, 6, 4);
    assert Legal(R, 4, 3);
    assert Legal(R, 2, 2);
  }

  lemma AllSparesGame(R: seq<int>)
    requires AllSparesRolls(R)
    ensures Generate(R).Success? && ShowsFirst(Generate(R).value, AllSparesExpected, 10)
  {
    RestThree(R, 18);
    assert Legal(R, 18, 10);
    AllSparesLegal(R);
    GenerateAgrees(R);
    var fs := AllSparesUpTo9(R);
    TenthScore(R, 18, 135, fs);
    TenthSpareShows(135, R[18], R[19], R[20], AllSparesExpected(10));
    ShowsExtend(fs, Scored(MAX_FRAMES, 135, [R[18], R[19], R[20]], []), AllSparesExpected, 9);
  }

  /** `test_all_spare`: nine spares and a tenth-frame spare with a third roll, ending on 146. */
  lemma AllSpares(R: seq<int>)
    requires R == [1, 9, 2, 8, 3, 7, 4, 6, 5, 5, 6, 4, 7, 3, 8, 2, 9, 1, 1, 9, 1]
    ensures Generate(R).Success? && ShowsFirst(Generate(R).value, AllSparesExpected, 10)
  {
    assert AllSparesRolls(R);
    AllSparesGame(R);
  }

  /** `test_more_then_max_pins_in_a_roll`: a roll of more than MAX_PINS is refused. */
  lemma RollOverMaxPins(R: seq<int>)
    requires R == [MAX_PINS + 1]
    ensures Generate(R) == Failure(InvalidPins)
  {
    InvalidRoll(R, 0, Start(), 1, 0);
    IterateUnfolds(R, 0);
  }

  /** `test_more_then_max_pins_in_a_frame`: 9 then 2 in one frame is refused. */
  lemma FrameOverMaxPins(R: seq<int>)
    requires R == [MAX_PINS - 1, 2]
    ensures Generate(R) == Failure(FrameOverflow)
  {
    FirstPass(R, 0, 1, Start(), 1, 0);
    OverflowRoll(R, 1, State(Scored(1, 0, [MAX_PINS - 1], []), []), 1, 0, MAX_PINS - 1);
    IterateUnfolds(R, 1);
  }

  /** Frame `j` of a game of one pin then none in every frame. */
  function OneZeroFrame(j: int): Frame {
    Scored(j, j - 1, [1, 0], [])
  }

  /** The first `k` frames of that game. */
  function OneZeroFrames(k: nat): (fs: seq<Frame>)
    ensures |fs| == k
  {
    if k == 0 then [] else OneZeroFrames(k - 1) + [OneZeroFrame(k)]
  }

  /** The first `n` frames of the input are each 1 then 0. */
  predicate OnesAndZeros(rolls: seq<int>, n: nat)
    requires 2 * n <= |rolls|
  {
    n == 0 || (OnesAndZeros(rolls, n - 1) && rolls[2 * (n - 1)] == 1 && rolls[2 * (n - 1) + 1] == 0)
  }

  /** Any input opening with `k` frames of 1 and 0: after `2 * k` rolls those frames are
      emitted and frame `k` is the current one. */
  lemma {:induction false} OneZeroRun(rolls: seq<int>, k: nat)
    requires 1 <= k <= MAX_FRAMES && 2 * k <= |rolls| && OnesAndZeros(rolls, k)
    ensures Iterate(rolls, 2 * k) == Success(State(OneZeroFrame(k), OneZeroFrames(k)))
  {
    if k == 1 {
      OneZeroPass(rolls, 0, 2, Start(), 1, 0);
    } else {
      OneZeroRun(rolls, k - 1);
      OneZeroStep(rolls, k, Iterate(rolls, 2 * (k - 1)).value);
    }
  }

  /** Frame `k` of 1 and 0 after the first `k - 1`, reached in state `s`. */
  lemma OneZeroStep(rolls: seq<int>, k: nat, s: State)
    requires 2 <= k <= MAX_FRAMES && 2 * k <= |rolls| && rolls[2 * (k - 1)] == 1 && rolls[2 * (k - 1) + 1] == 0
    requires Iterate(rolls, 2 * (k - 1)) == Success(s) && s == State(OneZeroFrame(k - 1), OneZeroFrames(k - 1))
    ensures Iterate(rolls, 2 * k) == Success(State(OneZeroFrame(k), OneZeroFrames(k)))
  {
    var i := 2 * (k - 1);
    OneZeroPass(rolls, i, 2 * k, s, k, k - 1);
  }

  lemma OneZeroPass(rolls: seq<int>, i: nat, m: nat, s: State, k: int, p: int)
    requires 1 <= k <= MAX_FRAMES && i == 2 * (k - 1) && m == i + 2 <= |rolls| && p == k - 1
    requires rolls[i] == 1 && rolls[i + 1] == 0 && Iterate(rolls, i) == Success(s)
    requires s == if k == 1 then Start() else State(OneZeroFrame(k - 1), OneZeroFrames(k - 1))
    ensures Iterate(rolls, m) == Success(State(OneZeroFrame(k), OneZeroFrames(k)))
  {
    if k == 1 {
      OpenFrame(rolls, 0, 2, Start(), 1, 0);
    } else {
      var j := k - 1;
      var o := j - 1;
      OpenOpens(OneZeroFrames(j), j, o, 1, 0, p);
      OpenFrame(rolls, i, m, State(OneZeroFrame(j), OneZeroFrames(j)), k, p);
    }
  }

  /** Ten open frames of 1 and 0 end the game: any further roll is refused. */
  lemma OneZeroGame(rolls: seq<int>)
    requires 2 * MAX_FRAMES < |rolls| && OnesAndZeros(rolls, MAX_FRAMES)
    ensures Generate(rolls) == Failure(FramesExceeded)
  {
    OneZeroRun(rolls, MAX_FRAMES);
    GenerateAfterTenth(rolls, 2 * MAX_FRAMES);
  }

  /** `test_more_than_max_frames`: a 21st roll after ten open frames is refused. */
  lemma MoreThanMaxFrames(R: seq<int>)
    requires R == [1, 0, 1, 0, 1, 0, 1, 0, 1, 0, 1, 0, 1, 0, 1, 0, 1, 0, 1, 0, 1]
    ensures Generate(R) == Failure(FramesExceeded)
  {
    assert OnesAndZeros(R, 1);
    assert OnesAndZeros(R, 2);
    assert OnesAndZeros(R, 3);
    assert OnesAndZeros(R, 4);
    assert OnesAndZeros(R, 5);
    assert OnesAndZeros(R, 6);
    assert OnesAndZeros(R, 7);
    assert OnesAndZeros(R, 8);
    assert OnesAndZeros(R, 9);
    assert OnesAndZeros(R, 10);
    OneZeroGame(R);
  }

  /** Frame `j` of a game of fives: a spare whose bonus is the next five. */
  function FiveFrame(j: int): Frame {
    Scored(j, 15 * (j - 1), [5, 5], [5])
  }

  /** The first `k` frames of a game of fives. */
  function Fives(k: nat): (fs: seq<Frame>)
    ensures |fs| == k
  {
    if k == 0 then [] else Fives(k - 1) + [FiveFrame(k)]
  }

  /** The first `m` rolls are all fives. */
  predicate AllFives(rolls: seq<int>, m: nat)
    requires m <= |rolls|
  {
    forall j :: 0 <= j < m ==> rolls[j] == 5
  }

  /** Any input opening with `2 * k + 1` fives, `k` at most 9: after `2 * k` rolls the first
      `k` frames are emitted, each a spare scoring 15 more than the one before. */
  lemma {:induction false} FiveRun(rolls: seq<int>, k: nat)
    requires 1 <= k < MAX_FRAMES && 2 * k < |rolls| && AllFives(rolls, 2 * k + 1)
    ensures Iterate(rolls, 2 * k) == Success(State(FiveFrame(k), Fives(k)))
  {
    var i := 2 * (k - 1);
    if k == 1 {
      FivePass(rolls, 0, 2, Start(), 1, 0);
    } else {
      FiveRun(rolls, k - 1);
      FivePass(rolls, i, 2 * k, State(FiveFrame(k - 1), Fives(k - 1)), k, 15 * (k - 1));
    }
  }

  lemma FivePass(rolls: seq<int>, i: nat, m: nat, s: State, k: int, p: int)
    requires 1 <= k < MAX_FRAMES && i == 2 * (k - 1) && m == i + 2 < |rolls| && p == 15 * (k - 1)
    requires rolls[i] == 5 && rolls[i + 1] == 5 && rolls[i + 2] == 5 && Iterate(rolls, i) == Success(s)
    requires s == if k == 1 then Start() else State(FiveFrame(k - 1), Fives(k - 1))
    ensures Iterate(rolls, m) == Success(State(FiveFrame(k), Fives(k)))
  {
    if k == 1 {
      SpareFrame(rolls, 0, 2, Start(), 1, 0);
    } else {
      var j := k - 1;
      var o := 15 * (j - 1);
      SingleSum(5);
      SpareOpens(Fives(j), j, o, 5, 5, [5], p);
      SpareFrame(rolls, i, m, State(FiveFrame(j), Fives(j)), k, p);
    }
  }

  /** The frames of `test_spare_strike_max_frames` as the code produces them. */
  function FivesExpected(n: int): Expected {
    if n < MAX_FRAMES then Expected(n, [5, 5], 15 * n, false, true, true)
    else Expected(MAX_FRAMES, [5, 5, MAX_PINS], 155, false, true, true)
  }

  lemma {:induction false} FivesShow(k: nat)
    requires k < MAX_FRAMES
    ensures ShowsFirst(Fives(k), FivesExpected, k)
  {
    if k > 0 {
      FivesShow(k - 1);
      SpareShows(k, 15 * (k - 1), 5, 5, 5, FivesExpected(k));
      ShowsExtend(Fives(k - 1), FiveFrame(k), FivesExpected, k - 1);
    }
  }

  /** Twenty fives and a strike reach the end of the tenth frame, a spare with the strike as
      its third roll; `k` is the ninth frame. */
  lemma FivesTenth(rolls: seq<int>, k: nat)
    requires k + 1 == MAX_FRAMES && 2 * MAX_FRAMES < |rolls| && AllFives(rolls, 2 * MAX_FRAMES)
    requires rolls[2 * MAX_FRAMES] == MAX_PINS
    ensures var f := Scored(MAX_FRAMES, 15 * k, [5, 5, MAX_PINS], []);
            Iterate(rolls, 2 * MAX_FRAMES) == Success(State(f, Fives(k) + [f]))
  {
    var i := 2 * k;
    FiveRun(rolls, k);
    SingleSum(5);
    SpareOpens(Fives(k - 1), k, 15 * (k - 1), 5, 5, [5], 15 * k);
    OneAhead(rolls, i + 1);
    TenthSpareFrame(rolls, i, i + 2, State(FiveFrame(k), Fives(k)), 15 * k);
    assert [rolls[i], rolls[i + 1]] + rolls[i + 2..Min(i + 3, |rolls|)] == [5, 5, MAX_PINS];
  }

  /** Twenty fives and a strike: nine spares and a tenth frame of 5, 5 and the strike, ending
      on 155; whatever follows is skipped. */
  lemma FivesGame(rolls: seq<int>)
    requires 2 * MAX_FRAMES < |rolls| && AllFives(rolls, 2 * MAX_FRAMES) && rolls[2 * MAX_FRAMES] == MAX_PINS
    ensures Generate(rolls).Success? && ShowsFirst(Generate(rolls).value, FivesExpected, MAX_FRAMES)
  {
    var f := Scored(MAX_FRAMES, 135, [5, 5, MAX_PINS], []);
    FivesTenth(rolls, 9);
    TenthClosed(135, 5, 5, MAX_PINS);
    GenerateAfterTenth(rolls, 20);
    FivesShow(9);
    TenthSpareShows(135, 5, 5, MAX_PINS, FivesExpected(MAX_FRAMES));
    ShowsExtend(Fives(9), f, FivesExpected, 9);
  }

  /** `test_spare_strike_max_frames`: the test expects twenty fives, a strike and a 1 to be
      refused; the code accepts them, the 1 after the tenth frame's spare and strike being
      skipped. */
  lemma SpareStrikeMaxFrames(R: seq<int>)
    requires R == [5, 5, 5, 5, 5, 5, 5, 5, 5, 5, 5, 5, 5, 5, 5, 5, 5, 5, 5, 5, 10, 1]
    ensures Generate(R).Success? && ShowsFirst(Generate(R).value, FivesExpected, MAX_FRAMES)
  {
    FivesGame(R);
  }
}
