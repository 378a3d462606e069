/** Ten-pin scoring written directly from the rules, frame by frame: a strike in frames 1-9
    is one roll with the next two as bonus, a spare two rolls with the next one as bonus, an
    open frame two rolls, and the tenth frame takes the rest of the input as its own rolls.
    `Score` works out the frame boundaries, the bonus rolls and the running totals itself;
    each frame's strike, spare and completed flags come from `Frames.Recalculate`. */
module Reference {
  import opened Wrappers
  import opened Frames
  import opened GeneratorProofs

  /** The frames `done` followed by the frames from frame `k` on, for the rolls from index
      `i` on, the frame before having ended on score `p`. */
  function Score(rolls: seq<int>, i: nat, k: int, p: int, done: seq<Frame>): seq<Frame>
    requires i <= |rolls|
    decreases |rolls| - i
  {
    if i == |rolls| then done
    else if k >= MAX_FRAMES then done + [Scored(k, p, rolls[i..], [])]
    else if rolls[i] == MAX_PINS then
      var bonus := rolls[i + 1..Min(i + 3, |rolls|)];
      Score(rolls, i + 1, k + 1, p + MAX_PINS + Sum(bonus), done + [Scored(k, p, [MAX_PINS], bonus)])
    else if i + 1 == |rolls| then done + [Scored(k, p, [rolls[i]], [])]
    else if rolls[i] + rolls[i + 1] == MAX_PINS then
      var bonus := rolls[i + 2..Min(i + 3, |rolls|)];
      Score(rolls, i + 2, k + 1, p + MAX_PINS + Sum(bonus), done + [Scored(k, p, [rolls[i], rolls[i + 1]], bonus)])
    else
      Score(rolls, i + 2, k + 1, p + rolls[i] + rolls[i + 1], done + [Scored(k, p, [rolls[i], rolls[i + 1]], [])])
  }

  predicate Pins(x: int) {
    0 <= x <= MAX_PINS
  }

  /** The rolls of a tenth frame the code scores like the rules: one roll; two rolls that
      leave pins standing or make a spare; a spare and one more roll; or a strike followed by
      a strike or a gutter ball and one more roll. */
  predicate LegalTenth(t: seq<int>) {
    && (forall j :: 0 <= j < |t| ==> Pins(t[j]))
    && 1 <= |t| <= 3
    && (|t| == 2 ==> t[0] < MAX_PINS && t[0] + t[1] <= MAX_PINS)
    && (|t| == 3 ==> (t[0] < MAX_PINS && t[0] + t[1] == MAX_PINS)
                     || (t[0] == MAX_PINS && (t[1] == MAX_PINS || t[1] == 0)))
  }

  /** The rolls from index `i` on are a game, finished or not, from frame `k` on, that the
      rules and the code score alike. */
  predicate Legal(rolls: seq<int>, i: nat, k: int)
    requires i <= |rolls|
    decreases |rolls| - i
  {
    if i == |rolls| then true
    else if k >= MAX_FRAMES then k == MAX_FRAMES && LegalTenth(rolls[i..])
    else if !Pins(rolls[i]) then false
    else if rolls[i] == MAX_PINS then Legal(rolls, i + 1, k + 1)
    else if i + 1 == |rolls| then true
    else Pins(rolls[i + 1]) && rolls[i] + rolls[i + 1] <= MAX_PINS && Legal(rolls, i + 2, k + 1)
  }

  /** Every roll of a legal game is a pin count from 0 to MAX_PINS. */
  lemma {:induction false} LegalPins(rolls: seq<int>, i: nat, k: int)
    requires i <= |rolls| && Legal(rolls, i, k)
    ensures forall j :: i <= j < |rolls| ==> Pins(rolls[j])
    decreases |rolls| - i
  {
    if i < |rolls| {
      if k >= MAX_FRAMES {
        forall j | i <= j < |rolls| ensures Pins(rolls[j]) {
          assert rolls[i..][j - i] == rolls[j];
        }
      } else if rolls[i] == MAX_PINS {
        LegalPins(rolls, i + 1, k + 1);
      } else if i + 1 < |rolls| {
        LegalPins(rolls, i + 2, k + 1);
      }
    }
  }

  lemma PinsWithin(rolls: seq<int>, a: nat, b: nat)
    requires a <= b <= |rolls| && forall j :: a <= j < |rolls| ==> Pins(rolls[j])
    ensures WithinPins(rolls[a..b])
  {
    forall j | 0 <= j < b - a ensures rolls[a..b][j] <= MAX_PINS {
      assert rolls[a..b][j] == rolls[a + j];
    }
  }

  /** The rules over a strike in frames 1-9: the frame with its bonus rolls, then the game
      from the next frame on. */
  lemma StrikeScore(rolls: seq<int>, i: nat, j: nat, k: int, p: int, bonus: seq<int>, q: int, fs: seq<Frame>)
    requires j == i + 1 <= |rolls| && 1 <= k < MAX_FRAMES && rolls[i] == MAX_PINS
    requires bonus == rolls[i + 1..Min(i + 3, |rolls|)] && q == p + MAX_PINS + Sum(bonus)
    ensures Score(rolls, i, k, p, fs) == Score(rolls, j, k + 1, q, fs + [Scored(k, p, [MAX_PINS], bonus)])
  {
  }

  /** A legal game goes on legally after a strike, whose bonus rolls are pin counts. */
  lemma StrikeLegal(rolls: seq<int>, i: nat, j: nat, k: int, bonus: seq<int>)
    requires j == i + 1 <= |rolls| && 1 <= k < MAX_FRAMES && Legal(rolls, i, k) && rolls[i] == MAX_PINS
    requires bonus == rolls[i + 1..Min(i + 3, |rolls|)]
    ensures WithinPins(bonus) && Legal(rolls, j, k + 1)
  {
    LegalPins(rolls, i, k);
    PinsWithin(rolls, i + 1, Min(i + 3, |rolls|));
  }

  /** The rules over a spare in frames 1-9. */
  lemma SpareScore(rolls: seq<int>, i: nat, m: nat, k: int, p: int, x: int, y: int, bonus: seq<int>, q: int, fs: seq<Frame>)
    requires m == i + 2 <= |rolls| && x == rolls[i] && y == rolls[i + 1] && bonus == rolls[m..Min(m + 1, |rolls|)]
    requires 1 <= k < MAX_FRAMES && x < MAX_PINS && x + y == MAX_PINS && q == p + MAX_PINS + Sum(bonus)
    ensures Score(rolls, i, k, p, fs) == Score(rolls, m, k + 1, q, fs + [Scored(k, p, [x, y], bonus)])
  {
  }

  /** A legal game goes on legally after a spare, whose bonus roll is a pin count. */
  lemma SpareLegal(rolls: seq<int>, i: nat, m: nat, k: int, bonus: seq<int>)
    requires m == i + 2 <= |rolls| && bonus == rolls[m..Min(m + 1, |rolls|)]
    requires 1 <= k < MAX_FRAMES && Legal(rolls, i, k) && rolls[i] < MAX_PINS
    ensures 0 <= rolls[i] && WithinPins(bonus) && Legal(rolls, m, k + 1)
  {
    LegalPins(rolls, i, k);
    PinsWithin(rolls, m, Min(m + 1, |rolls|));
  }

  /** The rules over an open frame in frames 1-9. */
  lemma OpenScore(rolls: seq<int>, i: nat, m: nat, k: int, p: int, x: int, y: int, q: int, fs: seq<Frame>)
    requires m == i + 2 <= |rolls| && x == rolls[i] && y == rolls[i + 1]
    requires 1 <= k < MAX_FRAMES && x < MAX_PINS && x + y != MAX_PINS && q == p + x + y
    ensures Score(rolls, i, k, p, fs) == Score(rolls, m, k + 1, q, fs + [Scored(k, p, [x, y], [])])
  {
  }

  /** A legal game goes on legally after an open frame of two pin counts. */
  lemma OpenLegal(rolls: seq<int>, i: nat, m: nat, k: int, x: int, y: int)
    requires m == i + 2 <= |rolls| && x == rolls[i] && y == rolls[i + 1]
    requires 1 <= k < MAX_FRAMES && Legal(rolls, i, k) && x < MAX_PINS && x + y != MAX_PINS
    ensures 0 <= x && 0 <= y && x + y < MAX_PINS && Legal(rolls, m, k + 1)
  {
  }

  /** The rules over the tenth frame: it holds the rest of the input, in one of the shapes
      of `LegalTenth`. */
  lemma TenthScore(rolls: seq<int>, i: nat, p: int, fs: seq<Frame>)
    requires i < |rolls| && Legal(rolls, i, MAX_FRAMES)
    ensures Score(rolls, i, MAX_FRAMES, p, fs) == fs + [Scored(MAX_FRAMES, p, rolls[i..], [])]
    ensures i + 3 >= |rolls| && forall j :: i <= j < |rolls| ==> Pins(rolls[j])
    ensures i + 2 == |rolls| ==> rolls[i] < MAX_PINS && rolls[i] + rolls[i + 1] <= MAX_PINS
    ensures i + 3 == |rolls| ==>
              || (rolls[i] < MAX_PINS && rolls[i] + rolls[i + 1] == MAX_PINS)
              || (rolls[i] == MAX_PINS && (rolls[i + 1] == MAX_PINS || rolls[i + 1] == 0))
  {
    LegalPins(rolls, i, MAX_FRAMES);
    var t := rolls[i..];
    assert |t| >= 2 ==> t[0] == rolls[i] && t[1] == rolls[i + 1];
  }

  lemma RestOne(rolls: seq<int>, i: nat)
    requires i + 1 == |rolls|
    ensures rolls[i..] == [rolls[i]]
  {
  }

  lemma RestTwo(rolls: seq<int>, i: nat)
    requires i + 2 == |rolls|
    ensures rolls[i..] == [rolls[i], rolls[i + 1]]
  {
  }

  lemma RestThree(rolls: seq<int>, i: nat)
    requires i + 3 == |rolls|
    ensures rolls[i..] == [rolls[i], rolls[i + 1], rolls[i + 2]]
  {
  }

  lemma SpareRest(rolls: seq<int>, i: nat, m: nat)
    requires m == i + 2 <= |rolls| <= i + 3
    ensures [rolls[i], rolls[i + 1]] + rolls[m..Min(m + 1, |rolls|)] == rolls[i..]
  {
  }

  lemma NoneAfter(rolls: seq<int>, m: nat)
    requires m == |rolls|
    ensures WithinPins(rolls[m..Min(m + 1, |rolls|)])
  {
  }
}
