/**
 * The dice model: three kinds of physical die, the exact distribution of the
 * total of two dice as integer counts out of 36, and the die type selector.
 */
module Dice {

  datatype DiceType = Regular | Stable | HighExplosive

  /** A face value and how many of the die's six sides show it. */
  datatype Face = Face(value: int, weight: nat)

  /** The face weights the source lists for each kind of die. */
  function Faces(t: DiceType): (fs: seq<Face>)
    ensures forall k :: 0 <= k < |fs| ==> 1 <= fs[k].value <= 6
  {
    match t
    case Regular => [Face(1, 1), Face(2, 1), Face(3, 1), Face(4, 1), Face(5, 1), Face(6, 1)]
    case Stable => [Face(3, 3), Face(4, 3)]
    case HighExplosive => [Face(1, 3), Face(6, 3)]
  }

  /** Every kind of die has six sides in all. */
  lemma FacesMass(t: DiceType)
    ensures Mass(Faces(t)) == 6
  {
    var fs := Faces(t);
    if t == Regular {
      assert fs[..1][..0] == [];
      assert Mass(fs[..1]) == 1;
      assert fs[..2][..1] == fs[..1];
      assert Mass(fs[..2]) == 2;
      assert fs[..3][..2] == fs[..2];
      assert Mass(fs[..3]) == 3;
      assert fs[..4][..3] == fs[..3];
      assert Mass(fs[..4]) == 4;
      assert fs[..5][..4] == fs[..4];
      assert Mass(fs[..5]) == 5;
      assert fs[..5] == fs[..|fs| - 1];
    } else {
      assert fs[..1][..0] == [];
      assert Mass(fs[..1]) == 3;
    }
  }

  /** The total weight of a list of faces. */
  function Mass(fs: seq<Face>): nat
  {
    if fs == [] then 0 else Mass(fs[..|fs| - 1]) + fs[|fs| - 1].weight
  }

  /** Weighted count of the pairs (a, b), b drawn from bs, whose values add up to total. */
  function RowCount(a: Face, bs: seq<Face>, total: int): nat
  {
    if bs == [] then 0
    else RowCount(a, bs[..|bs| - 1], total) + (if a.value + bs[|bs| - 1].value == total then a.weight * bs[|bs| - 1].weight else 0)
  }

  /** Weighted count of the pairs (a, b), a from firsts and b from bs, whose values add up to total. */
  function PairCount(firsts: seq<Face>, bs: seq<Face>, total: int): nat
  {
    if firsts == [] then 0 else PairCount(firsts[..|firsts| - 1], bs, total) + RowCount(firsts[|firsts| - 1], bs, total)
  }

  /** Weighted count of the pairs (a, b) that show the same value: a double. */
  function DoublesCount(firsts: seq<Face>, bs: seq<Face>): nat
  {
    if firsts == [] then 0 else DoublesCount(firsts[..|firsts| - 1], bs) + SameRow(firsts[|firsts| - 1], bs)
  }

  function SameRow(a: Face, bs: seq<Face>): nat
  {
    if bs == [] then 0
    else SameRow(a, bs[..|bs| - 1]) + (if a.value == bs[|bs| - 1].value then a.weight * bs[|bs| - 1].weight else 0)
  }

  /** The count for total in the map, 0 where the map has no entry (dict.get(total, 0)). */
  function Get(dist: map<int, nat>, total: int): nat
  {
    if total in dist then dist[total] else 0
  }

  /**
   * get_dice_total_distribution: for every total of two dice, the number of
   * weighted outcomes (out of `outcomes`) that produce it. The source divides
   * each count by the number of outcomes; the model keeps the numerators.
   */
  method TotalDistribution(t: DiceType) returns (dist: map<int, nat>, outcomes: nat)
    ensures outcomes == 36
    ensures forall total :: Get(dist, total) == PairCount(Faces(t), Faces(t), total)
    ensures forall total :: total in dist ==> 2 <= total <= 12
  {
    var ws := Faces(t);
    FacesMass(t);
    outcomes := Mass(ws) * Mass(ws);
    dist := map[];
    var i := 0;
    while i < |ws|
      invariant 0 <= i <= |ws|
      invariant forall total :: Get(dist, total) == PairCount(ws[..i], ws, total)
      invariant forall total :: total in dist ==> 2 <= total <= 12
    {
      var j := 0;
      while j < |ws|
        invariant 0 <= j <= |ws|
        invariant forall total :: Get(dist, total) == PairCount(ws[..i], ws, total) + RowCount(ws[i], ws[..j], total)
        invariant forall total :: total in dist ==> 2 <= total <= 12
      {
        var a, b := ws[i], ws[j];
        var total := a.value + b.value;
        assert ws[..j + 1][..j] == ws[..j];
        dist := dist[total := Get(dist, total) + a.weight * b.weight];
        j := j + 1;
      }
      assert ws[..j] == ws;
      assert ws[..i + 1][..i] == ws[..i];
      i := i + 1;
    }
    assert ws[..i] == ws;
  }

  /** The closed form of the regular die's row: a face a meets exactly one b among the first j faces with a + b == total, or none. */
  lemma {:induction false} RegularRow(a: Face, j: nat, total: int)
    requires j <= 6 && a.weight == 1
    ensures RowCount(a, Faces(Regular)[..j], total) == if 1 <= total - a.value <= j then 1 else 0
  {
    var fs := Faces(Regular);
    if j > 0 {
      assert fs[..j][..j - 1] == fs[..j - 1];
      RegularRow(a, j - 1, total);
    }
  }

  function Abs(x: int): nat
  {
    if x < 0 then -x else x
  }

  /** How many of the faces 1..i reach total with a second face from 1..6. */
  function Reach(i: int, total: int): nat
  {
    var lo := if total - 6 > 1 then total - 6 else 1;
    var hi := if i < total - 1 then i else total - 1;
    if hi >= lo then hi - lo + 1 else 0
  }

  lemma {:induction false} RegularPrefix(i: nat, total: int)
    requires i <= 6
    ensures PairCount(Faces(Regular)[..i], Faces(Regular), total) == Reach(i, total)
  {
    var fs := Faces(Regular);
    if i > 0 {
      assert fs[..i][..i - 1] == fs[..i - 1];
      RegularPrefix(i - 1, total);
      assert fs == fs[..6];
      RegularRow(fs[i - 1], 6, total);
    }
  }

  /** Regular dice: the total t comes up in 6 - |t - 7| of the 36 outcomes, for t from 2 to 12. */
  lemma RegularCounts(total: int)
    ensures PairCount(Faces(Regular), Faces(Regular), total) == if 2 <= total <= 12 then 6 - Abs(total - 7) else 0
  {
    var fs := Faces(Regular);
    assert fs[..6] == fs;
    RegularPrefix(6, total);
  }

  /** Stable dice (three 3s and three 4s): totals 6, 7, 8 in 9, 18, 9 of the 36 outcomes. */
  lemma StableCounts(total: int)
    ensures PairCount(Faces(Stable), Faces(Stable), total) == if total == 7 then 18 else if total == 6 || total == 8 then 9 else 0
  {
    var fs := Faces(Stable);
    TwoFaceCounts(fs, total);
  }

  /** High-explosive dice (three 1s and three 6s): totals 2, 7, 12 in 9, 18, 9 of the 36 outcomes. */
  lemma HighExplosiveCounts(total: int)
    ensures PairCount(Faces(HighExplosive), Faces(HighExplosive), total) == if total == 7 then 18 else if total == 2 || total == 12 then 9 else 0
  {
    var fs := Faces(HighExplosive);
    TwoFaceCounts(fs, total);
  }

  /** The four weighted pairs of a two-faced die, spelled out. */
  lemma TwoFaceCounts(fs: seq<Face>, total: int)
    requires |fs| == 2
    ensures PairCount(fs, fs, total) ==
      (if fs[0].value + fs[0].value == total then fs[0].weight * fs[0].weight else 0) +
      (if fs[0].value + fs[1].value == total then fs[0].weight * fs[1].weight else 0) +
      (if fs[1].value + fs[0].value == total then fs[1].weight * fs[0].weight else 0) +
      (if fs[1].value + fs[1].value == total then fs[1].weight * fs[1].weight else 0)
  {
    assert fs[..1][..0] == [] && fs[..|fs| - 1] == fs[..1];
    assert RowCount(fs[0], fs[..1], total) == (if fs[0].value + fs[0].value == total then fs[0].weight * fs[0].weight else 0);
    assert RowCount(fs[1], fs[..1], total) == (if fs[1].value + fs[0].value == total then fs[1].weight * fs[0].weight else 0);
    assert PairCount(fs[..1], fs, total) == RowCount(fs[0], fs, total);
    assert PairCount(fs, fs, total) == RowCount(fs[0], fs, total) + RowCount(fs[1], fs, total);
  }

  /** The number of the 36 outcomes that give this total. */
  function Count(t: DiceType, total: int): nat
  {
    PairCount(Faces(t), Faces(t), total)
  }

  lemma Counts(t: DiceType, total: int)
    ensures t == Regular ==> Count(t, total) == if 2 <= total <= 12 then 6 - Abs(total - 7) else 0
    ensures t == Stable ==> Count(t, total) == if total == 7 then 18 else if total == 6 || total == 8 then 9 else 0
    ensures t == HighExplosive ==> Count(t, total) == if total == 7 then 18 else if total == 2 || total == 12 then 9 else 0
  {
    match t
    case Regular => RegularCounts(total);
    case Stable => StableCounts(total);
    case HighExplosive => HighExplosiveCounts(total);
  }

  /** Sum over the totals lo..hi-1 of weight(total) times the number of outcomes giving it. */
  function Moment(t: DiceType, weight: int -> int, lo: int, hi: int): int
    decreases hi - lo
  {
    if lo >= hi then 0 else weight(lo) * Count(t, lo) + Moment(t, weight, lo + 1, hi)
  }

  /** Every total of two dice lies between 2 and 12, so the sums below range over all of them. */
  lemma CountOutsideRange(t: DiceType, total: int)
    requires total < 2 || total > 12
    ensures Count(t, total) == 0
  {
    Counts(t, total);
  }

  /** The counts of the distribution add up to the 36 outcomes: it is a probability distribution. */
  lemma {:induction false} CountsSumToOutcomes(t: DiceType)
    ensures Moment(t, x => 1, 2, 13) == 36
  {
    forall total | 2 <= total <= 12 {
      Counts(t, total);
    }
  }

  /** For every kind of die the expected total, as get_expected_roll computes it from the distribution, is exactly 7. */
  lemma {:induction false} ExpectedRollIsSeven(t: DiceType)
    ensures Moment(t, x => x, 2, 13) == 7 * 36
  {
    forall total | 2 <= total <= 12 {
      Counts(t, total);
    }
  }

  /**
   * get_roll_variance as a count: the sum of (total - 7)^2 over the 36
   * outcomes is 210 for regular dice (variance 5.8333...), 18 for stable
   * dice (0.5) and 450 for high-explosive dice (12.5).
   */
  lemma {:induction false} RollVariance(t: DiceType)
    ensures Moment(t, x => (x - 7) * (x - 7), 2, 13) == match t
      case Regular => 210
      case Stable => 18
      case HighExplosive => 450
  {
    forall total | 2 <= total <= 12 {
      Counts(t, total);
    }
  }

  /** get_doubles_probability: 1/6 for regular dice, 1/2 otherwise, as (numerator, denominator). */
  function DoublesProbability(t: DiceType): (int, int)
  {
    if t == Regular then (1, 6) else (1, 2)
  }

  /** The fixed doubles probabilities agree with the faces: 6 of 36 regular outcomes are doubles, 18 of 36 otherwise. */
  lemma DoublesProbabilityMatchesFaces(t: DiceType)
    ensures DoublesCount(Faces(t), Faces(t)) * DoublesProbability(t).1 == DoublesProbability(t).0 * 36
  {
    var fs := Faces(t);
    if t == Regular {
      RegularDoubles(6);
      assert fs[..6] == fs;
    } else {
      assert fs[..1][..0] == [] && fs[..|fs| - 1] == fs[..1];
      assert SameRow(fs[0], fs[..1]) == 9 && SameRow(fs[1], fs[..1]) == 0;
      assert DoublesCount(fs[..1], fs) == 9;
    }
  }

  lemma {:induction false} RegularDoubles(i: nat)
    requires i <= 6
    ensures DoublesCount(Faces(Regular)[..i], Faces(Regular)) == i
  {
    var fs := Faces(Regular);
    if i > 0 {
      assert fs[..i][..i - 1] == fs[..i - 1];
      RegularDoubles(i - 1);
      RegularSame(fs[i - 1], 6);
      assert fs[..6] == fs;
    }
  }

  lemma {:induction false} RegularSame(a: Face, j: nat)
    requires j <= 6 && a.weight == 1
    ensures SameRow(a, Faces(Regular)[..j]) == if 1 <= a.value <= j then 1 else 0
  {
    var fs := Faces(Regular);
    if j > 0 {
      assert fs[..j][..j - 1] == fs[..j - 1];
      RegularSame(a, j - 1);
    }
  }

  /** The face values a die of this kind can show. */
  function FaceValues(t: DiceType): set<int>
  {
    set k | 0 <= k < |Faces(t)| :: Faces(t)[k].value
  }

  /** change_dice_type cycles Regular, Stable, HighExplosive and back. */
  function NextDiceType(t: DiceType): DiceType
  {
    match t
    case Regular => Stable
    case Stable => HighExplosive
    case HighExplosive => Regular
  }

  /** A roll that shows the faces a and b is one of the outcomes the distribution counts for a + b. */
  lemma {:induction false} ShownTotalHasOutcomes(firsts: seq<Face>, bs: seq<Face>, i: nat, j: nat)
    requires i < |firsts| && j < |bs| && firsts[i].weight > 0 && bs[j].weight > 0
    ensures PairCount(firsts, bs, firsts[i].value + bs[j].value) > 0
  {
    var total := firsts[i].value + bs[j].value;
    if i == |firsts| - 1 {
      RowHasOutcome(firsts[i], bs, j, total);
    } else {
      ShownTotalHasOutcomes(firsts[..|firsts| - 1], bs, i, j);
    }
  }

  lemma {:induction false} RowHasOutcome(a: Face, bs: seq<Face>, j: nat, total: int)
    requires j < |bs| && a.weight > 0 && bs[j].weight > 0 && a.value + bs[j].value == total
    ensures RowCount(a, bs, total) > 0
  {
    if j < |bs| - 1 {
      RowHasOutcome(a, bs[..|bs| - 1], j, total);
    }
  }

  /** The Dice object: the selected kind, the last two faces shown, and a doubles counter nothing updates. */
  class Dice {
    var diceType: DiceType
    var rollResult: (int, int)
    var doubleCount: int

    constructor ()
      ensures diceType == Regular && rollResult == (0, 0) && doubleCount == 0
    {
      diceType := Regular;
      rollResult := (0, 0);
      doubleCount := 0;
    }

    /**
     * roll: the two faces are the random draws, taken as inputs. The total is
     * one the distribution gives a positive count, and a double is two equal faces.
     */
    method Roll(die1: int, die2: int) returns (total: int, isDouble: bool)
      requires die1 in FaceValues(diceType) && die2 in FaceValues(diceType)
      modifies this`rollResult
      ensures rollResult == (die1, die2)
      ensures total == die1 + die2 && 2 <= total <= 12
      ensures Count(diceType, total) > 0
      ensures isDouble <==> die1 == die2
    {
      var fs := Faces(diceType);
      var i :| 0 <= i < |fs| && fs[i].value == die1;
      var j :| 0 <= j < |fs| && fs[j].value == die2;
      ShownTotalHasOutcomes(fs, fs, i, j);
      rollResult := (die1, die2);
      total := die1 + die2;
      isDouble := die1 == die2;
    }

    /** change_dice_type. */
    method ChangeDiceType() returns (t: DiceType)
      modifies this`diceType
      ensures diceType == NextDiceType(old(diceType)) && t == diceType
      ensures NextDiceType(NextDiceType(diceType)) == old(diceType)
    {
      diceType := NextDiceType(diceType);
      t := diceType;
    }
  }
}
