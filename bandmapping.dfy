/**
 * The mapping from the seven fixed logical bands onto the hardware bands of
 * a platform equalizer, and the band levels that a sequence of writes leaves
 * behind. These are the specification functions the manager's methods are
 * proved against.
 */
module BandMapping {
  import opened Conversions

  /** Centre frequencies, in Hz, of the logical bands 0..6. */
  const TargetFrequencies: seq<int> := [60, 150, 400, 1000, 2400, 6000, 15000]

  const LogicalBandCount: nat := 7

  /** A preset that sets every logical band to 0 dB. */
  const FlatPreset: seq<real> := [0.0, 0.0, 0.0, 0.0, 0.0, 0.0, 0.0]

  /**
   * Distance in whole Hz between a hardware band whose centre is given in
   * milliHertz and a target frequency in Hz.
   */
  function Distance(centerMilliHz: int, target: int): (d: nat)
    ensures TruncDiv(centerMilliHz, 1000) == target + d || TruncDiv(centerMilliHz, 1000) == target - d
  {
    Abs(TruncDiv(centerMilliHz, 1000) - target)
  }

  /**
   * `k` is the band nearest to `target` among `freqs`, and no band before
   * it is as near; with no bands at all the answer is band 0.
   */
  predicate IsClosest(freqs: seq<int>, target: int, k: int)
  {
    if |freqs| == 0 then k == 0
    else
      0 <= k < |freqs| &&
      (forall j :: 0 <= j < |freqs| ==> Distance(freqs[k], target) <= Distance(freqs[j], target)) &&
      (forall j :: 0 <= j < k ==> Distance(freqs[k], target) < Distance(freqs[j], target))
  }

  /** The nearest band, computed over ever longer prefixes of `freqs`. */
  function Closest(freqs: seq<int>, target: int): (k: nat)
    ensures |freqs| == 0 ==> k == 0
    ensures |freqs| > 0 ==> k < |freqs|
    decreases |freqs|
  {
    if |freqs| <= 1 then 0
    else
      var p := Closest(freqs[..|freqs| - 1], target);
      if Distance(freqs[|freqs| - 1], target) < Distance(freqs[p], target) then |freqs| - 1 else p
  }

  lemma {:induction false} ClosestIsClosest(freqs: seq<int>, target: int)
    ensures IsClosest(freqs, target, Closest(freqs, target))
    decreases |freqs|
  {
    if |freqs| > 1 {
      var init := freqs[..|freqs| - 1];
      ClosestIsClosest(init, target);
      assert forall j :: 0 <= j < |init| ==> init[j] == freqs[j];
    }
  }

  /**
   * The nearest band with the lowest-index tie-break is unique, and
   * `Closest` is it.
   */
  lemma ClosestCharacterization(freqs: seq<int>, target: int, k: int)
    ensures IsClosest(freqs, target, k) <==> k == Closest(freqs, target)
  {
    ClosestIsClosest(freqs, target);
  }

  /** On a tie between two bands the lower index wins. */
  lemma ClosestTieBreak()
    ensures Closest([100_000, 200_000], 150) == 0
    ensures Closest([200_000, 100_000], 150) == 0
  {
  }

  /**
   * A common five-band layout (60, 230, 910, 3600, 14000 Hz): the seven
   * targets land on bands 0, 1, 1, 2, 3, 3 and 4.
   */
  lemma FiveBandLayout()
    ensures Closest(FiveBands(), 60) == 0
    ensures Closest(FiveBands(), 150) == 1
    ensures Closest(FiveBands(), 400) == 1
    ensures Closest(FiveBands(), 1000) == 2
    ensures Closest(FiveBands(), 2400) == 3
    ensures Closest(FiveBands(), 6000) == 3
    ensures Closest(FiveBands(), 15000) == 4
  {
    FiveBandNearest(60, 0);
    FiveBandNearest(150, 1);
    FiveBandNearest(400, 1);
    FiveBandNearest(1000, 2);
    FiveBandNearest(2400, 3);
    FiveBandNearest(6000, 3);
    FiveBandNearest(15000, 4);
  }

  lemma FiveBandNearest(target: int, k: nat)
    requires k < 5
    requires forall j :: 0 <= j < 5 ==> Abs(FiveBandsHz()[k] - target) <= Abs(FiveBandsHz()[j] - target)
    requires forall j :: 0 <= j < k ==> Abs(FiveBandsHz()[k] - target) < Abs(FiveBandsHz()[j] - target)
    ensures Closest(FiveBands(), target) == k
  {
    FiveBandDistances(target);
    assert IsClosest(FiveBands(), target, k);
    ClosestCharacterization(FiveBands(), target, k);
  }

  lemma FiveBandDistances(target: int)
    ensures forall j :: 0 <= j < 5 ==> Distance(FiveBands()[j], target) == Abs(FiveBandsHz()[j] - target)
  {
    forall j | 0 <= j < 5
      ensures Distance(FiveBands()[j], target) == Abs(FiveBandsHz()[j] - target)
    {
      assert TruncDiv(FiveBands()[j], 1000) == FiveBandsHz()[j];
    }
  }

  function FiveBandsHz(): seq<int>
  {
    [60, 230, 910, 3600, 14000]
  }

  function FiveBands(): seq<int>
  {
    [60_000, 230_000, 910_000, 3_600_000, 14_000_000]
  }

  /** The hardware band that logical band `i` is written to. */
  function TargetBand(freqs: seq<int>, i: int): (b: nat)
    requires 0 <= i < LogicalBandCount
    ensures |freqs| == 0 ==> b == 0
    ensures |freqs| > 0 ==> b < |freqs|
  {
    Closest(freqs, TargetFrequencies[i])
  }

  /** Logical band `i` is written to the hardware band nearest its target. */
  lemma TargetBandIsNearest(freqs: seq<int>, i: int)
    requires 0 <= i < LogicalBandCount
    ensures IsClosest(freqs, TargetFrequencies[i], TargetBand(freqs, i))
  {
    ClosestIsClosest(freqs, TargetFrequencies[i]);
  }

  /** Some logical band is written to hardware band `b`. */
  predicate Targeted(freqs: seq<int>, b: int)
  {
    exists i :: 0 <= i < LogicalBandCount && TargetBand(freqs, i) == b
  }

  /**
   * Hardware levels after one logical write of `db` to band `i`: an invalid
   * logical index is ignored, and a write the platform refuses (no control
   * of the effect, or no such hardware band) leaves the levels alone.
   */
  function WriteLogical(levels: seq<int>, freqs: seq<int>, hasControl: bool, i: int, db: real): (r: seq<int>)
    ensures |r| == |levels|
  {
    if 0 <= i < LogicalBandCount && hasControl && TargetBand(freqs, i) < |levels| then
      levels[TargetBand(freqs, i) := ToMillibels(db)]
    else
      levels
  }

  /** Hardware levels after writing `values[0..n]` to logical bands 0..n-1 in order. */
  function WriteAll(levels: seq<int>, freqs: seq<int>, hasControl: bool, values: seq<real>, n: nat): (r: seq<int>)
    requires n <= |values| && n <= LogicalBandCount
    ensures |r| == |levels|
  {
    if n == 0 then levels
    else WriteLogical(WriteAll(levels, freqs, hasControl, values, n - 1), freqs, hasControl, n - 1, values[n - 1])
  }

  /** Hardware levels after applying a preset: one of the wrong length is refused. */
  function PresetLevels(levels: seq<int>, freqs: seq<int>, hasControl: bool, values: seq<real>): (r: seq<int>)
    ensures |r| == |levels|
  {
    if |values| != LogicalBandCount then levels
    else WriteAll(levels, freqs, hasControl, values, LogicalBandCount)
  }

  /**
   * Hardware levels after a reset: every band some logical band maps to is
   * 0 mB, every other band keeps its level.
   */
  function ResetLevels(levels: seq<int>, freqs: seq<int>, hasControl: bool): (r: seq<int>)
    ensures |r| == |levels|
    ensures forall b :: 0 <= b < |levels| && hasControl && Targeted(freqs, b) ==> r[b] == 0
    ensures forall b :: 0 <= b < |levels| && !(hasControl && Targeted(freqs, b)) ==> r[b] == levels[b]
  {
    seq(|levels|, b requires 0 <= b < |levels| => if hasControl && Targeted(freqs, b) then 0 else levels[b])
  }

  /**
   * What the writes to logical bands 0..n-1 leave in hardware band `b`: its
   * old level when no write reaches it, otherwise the value of the
   * highest-numbered logical band mapped onto it.
   */
  lemma {:induction false} WriteAllAt(levels: seq<int>, freqs: seq<int>, hasControl: bool, values: seq<real>, n: nat, b: int)
    requires n <= |values| && n <= LogicalBandCount
    requires 0 <= b < |levels|
    ensures (!hasControl || forall i :: 0 <= i < n ==> TargetBand(freqs, i) != b) ==>
              WriteAll(levels, freqs, hasControl, values, n)[b] == levels[b]
    ensures hasControl ==> forall i :: (0 <= i < n && TargetBand(freqs, i) == b &&
              (forall j :: i < j < n ==> TargetBand(freqs, j) != b)) ==>
              WriteAll(levels, freqs, hasControl, values, n)[b] == ToMillibels(values[i])
    ensures hasControl && (exists i :: 0 <= i < n && TargetBand(freqs, i) == b) ==>
              exists i :: 0 <= i < n && TargetBand(freqs, i) == b &&
                WriteAll(levels, freqs, hasControl, values, n)[b] == ToMillibels(values[i])
  {
    if n > 0 {
      WriteAllAt(levels, freqs, hasControl, values, n - 1, b);
      var prev := WriteAll(levels, freqs, hasControl, values, n - 1);
      assert WriteAll(levels, freqs, hasControl, values, n) == WriteLogical(prev, freqs, hasControl, n - 1, values[n - 1]);
      if hasControl && TargetBand(freqs, n - 1) == b {
        assert WriteAll(levels, freqs, hasControl, values, n)[b] == ToMillibels(values[n - 1]);
      } else {
        assert WriteAll(levels, freqs, hasControl, values, n)[b] == prev[b];
      }
    }
  }

  /**
   * A preset of seven values sets each targeted hardware band to the value
   * of the last logical band mapped onto it and leaves the others alone; a
   * preset of any other length changes nothing.
   */
  lemma PresetLevelsAt(levels: seq<int>, freqs: seq<int>, hasControl: bool, values: seq<real>, b: int)
    requires 0 <= b < |levels|
    ensures |values| != LogicalBandCount ==> PresetLevels(levels, freqs, hasControl, values) == levels
    ensures |values| == LogicalBandCount && (!hasControl || !Targeted(freqs, b)) ==>
              PresetLevels(levels, freqs, hasControl, values)[b] == levels[b]
    ensures |values| == LogicalBandCount && hasControl ==>
              forall i :: (0 <= i < LogicalBandCount && TargetBand(freqs, i) == b &&
                (forall j :: i < j < LogicalBandCount ==> TargetBand(freqs, j) != b)) ==>
                PresetLevels(levels, freqs, hasControl, values)[b] == ToMillibels(values[i])
  {
    if |values| == LogicalBandCount {
      WriteAllAt(levels, freqs, hasControl, values, LogicalBandCount, b);
    }
  }

  /** Applying the all-zero preset has the same effect as a reset. */
  lemma FlatPresetIsReset(levels: seq<int>, freqs: seq<int>, hasControl: bool)
    ensures PresetLevels(levels, freqs, hasControl, FlatPreset) == ResetLevels(levels, freqs, hasControl)
  {
    var p := PresetLevels(levels, freqs, hasControl, FlatPreset);
    var r := ResetLevels(levels, freqs, hasControl);
    forall b | 0 <= b < |levels|
      ensures p[b] == r[b]
    {
      WriteAllAt(levels, freqs, hasControl, FlatPreset, LogicalBandCount, b);
      ToMillibelsExamples();
    }
  }

  /**
   * On the five-band layout a preset lands logical bands 0, 2, 3, 5 and 6:
   * bands 1 and 4 are overwritten by their higher-numbered neighbours.
   */
  lemma FiveBandPreset(levels: seq<int>, values: seq<real>)
    requires |levels| == 5 && |values| == LogicalBandCount
    ensures PresetLevels(levels, FiveBands(), true, values) ==
            [ToMillibels(values[0]), ToMillibels(values[2]), ToMillibels(values[3]),
             ToMillibels(values[5]), ToMillibels(values[6])]
  {
    FiveBandLayout();
    var f := FiveBands();
    assert TargetBand(f, 0) == 0 && TargetBand(f, 1) == 1 && TargetBand(f, 2) == 1 && TargetBand(f, 3) == 2;
    assert TargetBand(f, 4) == 3 && TargetBand(f, 5) == 3 && TargetBand(f, 6) == 4;
    var m := seq(LogicalBandCount, i requires 0 <= i < LogicalBandCount => ToMillibels(values[i]));
    assert WriteAll(levels, f, true, values, 0) == levels;
    var w1 := WriteAll(levels, f, true, values, 1);
    assert w1 == WriteLogical(levels, f, true, 0, values[0]);
    assert w1 == levels[0 := m[0]];
    var w2 := WriteAll(levels, f, true, values, 2);
    assert w2 == w1[1 := m[1]];
    var w3 := WriteAll(levels, f, true, values, 3);
    assert w3 == w2[1 := m[2]];
    var w4 := WriteAll(levels, f, true, values, 4);
    assert w4 == w3[2 := m[3]];
    var w5 := WriteAll(levels, f, true, values, 5);
    assert w5 == w4[3 := m[4]];
    var w6 := WriteAll(levels, f, true, values, 6);
    assert w6 == w5[3 := m[5]];
    var w7 := WriteAll(levels, f, true, values, 7);
    assert w7 == w6[4 := m[6]];
  }
}
