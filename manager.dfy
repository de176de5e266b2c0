/**
 * `EqualizerManager`: maps the seven logical bands onto the hardware bands
 * of at most one platform equalizer it holds, and remembers the enabled
 * flag its caller last asked for.
 */
module EqualizerControl {
  import opened Conversions
  import opened BandMapping
  import opened AudioEffect

  /**
   * The status map: `initialized` and `enabled` are always present, the
   * band count and the level range in whole dB only for a live effect.
   */
  datatype EqualizerInfo = EqualizerInfo(
    initialized: bool,
    enabled: bool,
    numberOfBands: Option<int>,
    bandLevelRange: Option<(int, int)>)

  /** The reserved session id that applies an effect to all audio output. */
  const GlobalSession: int := 0

  /** The priority the manager creates its effect with. */
  const DefaultPriority: int := 0

  class EqualizerManager {
    var equalizer: Equalizer?
    var isEnabled: bool

    ghost predicate Valid()
      reads this, equalizer
    {
      equalizer != null ==> equalizer.Valid() && !equalizer.released
    }

    /** The band-level array of the held effect, if any. */
    ghost function Levels(): set<object>
      reads this
    {
      if equalizer == null then {} else {equalizer.levels}
    }

    constructor ()
      ensures Valid() && equalizer == null && !isEnabled
    {
      equalizer := null;
      isEnabled := false;
    }

    /**
     * Releases any held effect, then creates the global effect (session 0,
     * priority 0) disabled, whatever `audioSessionId` says. `device` is what
     * the platform offers; `None` stands for the constructor, or anything
     * after it, throwing, which leaves no effect held. `isEnabled` is not
     * touched, so it can disagree with the fresh effect.
     */
    method Initialize(audioSessionId: int, device: Option<Device>)
      requires Valid()
      requires device.Some? ==> WellFormed(device.value)
      modifies this, equalizer
      ensures Valid()
      ensures isEnabled == old(isEnabled)
      ensures old(equalizer) != null ==> old(equalizer).released
      ensures old(equalizer) != null ==> old(equalizer).enabled == old(equalizer.enabled)
      ensures device.None? ==> equalizer == null
      ensures device.Some? ==>
        equalizer != null && fresh(equalizer) && fresh(equalizer.levels) &&
        equalizer.audioSession == GlobalSession && equalizer.priority == DefaultPriority &&
        equalizer.centerFreqs == device.value.centerFreqs &&
        equalizer.minLevel == device.value.minLevel && equalizer.maxLevel == device.value.maxLevel &&
        equalizer.hasControl == device.value.hasControl &&
        equalizer.levels[..] == device.value.initialLevels &&
        equalizer.enabled == (if device.value.hasControl then false else device.value.initiallyEnabled)
    {
      Release();
      match device {
        case None =>
          equalizer := null;
        case Some(d) =>
          var eq := new Equalizer(DefaultPriority, GlobalSession, d);
          eq.SetEnabled(false);
          equalizer := eq;
      }
    }

    /**
     * Records the requested flag and passes it on to the held effect, if
     * any; no band level changes.
     */
    method SetEnabled(enabled: bool)
      requires Valid()
      modifies this, equalizer
      ensures Valid()
      ensures isEnabled == enabled && equalizer == old(equalizer)
      ensures equalizer != null ==>
        equalizer.enabled == (if equalizer.hasControl then enabled else old(equalizer.enabled))
    {
      isEnabled := enabled;
      if equalizer != null {
        equalizer.SetEnabled(enabled);
      }
    }

    /**
     * The hardware band nearest to `targetFreq` Hz, preferring the lowest
     * index on a tie; band 0 without an effect or without bands.
     */
    method FindClosestBand(targetFreq: int) returns (closestBand: int)
      requires Valid()
      requires targetFreq in TargetFrequencies
      ensures equalizer == null ==> closestBand == 0
      ensures equalizer != null ==>
        IsClosest(equalizer.centerFreqs, targetFreq, closestBand) &&
        closestBand == Closest(equalizer.centerFreqs, targetFreq)
    {
      var eq := equalizer;
      if eq == null {
        return 0;
      }
      ghost var freqs := eq.centerFreqs;
      closestBand := 0;
      var minDiff := IntMax;
      var i := 0;
      while i < eq.NumberOfBands()
        invariant 0 <= i <= |freqs|
        invariant i == 0 ==> closestBand == 0 && minDiff == IntMax
        invariant i > 0 ==> IsClosest(freqs[..i], targetFreq, closestBand) && minDiff == Distance(freqs[closestBand], targetFreq)
      {
        var bandFreq := TruncDiv(eq.centerFreqs[i], 1000);
        var diff := Abs(bandFreq - targetFreq);
        if i == 0 {
          DistanceBelowIntMax(freqs[0], targetFreq);
        }
        if diff < minDiff {
          minDiff := diff;
          closestBand := i;
        }
        i := i + 1;
      }
      assert freqs[..i] == freqs;
      ClosestCharacterization(freqs, targetFreq, closestBand);
    }

    /**
     * Writes `level` dB to the hardware band nearest logical band
     * `bandIndex`. Without an effect, for an index outside 0..6, or when the
     * platform refuses the write, nothing changes; otherwise exactly that one
     * band takes `level * 100` truncated toward zero and narrowed to a short.
     */
    method SetBandLevel(bandIndex: int, level: real)
      requires Valid()
      modifies Levels()
      ensures Valid() && unchanged(this)
      ensures equalizer != null ==>
        equalizer.levels[..] == WriteLogical(old(equalizer.levels[..]), equalizer.centerFreqs, equalizer.hasControl, bandIndex, level)
      ensures equalizer != null && (!(0 <= bandIndex < LogicalBandCount) || !equalizer.hasControl ||
              equalizer.NumberOfBands() == 0) ==>
        equalizer.levels[..] == old(equalizer.levels[..])
      ensures equalizer != null && 0 <= bandIndex < LogicalBandCount && equalizer.hasControl &&
              equalizer.NumberOfBands() > 0 ==>
        equalizer.levels[..] ==
          old(equalizer.levels[..])[TargetBand(equalizer.centerFreqs, bandIndex) := ToMillibels(level)]
    {
      var eq := equalizer;
      if eq == null {
        return;
      }
      if bandIndex < 0 || bandIndex >= |TargetFrequencies| {
        return;
      }
      var nativeBandIndex := FindClosestBand(TargetFrequencies[bandIndex]);
      var levelInMillibels := ToShort(DoubleToInt(level * 100.0));
      var _ := eq.SetBandLevel(nativeBandIndex, levelInMillibels);
    }

    /** Sets every logical band to 0 dB in index order; nothing without an effect. */
    method ResetBands()
      requires Valid()
      modifies Levels()
      ensures Valid() && unchanged(this)
      ensures equalizer != null ==>
        equalizer.levels[..] == ResetLevels(old(equalizer.levels[..]), equalizer.centerFreqs, equalizer.hasControl)
    {
      var eq := equalizer;
      if eq == null {
        return;
      }
      var i := 0;
      while i < |TargetFrequencies|
        invariant 0 <= i <= LogicalBandCount
        invariant Valid() && unchanged(this)
        invariant eq.levels[..] == WriteAll(old(eq.levels[..]), eq.centerFreqs, eq.hasControl, FlatPreset, i)
      {
        SetBandLevel(i, 0.0);
        i := i + 1;
      }
      FlatPresetIsReset(old(eq.levels[..]), eq.centerFreqs, eq.hasControl);
    }

    /**
     * Writes each of seven dB values to its logical band in index order; a
     * list of any other length is refused and changes nothing.
     */
    method ApplyPreset(bandValues: seq<real>)
      requires Valid()
      modifies Levels()
      ensures Valid() && unchanged(this)
      ensures equalizer != null && |bandValues| != LogicalBandCount ==>
        equalizer.levels[..] == old(equalizer.levels[..])
      ensures equalizer != null ==>
        equalizer.levels[..] == PresetLevels(old(equalizer.levels[..]), equalizer.centerFreqs, equalizer.hasControl, bandValues)
    {
      if |bandValues| != |TargetFrequencies| {
        return;
      }
      var i := 0;
      while i < |bandValues|
        invariant 0 <= i <= LogicalBandCount
        invariant Valid() && unchanged(this)
        invariant equalizer != null ==>
          equalizer.levels[..] == WriteAll(old(equalizer.levels[..]), equalizer.centerFreqs, equalizer.hasControl, bandValues, i)
      {
        SetBandLevel(i, bandValues[i]);
        i := i + 1;
      }
    }

    /**
     * The status report. It claims `enabled` only for a live effect, and then
     * reports the manager's own flag, not the effect's. The level range is
     * in whole dB, rounded toward zero.
     */
    function GetEqualizerInfo(): (info: EqualizerInfo)
      reads this, equalizer
      ensures info.initialized <==> equalizer != null
      ensures info.enabled <==> equalizer != null && isEnabled
      ensures info.numberOfBands.Some? <==> info.initialized
      ensures info.bandLevelRange.Some? <==> info.initialized
      ensures equalizer != null ==>
        info.numberOfBands.value == |equalizer.centerFreqs| &&
        info.bandLevelRange.value.0 == MillibelsToDb(equalizer.minLevel) &&
        info.bandLevelRange.value.1 == MillibelsToDb(equalizer.maxLevel)
    {
      var eq := equalizer;
      if eq != null then
        EqualizerInfo(true, isEnabled, Some(eq.NumberOfBands()),
                      Some((MillibelsToDb(eq.minLevel), MillibelsToDb(eq.maxLevel))))
      else
        EqualizerInfo(false, false, None, None)
    }

    /**
     * Releases the held effect, if any, and forgets it; `isEnabled` stays.
     * Without an effect it changes nothing.
     */
    method Release()
      requires Valid()
      modifies this, equalizer
      ensures Valid() && equalizer == null && isEnabled == old(isEnabled)
      ensures old(equalizer) != null ==> old(equalizer).released
      ensures old(equalizer) != null ==> old(equalizer).enabled == old(equalizer.enabled)
      ensures old(equalizer) == null ==> unchanged(this)
    {
      if equalizer != null {
        equalizer.Release();
      }
      equalizer := null;
    }
  }

  /**
   * After `setEnabled(true)`, initializing reports `enabled = true` while
   * the newly created effect itself is disabled (which the platform only
   * guarantees when this instance has control of it).
   */
  method StaleEnabledAfterInitialize(audioSessionId: int, device: Device) returns (info: EqualizerInfo, effectEnabled: bool)
    requires WellFormed(device) && device.hasControl
    ensures info.initialized && info.enabled && !effectEnabled
  {
    var m := new EqualizerManager();
    m.SetEnabled(true);
    m.Initialize(audioSessionId, Some(device));
    info := m.GetEqualizerInfo();
    effectEnabled := m.equalizer.enabled;
  }

  /**
   * Before any initialization every operation is a quiet no-op, and the
   * report says neither initialized nor enabled even after `setEnabled(true)`.
   */
  method CallsBeforeInitialize(bandIndex: int, level: real, values: seq<real>) returns (info: EqualizerInfo, flag: bool)
    ensures info == EqualizerInfo(false, false, None, None)
    ensures flag
  {
    var m := new EqualizerManager();
    m.SetEnabled(true);
    m.SetBandLevel(bandIndex, level);
    m.ResetBands();
    m.ApplyPreset(values);
    m.Release();
    m.Release();
    info := m.GetEqualizerInfo();
    flag := m.isEnabled;
  }

  /** The first band's distance is always below `Int.MAX_VALUE`, the loop's start. */
  lemma DistanceBelowIntMax(centerMilliHz: int, targetFreq: int)
    requires IsInt(centerMilliHz)
    requires targetFreq in TargetFrequencies
    ensures Distance(centerMilliHz, targetFreq) < IntMax
  {
    var hz := TruncDiv(centerMilliHz, 1000);
    assert -2_147_484 <= hz <= 2_147_484;
  }
}
