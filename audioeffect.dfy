/**
 * An abstract stand-in for the platform's `android.media.audiofx.Equalizer`:
 * only the state the manager reads or writes is kept.
 */
module AudioEffect {
  import opened Conversions

  datatype Option<T> = None | Some(value: T)

  /**
   * What the device's effect engine reports for a newly created equalizer:
   * hardware band centres in milliHertz, the level range and the band levels
   * in millibels, and whether this instance has control of the effect.
   */
  datatype Device = Device(
    centerFreqs: seq<int>,
    minLevel: int,
    maxLevel: int,
    initialLevels: seq<int>,
    initiallyEnabled: bool,
    hasControl: bool)

  /** The platform's own types: a short band count, int centres, short levels. */
  predicate WellFormed(d: Device)
  {
    |d.centerFreqs| <= ShortMax &&
    |d.initialLevels| == |d.centerFreqs| &&
    (forall i :: 0 <= i < |d.centerFreqs| ==> IsInt(d.centerFreqs[i])) &&
    IsShort(d.minLevel) && IsShort(d.maxLevel)
  }

  class Equalizer {
    const priority: int
    const audioSession: int
    const centerFreqs: seq<int>
    const minLevel: int
    const maxLevel: int
    const hasControl: bool
    /** Current gain of each hardware band, in millibels. */
    const levels: array<int>
    var enabled: bool
    var released: bool

    ghost predicate Valid()
      reads this
    {
      levels.Length == |centerFreqs| <= ShortMax &&
      (forall i :: 0 <= i < |centerFreqs| ==> IsInt(centerFreqs[i])) &&
      IsShort(minLevel) && IsShort(maxLevel)
    }

    /** `Equalizer(priority, audioSession)` on a device that supports it. */
    constructor (priority: int, audioSession: int, device: Device)
      requires WellFormed(device)
      ensures Valid() && fresh(levels)
      ensures this.priority == priority && this.audioSession == audioSession
      ensures centerFreqs == device.centerFreqs && levels[..] == device.initialLevels
      ensures minLevel == device.minLevel && maxLevel == device.maxLevel
      ensures hasControl == device.hasControl
      ensures enabled == device.initiallyEnabled && !released
    {
      this.priority := priority;
      this.audioSession := audioSession;
      centerFreqs := device.centerFreqs;
      minLevel := device.minLevel;
      maxLevel := device.maxLevel;
      hasControl := device.hasControl;
      levels := new int[|device.initialLevels|](i requires 0 <= i < |device.initialLevels| => device.initialLevels[i]);
      enabled := device.initiallyEnabled;
      released := false;
    }

    function NumberOfBands(): (n: nat)
      reads this
      ensures Valid() ==> n == levels.Length && n <= ShortMax
    {
      |centerFreqs|
    }

    /**
     * `setBandLevel(band, level)`: the platform refuses (throws) on a
     * released effect, without control of the effect, or for a band it
     * does not have; otherwise exactly that band takes the new level.
     */
    method SetBandLevel(band: int, level: int) returns (ok: bool)
      modifies levels
      ensures ok <==> !released && hasControl && 0 <= band < levels.Length
      ensures ok ==> levels[..] == old(levels[..])[band := level]
      ensures !ok ==> levels[..] == old(levels[..])
    {
      ok := !released && hasControl && 0 <= band < levels.Length;
      if ok {
        levels[band] := level;
      }
    }

    /**
     * `enabled = on`: the platform only honours it while this instance has
     * control of the effect, and reports a refusal as a status code.
     */
    method SetEnabled(on: bool)
      requires !released
      modifies this`enabled
      ensures enabled == if hasControl then on else old(enabled)
    {
      if hasControl {
        enabled := on;
      }
    }

    method Release()
      modifies this`released
      ensures released
    {
      released := true;
    }
  }
}
