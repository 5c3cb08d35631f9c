/**
 * The effect's settings object (Halftone/Core/AppState.swift): the dot-size
 * preset enumeration, the three persisted settings, the clamp applied to every
 * intensity write, and the save/notify that follows every real change.
 *
 * `UserDefaults.standard` is modelled as the field `defaults` of the state
 * object; `NotificationCenter` posts are counted in `notifyCount`.
 */
module State {
  import opened Wrappers

  /** `DotSizePreset`, an `Int`-backed enumeration with raw values 0, 1, 2. */
  datatype DotSizePreset = Fine | Medium | Coarse {

    function RawValue(): int {
      match this
      case Fine => 0
      case Medium => 1
      case Coarse => 2
    }

    /** Spatial period of the halftone grid, in output pixels. */
    function DotSize(): (d: real)
      ensures d > 0.0
    {
      match this
      case Fine => 4.0
      case Medium => 8.0
      case Coarse => 16.0
    }

    /** Menu title of the preset. */
    function DisplayName(): (name: string)
      ensures |name| > 0
    {
      match this
      case Fine => "Fine"
      case Medium => "Medium"
      case Coarse => "Coarse"
    }
  }

  /** `DotSizePreset(rawValue:)`: the failable initializer. */
  function FromRawValue(raw: int): (r: Option<DotSizePreset>)
    ensures r.Some? <==> 0 <= raw <= 2
    ensures r.Some? ==> r.value.RawValue() == raw
  {
    if raw == 0 then Some(Fine)
    else if raw == 1 then Some(Medium)
    else if raw == 2 then Some(Coarse)
    else None
  }

  /** The preset decoded at launch: `DotSizePreset(rawValue: raw) ?? .medium`. */
  function DecodePreset(raw: int): (p: DotSizePreset)
    ensures 0 <= raw <= 2 ==> p.RawValue() == raw
    ensures !(0 <= raw <= 2) ==> p == Medium
  {
    FromRawValue(raw).GetOr(Medium)
  }

  /** The intensity clamp `max(0.0, min(1.0, v))` run by the `didSet` observer. */
  function Clamp(v: real): (r: real)
    ensures 0.0 <= r <= 1.0
    ensures 0.0 <= v <= 1.0 ==> r == v
    ensures v < 0.0 ==> r == 0.0
    ensures 1.0 < v ==> r == 1.0
  {
    var upper := if v < 1.0 then v else 1.0;
    if 0.0 < upper then upper else 0.0
  }

  /** The three settings the object holds. */
  datatype Settings = Settings(isEnabled: bool, dotSizePreset: DotSizePreset, intensity: real)

  /**
   * What `UserDefaults` holds under the keys `halftone.isEnabled`,
   * `halftone.dotSizePreset` and `halftone.intensity`; `None` is a missing key.
   */
  datatype Defaults = Defaults(isEnabled: Option<bool>, dotSizePreset: Option<int>, intensity: Option<real>)

  /** Nothing persisted yet (first launch). */
  const NoDefaults := Defaults(None, None, None)

  /** What `save()` writes: every key, the preset as its raw value. */
  function Persisted(s: Settings): (d: Defaults)
    ensures d.isEnabled == Some(s.isEnabled) && d.intensity == Some(s.intensity)
    ensures d.dotSizePreset.Some? && FromRawValue(d.dotSizePreset.value) == Some(s.dotSizePreset)
  {
    Defaults(Some(s.isEnabled), Some(s.dotSizePreset.RawValue()), Some(s.intensity))
  }

  /**
   * What `init` reads: `bool(forKey:)` and `integer(forKey:)` give `false`
   * and `0` for a missing key, the intensity defaults to 1.0 only when its
   * key is missing, and a stored intensity is taken as it is (Swift runs no
   * `didSet` inside `init`, so it is not clamped).
   */
  function Load(d: Defaults): (r: Settings)
    ensures r.isEnabled <==> d.isEnabled == Some(true)
    ensures d.dotSizePreset.None? ==> r.dotSizePreset == Fine
    ensures d.dotSizePreset.Some? && 0 <= d.dotSizePreset.value <= 2 ==> r.dotSizePreset.RawValue() == d.dotSizePreset.value
    ensures d.dotSizePreset.Some? && !(0 <= d.dotSizePreset.value <= 2) ==> r.dotSizePreset == Medium
    ensures d.intensity.Some? ==> r.intensity == d.intensity.value
    ensures d.intensity.None? ==> r.intensity == 1.0
  {
    Settings(
      d.isEnabled.GetOr(false),
      DecodePreset(d.dotSizePreset.GetOr(0)),
      if d.intensity.Some? then d.intensity.value else 1.0)
  }

  /** The nearest value of [0,1] to `v` (the reference the clamp is checked against). */
  ghost predicate IsNearestInUnit(v: real, r: real) {
    0.0 <= r <= 1.0 && forall x: real :: 0.0 <= x <= 1.0 ==> Dist(r, v) <= Dist(x, v)
  }

  function Dist(a: real, b: real): real {
    if a < b then b - a else a - b
  }

  /** The clamp picks the in-range value nearest to what was written. */
  lemma ClampIsNearest(v: real)
    ensures IsNearestInUnit(v, Clamp(v))
  {
    forall x: real | 0.0 <= x <= 1.0
      ensures Dist(Clamp(v), v) <= Dist(x, v)
    {
      if v < 0.0 {
        assert Dist(Clamp(v), v) == -v;
      } else if 1.0 < v {
        assert Dist(Clamp(v), v) == v - 1.0;
      }
    }
  }

  /** Clamping a clamped value changes nothing. */
  lemma ClampIdempotent(v: real)
    ensures Clamp(Clamp(v)) == Clamp(v)
  {
  }

  /** Every preset survives the round trip through its raw value. */
  lemma RawValueRoundTrip(p: DotSizePreset)
    ensures FromRawValue(p.RawValue()) == Some(p)
    ensures DecodePreset(p.RawValue()) == p
  {
  }

  /** The dot size grows strictly with the raw value, in both directions. */
  lemma DotSizeOrderedByRawValue(p: DotSizePreset, q: DotSizePreset)
    ensures p.RawValue() < q.RawValue() <==> p.DotSize() < q.DotSize()
    ensures p.DotSize() == q.DotSize() <==> p == q
  {
  }

  function Pow2(n: nat): (r: real)
    ensures r >= 1.0
  {
    if n == 0 then 1.0 else 2.0 * Pow2(n - 1)
  }

  /** Each preset step doubles the dot size, starting from 4 pixels for `.fine`. */
  lemma DotSizeDoublesPerStep(p: DotSizePreset)
    ensures p.RawValue() >= 0 && p.DotSize() == 4.0 * Pow2(p.RawValue() as nat)
  {
    match p
    case Fine =>
    case Medium => assert Pow2(1) == 2.0 * Pow2(0);
    case Coarse => assert Pow2(2) == 2.0 * Pow2(1) && Pow2(1) == 2.0 * Pow2(0);
  }

  /** Distinct presets have distinct menu titles. */
  lemma DisplayNamesDistinct(p: DotSizePreset, q: DotSizePreset)
    ensures p.DisplayName() == q.DisplayName() <==> p == q
  {
    if p != q {
      assert p.DisplayName()[0] != q.DisplayName()[0];
    }
  }

  /** What `save()` wrote is what the next launch reads back. */
  lemma LoadPersistedRoundTrip(s: Settings)
    ensures Load(Persisted(s)) == s
  {
    RawValueRoundTrip(s.dotSizePreset);
  }

  /** First launch: disabled, intensity 1.0, and preset `.fine` (missing key reads as 0). */
  lemma FirstLaunchSettings()
    ensures Load(NoDefaults) == Settings(false, Fine, 1.0)
  {
  }

  /** A raw value outside 0...2 loads as `.medium`. */
  lemma UnknownRawLoadsMedium(d: Defaults)
    requires d.dotSizePreset.Some? && !(0 <= d.dotSizePreset.value <= 2)
    ensures Load(d).dotSizePreset == Medium
  {
  }

  /** A persisted intensity outside [0,1] is loaded unclamped. */
  lemma LoadKeepsOutOfRangeIntensity(v: real)
    requires v < 0.0 || 1.0 < v
    ensures Load(Defaults(None, None, Some(v))).intensity == v
    ensures Load(Defaults(None, None, Some(v))).intensity != Clamp(v)
  {
  }

  /** The process-wide settings object `AppState.shared`. */
  class AppState {
    var isEnabled: bool
    var dotSizePreset: DotSizePreset
    var intensity: real
    /** The persisted keys as `UserDefaults.standard` holds them. */
    var defaults: Defaults
    /** Number of `save()` calls so far. */
    var saveCount: nat
    /** Number of change notifications posted so far. */
    var notifyCount: nat

    function Current(): Settings
      reads this
    {
      Settings(isEnabled, dotSizePreset, intensity)
    }

    /** The intensity invariant every setter keeps. */
    predicate InRange()
      reads this
    {
      0.0 <= intensity <= 1.0
    }

    /** Current dot size in pixels, decided by the preset alone: 4, doubled per preset step. */
    function DotSize(): (d: real)
      reads this
      ensures 4.0 <= d <= 16.0
      ensures dotSizePreset.RawValue() >= 0 && d == 4.0 * Pow2(dotSizePreset.RawValue() as nat)
    {
      DotSizeDoublesPerStep(dotSizePreset);
      dotSizePreset.DotSize()
    }

    /** `init()`: reads the persisted keys; saves and notifies nothing. */
    constructor (stored: Defaults)
      ensures Current() == Load(stored)
      ensures InRange() <==> (stored.intensity.None? || 0.0 <= stored.intensity.value <= 1.0)
      ensures defaults == stored && saveCount == 0 && notifyCount == 0
    {
      isEnabled := stored.isEnabled.GetOr(false);
      dotSizePreset := DecodePreset(stored.dotSizePreset.GetOr(0));
      if stored.intensity.Some? {
        intensity := stored.intensity.value;
      } else {
        intensity := 1.0;
      }
      defaults := stored;
      saveCount, notifyCount := 0, 0;
    }

    /** `save()`: writes all three keys from the current settings. */
    method Save()
      modifies this`defaults, this`saveCount
      ensures defaults == Persisted(Current())
      ensures saveCount == old(saveCount) + 1
    {
      defaults := Persisted(Current());
      saveCount := saveCount + 1;
    }

    method NotifyChange()
      modifies this`notifyCount
      ensures notifyCount == old(notifyCount) + 1
    {
      notifyCount := notifyCount + 1;
    }

    /** Writes `isEnabled`; saves and notifies once iff the value changed. */
    method SetIsEnabled(value: bool)
      modifies this`isEnabled, this`defaults, this`saveCount, this`notifyCount
      ensures Current() == old(Current()).(isEnabled := value)
      ensures var changed := old(isEnabled) != value;
        && defaults == (if changed then Persisted(Current()) else old(defaults))
        && saveCount == old(saveCount) + (if changed then 1 else 0)
        && notifyCount == old(notifyCount) + (if changed then 1 else 0)
    {
      var oldValue := isEnabled;
      isEnabled := value;
      if oldValue != isEnabled {
        Save();
        NotifyChange();
      }
    }

    /** Writes `dotSizePreset`; saves and notifies once iff the value changed. */
    method SetDotSizePreset(value: DotSizePreset)
      modifies this`dotSizePreset, this`defaults, this`saveCount, this`notifyCount
      ensures Current() == old(Current()).(dotSizePreset := value)
      ensures var changed := old(dotSizePreset) != value;
        && defaults == (if changed then Persisted(Current()) else old(defaults))
        && saveCount == old(saveCount) + (if changed then 1 else 0)
        && notifyCount == old(notifyCount) + (if changed then 1 else 0)
    {
      var oldValue := dotSizePreset;
      dotSizePreset := value;
      if oldValue != dotSizePreset {
        Save();
        NotifyChange();
      }
    }

    /**
     * Writes `intensity`: the observer clamps the written value and saves and
     * notifies once iff the clamped value differs from the previous one.
     */
    method SetIntensity(value: real)
      modifies this`intensity, this`defaults, this`saveCount, this`notifyCount
      ensures InRange() && intensity == Clamp(value)
      ensures Current() == old(Current()).(intensity := Clamp(value))
      ensures var changed := old(intensity) != Clamp(value);
        && defaults == (if changed then Persisted(Current()) else old(defaults))
        && saveCount == old(saveCount) + (if changed then 1 else 0)
        && notifyCount == old(notifyCount) + (if changed then 1 else 0)
    {
      var oldValue := intensity;
      intensity := value;
      var clamped := if 1.0 < intensity then 1.0 else intensity;
      clamped := if clamped < 0.0 then 0.0 else clamped;
      if intensity != clamped {
        intensity := clamped;
      }
      if oldValue != intensity {
        Save();
        NotifyChange();
      }
    }
  }
}
