/**
 * The configuration a caller hands to the prayer-times calculator
 * (src/types/CalculationsConfig.ts), with the enumerations it refers to.
 * Optional fields are `Option`s; nothing here has behaviour of its own.
 */
module CalculationsConfig {
  import opened Wrappers

  /** The six prayers whose times the adhan library computes. */
  datatype Prayer = Fajr | Sunrise | Dhuhr | Asr | Maghrib | Isha

  /** The order in which the calculator lists its prayer times. */
  const PRAYER_ORDER: seq<Prayer> := [Fajr, Sunrise, Dhuhr, Asr, Maghrib, Isha]

  /** The twelve named calculation conventions (the `Methods` enumeration). */
  datatype Methods =
    | UmmAlQura | MuslimWorldLeague | MoonsightingCommittee | Kuwait
    | Qatar | Egyptian | Karachi | Dubai
    | Singapore | NorthAmerica | Tehran | Turkey

  /** Earlier (Jumhour) or later (Hanafi) Asr. */
  datatype AsrTime = Jumhour | Hanafi

  datatype HighLatitudeRule = MiddleOfTheNight | SeventhOfTheNight | TwilightAngle

  datatype PolarCircleResolution = AqrabBalad | AqrabYaum | Unresolved

  /** `Partial<PrayerAdjustments>`: signed minute offsets for the prayers present only. */
  type PartialAdjustments = map<Prayer, int>

  /** `{ fajr: 0, sunrise: 0, dhuhr: 0, asr: 0, maghrib: 0, isha: 0 }` */
  const ZERO_ADJUSTMENTS: PartialAdjustments :=
    map[Fajr := 0, Sunrise := 0, Dhuhr := 0, Asr := 0, Maghrib := 0, Isha := 0]

  /** An adjustments record that has an entry for every prayer. */
  predicate Complete(m: PartialAdjustments) {
    forall p: Prayer :: p in m
  }

  /** A user-defined convention; every field may be omitted. */
  datatype CustomMethod = CustomMethod(
    fajrAngle: Option<real>,
    ishaAngle: Option<real>,
    ishaInterval: Option<int>,
    maghribAngle: Option<real>,
    methodAdjustments: Option<PartialAdjustments>)

  /**
   * The value found in the `method` field. Its declared type admits a named
   * method or a custom record; `Unrecognized` stands for any other value the
   * field can hold at run time (a string outside the enumeration, `undefined`).
   */
  datatype MethodValue = Named(name: Methods) | Custom(custom: CustomMethod) | Unrecognized

  /** The value of a `CalculationsConfig` object; `date` is in epoch milliseconds. */
  datatype Config = Config(
    date: int,
    latitude: real,
    longitude: real,
    calcMethod: MethodValue,
    adjustments: Option<PartialAdjustments>,
    highLatitudeRule: Option<HighLatitudeRule>,
    asrTime: Option<AsrTime>,
    polarCircleResolution: Option<PolarCircleResolution>)

  /** The configuration respects its declared type: the method is named or custom. */
  predicate WellTyped(c: Config) {
    c.calcMethod.Named? || c.calcMethod.Custom?
  }
}
