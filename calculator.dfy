/**
 * The `PrayerTimesCalculator` class (src/Prayers.ts): it keeps the caller's
 * configuration object by reference, resolves it into calculation parameters
 * for the adhan solver, lists the day's prayer times and hands out the adhan
 * stream.
 *
 * The adhan library is foreign: its named-method table and its solver are the
 * two functions of an `Adhan` value given to the constructor.
 */
module Calculator {
  import opened Wrappers
  import opened CalculationsConfig
  import opened Resolution
  import opened AdhanScheduler

  /** What `new PrayerTimes(new Coordinates(latitude, longitude), date, params)` is built from. */
  datatype SolverInput = SolverInput(latitude: real, longitude: real, date: int, params: Params)

  /** The solver's six prayer times, in epoch milliseconds. */
  datatype DayTimes = DayTimes(fajr: int, sunrise: int, dhuhr: int, asr: int, maghrib: int, isha: int)

  /** The parts of the adhan library the calculator calls. */
  datatype Adhan = Adhan(methodParams: Methods -> Params, solve: SolverInput -> DayTimes)

  function TimeOf(day: DayTimes, p: Prayer): int {
    match p
    case Fajr => day.fajr
    case Sunrise => day.sunrise
    case Dhuhr => day.dhuhr
    case Asr => day.asr
    case Maghrib => day.maghrib
    case Isha => day.isha
  }

  /** The solver input `_initializer` builds for a configuration. */
  function SolverInputFor(adhan: Adhan, c: Config): SolverInput {
    SolverInput(c.latitude, c.longitude, c.date, Resolve(adhan.methodParams, c))
  }

  /** `Partial<CalculationsConfig>`: the fields a `setCalculationOptions` call supplies. */
  datatype ConfigPatch = ConfigPatch(
    date: Option<int>,
    latitude: Option<real>,
    longitude: Option<real>,
    calcMethod: Option<MethodValue>,
    adjustments: Option<PartialAdjustments>,
    highLatitudeRule: Option<HighLatitudeRule>,
    asrTime: Option<AsrTime>,
    polarCircleResolution: Option<PolarCircleResolution>)

  const EMPTY_PATCH := ConfigPatch(None, None, None, None, None, None, None, None)

  /** `Object.assign(config, patch)` on values: the patch's fields overwrite, the rest stay. */
  function ApplyPatch(c: Config, patch: ConfigPatch): (r: Config)
    ensures patch.date.Some? ==> r.date == patch.date.value
    ensures patch.date.None? ==> r.date == c.date
    ensures patch.latitude.Some? ==> r.latitude == patch.latitude.value
    ensures patch.latitude.None? ==> r.latitude == c.latitude
    ensures patch.longitude.Some? ==> r.longitude == patch.longitude.value
    ensures patch.longitude.None? ==> r.longitude == c.longitude
    ensures patch.calcMethod.Some? ==> r.calcMethod == patch.calcMethod.value
    ensures patch.calcMethod.None? ==> r.calcMethod == c.calcMethod
    ensures r.adjustments == if patch.adjustments.Some? then patch.adjustments else c.adjustments
    ensures r.highLatitudeRule == if patch.highLatitudeRule.Some? then patch.highLatitudeRule else c.highLatitudeRule
    ensures r.asrTime == if patch.asrTime.Some? then patch.asrTime else c.asrTime
    ensures r.polarCircleResolution ==
      if patch.polarCircleResolution.Some? then patch.polarCircleResolution else c.polarCircleResolution
  {
    Config(
      patch.date.GetOr(c.date),
      patch.latitude.GetOr(c.latitude),
      patch.longitude.GetOr(c.longitude),
      patch.calcMethod.GetOr(c.calcMethod),
      if patch.adjustments.Some? then patch.adjustments else c.adjustments,
      if patch.highLatitudeRule.Some? then patch.highLatitudeRule else c.highLatitudeRule,
      if patch.asrTime.Some? then patch.asrTime else c.asrTime,
      if patch.polarCircleResolution.Some? then patch.polarCircleResolution else c.polarCircleResolution)
  }

  /** An empty patch changes nothing, and applying a patch twice is applying it once. */
  lemma ApplyPatchLaws(c: Config, patch: ConfigPatch)
    ensures ApplyPatch(c, EMPTY_PATCH) == c
    ensures ApplyPatch(ApplyPatch(c, patch), patch) == ApplyPatch(c, patch)
  {
  }

  /** A `CalculationsConfig` object; callers and the calculator share it by reference. */
  class ConfigObject {
    var date: int
    var latitude: real
    var longitude: real
    var calcMethod: MethodValue
    var adjustments: Option<PartialAdjustments>
    var highLatitudeRule: Option<HighLatitudeRule>
    var asrTime: Option<AsrTime>
    var polarCircleResolution: Option<PolarCircleResolution>

    function Value(): Config
      reads this
    {
      Config(date, latitude, longitude, calcMethod, adjustments, highLatitudeRule, asrTime, polarCircleResolution)
    }

    constructor (c: Config)
      ensures Value() == c
    {
      date, latitude, longitude, calcMethod := c.date, c.latitude, c.longitude, c.calcMethod;
      adjustments, highLatitudeRule := c.adjustments, c.highLatitudeRule;
      asrTime, polarCircleResolution := c.asrTime, c.polarCircleResolution;
    }

    /** `Object.assign(this, patch)`: overwrites the fields the patch supplies, in place. */
    method Assign(patch: ConfigPatch)
      modifies this
      ensures Value() == ApplyPatch(old(Value()), patch)
    {
      if patch.date.Some? { date := patch.date.value; }
      if patch.latitude.Some? { latitude := patch.latitude.value; }
      if patch.longitude.Some? { longitude := patch.longitude.value; }
      if patch.calcMethod.Some? { calcMethod := patch.calcMethod.value; }
      if patch.adjustments.Some? { adjustments := patch.adjustments; }
      if patch.highLatitudeRule.Some? { highLatitudeRule := patch.highLatitudeRule; }
      if patch.asrTime.Some? { asrTime := patch.asrTime; }
      if patch.polarCircleResolution.Some? { polarCircleResolution := patch.polarCircleResolution; }
    }
  }

  class PrayerTimesCalculator {
    const adhan: Adhan
    /** The caller's configuration object itself, not a copy. */
    var config: ConfigObject
    /** The adhan `PrayerTimes` object, represented by what it was built from. */
    var prayerTimes: SolverInput

    /**
     * The solver input matches the configuration object's current contents.
     * A caller that mutates its object directly breaks this until the next
     * `SetCalculationOptions`.
     */
    ghost predicate Valid()
      reads this, config
    {
      prayerTimes == SolverInputFor(adhan, config.Value())
    }

    constructor (adhan: Adhan, config: ConfigObject)
      ensures this.adhan == adhan && this.config == config && Valid()
    {
      this.adhan := adhan;
      this.config := config;
      new;
      Initialize(config);
    }

    /** `_initializer`: keep the object, resolve its parameters, build the solver input. */
    method Initialize(config: ConfigObject)
      modifies this
      ensures this.config == config
      ensures prayerTimes.params == Resolve(adhan.methodParams, config.Value())
      ensures Valid()
    {
      this.config := config;
      var c := config.Value();
      var params := ResolveParameters(adhan.methodParams, c);
      prayerTimes := SolverInput(c.latitude, c.longitude, c.date, params);
    }

    /** Returns the very object the calculator holds. */
    method GetCalculationOptions() returns (c: ConfigObject)
      ensures c == config
    {
      c := config;
    }

    /** Overwrites the patch's fields on the held object in place, then resolves again. */
    method SetCalculationOptions(patch: ConfigPatch)
      modifies this, config
      ensures config == old(config)
      ensures config.Value() == ApplyPatch(old(config.Value()), patch)
      ensures Valid()
    {
      var target := config;
      target.Assign(patch);
      Initialize(target);
    }

    /** The solver's six times, keyed Fajr through Isha in that order. */
    function GetAllPrayerTimes(): (times: seq<PrayerTime>)
      reads this
      ensures InPrayerOrder(times)
      ensures forall i :: 0 <= i < |times| ==> times[i].time == TimeOf(adhan.solve(prayerTimes), times[i].prayer)
    {
      var day := adhan.solve(prayerTimes);
      [PrayerTime(Fajr, day.fajr), PrayerTime(Sunrise, day.sunrise), PrayerTime(Dhuhr, day.dhuhr),
       PrayerTime(Asr, day.asr), PrayerTime(Maghrib, day.maghrib), PrayerTime(Isha, day.isha)]
    }

    /** Captures the prayer times now; subscribing later schedules from these. */
    method ListenToAdhan() returns (stream: AdhanStream)
      ensures stream.times == GetAllPrayerTimes()
      ensures InPrayerOrder(stream.times)
    {
      stream := AdhanStream(GetAllPrayerTimes());
    }
  }

  /**
   * A stream obtained before a reconfiguration still schedules from the times
   * captured when `ListenToAdhan` was called.
   */
  method ListenThenReconfigure(calculator: PrayerTimesCalculator, patch: ConfigPatch, now: int) returns (plan: Plan)
    modifies calculator, calculator.config
    ensures plan == PlanFor(old(calculator.GetAllPrayerTimes()), now)
  {
    var stream := calculator.ListenToAdhan();
    calculator.SetCalculationOptions(patch);
    plan := Subscribe(stream, now);
  }

  /**
   * Sharing by reference: a caller's direct change to its object is visible
   * through `GetCalculationOptions`, but the parameters stay stale until
   * `SetCalculationOptions` runs.
   */
  method SharedConfigObject(adhan: Adhan, c: Config)
    requires c.asrTime.None? && Resolve(adhan.methodParams, c).madhab == Shafi
  {
    var shared := new ConfigObject(c);
    var calculator := new PrayerTimesCalculator(adhan, shared);
    shared.asrTime := Some(AsrTime.Hanafi);
    var seen := calculator.GetCalculationOptions();
    assert seen == shared && seen.asrTime == Some(AsrTime.Hanafi);
    assert calculator.prayerTimes.params.madhab == Shafi;
    calculator.SetCalculationOptions(EMPTY_PATCH);
    assert calculator.prayerTimes.params.madhab == Madhab.Hanafi;
  }
}
