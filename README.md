# Prayers.ts in Dafny

A model of the core of `PrayerTimesCalculator`, a thin TypeScript wrapper around the adhan
prayer-times library. The model covers two pieces, plus the configuration records they read.

- **Configuration resolution.** A `CalculationsConfig` becomes the adhan `CalculationParameters`
  (`Resolution.Params`). A named method selects its parameters from the library's table. A custom
  method is built with JavaScript `||` defaults, so a supplied `0` also takes the default. Any other
  `method` value falls back to UMM_AL_QURA. After that, the user's sparse `adjustments` are laid over
  the parameter set's `adjustments` record key by key, overwriting rather than adding;
  `methodAdjustments` stays as the method set it. `asrTime` HANAFI switches the madhab to Hanafi, and the
  high-latitude rule and polar-circle resolution get their defaults.
- **Adhan scheduling.** The stream returned by `listenToAdhan` holds the six prayer times captured
  when it was created. Each subscription reads `now` once and registers a timer with delay
  `time - now` for every prayer whose delay is non-negative. Only Isha's timer completes the stream.
  When no prayer qualifies, the subscription emits the `None` sentinel and completes at once.
  The model computes this plan (`AdhanScheduler.Plan`) and the event trace seen when the timers fire.

The class keeps the caller's configuration object by reference (`Calculator.ConfigObject`).
`GetCalculationOptions` returns that same object, and `SetCalculationOptions` overwrites the patched
fields in place and resolves again. `Calculator.SharedConfigObject` is a client scenario: a caller's
direct change to its object shows through `GetCalculationOptions`, but the parameters stay stale
until the next `SetCalculationOptions`.

The adhan library is foreign code. Its named-method table (`Methods -> Params`) and its astronomical
solver (`SolverInput -> DayTimes`) are the two functions of the `Calculator.Adhan` value given to the
constructor. `method` is a Dafny keyword, so the configuration's `method` field is called `calcMethod`.

Files: `wrappers.dfy` (Option), `calculations_config.dfy` (src/types/CalculationsConfig.ts),
`resolution.dfy` (`_initializer` and `_pramsFromCustomMethod`), `scheduler.dfy` (the loop in
`listenToAdhan`), and `calculator.dfy` (the class).

Notes on the code's behaviour (src/Prayers.ts):
- User adjustments are copied into `calculationParams.adjustments` with `Object.assign` (line 68):
  each supplied key overwrites the value there; `methodAdjustments` is never touched by them.
- Without HANAFI, the madhab keeps whatever the method's parameters hold (lines 71-73).
- `listenToAdhan` registers no teardown and no `clearTimeout` (lines 154-181).
- The sentinel test compares the index with `length - 1` (line 175), so the sentinel fires exactly
  when a non-empty scan found no due prayer.

## Model

| member | source | states |
|---|---|---|
| Resolution.ParamsFromCustomMethod | src/Prayers.ts:84-99 | tag is 'Other'; a supplied non-zero angle is kept, an absent or zero angle becomes 18; the Isha interval is the supplied one or 0; supplied method adjustments replace the record wholesale, otherwise it stays all zero; user adjustments start at zero, madhab Shafi, no maghrib angle |
| Resolution.Overlay | src/Prayers.ts:67-69 | the result's keys are the base keys plus the overlay keys; an overlay key takes the overlay's value, every other key keeps the base value; no overlay changes nothing |
| Resolution.Resolve | src/Prayers.ts:34-79 | a named method takes the table entry and an unrecognised value takes UMM_AL_QURA's; tag, angles, interval and method adjustments come from the method alone; user adjustments overwrite exactly their keys and keep a complete record complete; madhab is Hanafi when asrTime is HANAFI and the method's otherwise; high-latitude rule and polar resolution are the supplied value or MiddleOfTheNight / Unresolved |
| Resolution.ResolveParameters | src/Prayers.ts:27-80 | the step-by-step updates (method dispatch, adjustments, madhab, high-latitude rule, polar resolution) yield exactly `Resolve` |
| Resolution.UnrecognizedIsUmmAlQura | src/Prayers.ts:62-65 | a method value that is neither named nor a record resolves exactly as UMM_AL_QURA |
| Resolution.WellTypedMethodParams | src/types/CalculationsConfig.ts:12-13 | a method of the declared type is named (table entry) or custom (custom parameters) |
| Resolution.ZeroAngleIsAbsent | src/Prayers.ts:86-87 | a custom Fajr or Isha angle of 0 resolves as if it were omitted |
| Resolution.MaghribAngleIgnored | src/types/CalculationsConfig.ts:53-57 | the custom maghribAngle never changes the resolved parameters |
| Resolution.CustomMethodDefaults | src/types/CalculationsConfig.ts:38-62 | an empty custom method resolves as one supplying 18, 18, 0, 0 and all-zero method adjustments |
| Resolution.MethodAdjustmentsReplaced | src/Prayers.ts:91-96 | supplied method adjustments become the record as given, with no per-key merge, even when empty |
| Resolution.OmittedAsrTimeIsJumhour | src/types/CalculationsConfig.ts:24-28 | omitting asrTime resolves as JUMHOUR |
| Resolution.OmittedHighLatitudeRuleIsMiddleOfTheNight | src/types/CalculationsConfig.ts:19-23 | omitting highLatitudeRule resolves as MiddleOfTheNight |
| Resolution.OmittedPolarCircleResolutionIsUnresolved | src/types/CalculationsConfig.ts:29-34 | omitting polarCircleResolution resolves as Unresolved |
| Resolution.OmittedAdjustmentsAreZero | src/types/CalculationsConfig.ts:14-18 | when the method's parameters start with zero adjustments (always for a custom method), omitting adjustments leaves every offset 0, the same as supplying zeros |
| Resolution.ResolveIgnoresPlaceAndDate | src/Prayers.ts:29-32 | date and coordinates do not influence the parameters; they go only to the solver |
| AdhanScheduler.Subscribe | src/Prayers.ts:155-179 | the `tooLate` loop produces exactly `PlanFor`: the timers of the due prayers in key order, and the sentinel iff the times are non-empty and all passed |
| AdhanScheduler.DueIsRegistered | src/Prayers.ts:162-173 | every prayer with `time - now >= 0` (0 included) gets a timer with that delay, completing iff it is Isha |
| AdhanScheduler.RegisteredIsDue | src/Prayers.ts:162-172 | every timer belongs to a listed prayer whose time is now plus its delay, and it completes iff its prayer is Isha |
| AdhanScheduler.PassedIsNotRegistered | src/Prayers.ts:165-173 | with one time per prayer, a prayer whose time has passed gets no timer |
| AdhanScheduler.NoTimersIffAllPassed | src/Prayers.ts:156-166 | no timer is registered iff every prayer time has passed |
| AdhanScheduler.SentinelIffNoTimers | src/Prayers.ts:175-178 | the sentinel is emitted iff no timer was registered |
| AdhanScheduler.IncreasingTimesFireInOrder | src/Prayers.ts:160-172 | with increasing prayer times the registered delays strictly increase, so timers fire in key order |
| AdhanScheduler.IshaTimerLast | src/Prayers.ts:171 | for an increasing day with some prayer due, Isha's completing timer is the last one, and no earlier timer completes |
| AdhanScheduler.CompletesOnceAtEnd | src/Prayers.ts:168-178 | for an increasing day the trace ends in exactly one completion, with nothing after it |
| AdhanScheduler.AllDueTimers | src/Prayers.ts:160-173 | when every time is due, there is one timer per prayer, in key order, with delay `time - now` |
| AdhanScheduler.EveryPrayerInOrder | src/Prayers.ts:160-179 | subscribing no later than Fajr of an increasing day yields Fajr, Sunrise, Dhuhr, Asr, Maghrib, Isha, then completion |
| AdhanScheduler.NothingLeftAfterIsha | src/Prayers.ts:175-178 | subscribing after Isha registers no timer and yields only the sentinel and completion |
| Calculator.ApplyPatch | src/Prayers.ts:145 | each field the patch supplies is overwritten and every other field is kept |
| Calculator.ApplyPatchLaws | src/Prayers.ts:145 | an empty patch changes nothing; applying a patch twice equals applying it once |
| Calculator.ConfigObject.Assign | src/Prayers.ts:145 | the object's new contents are the patch applied to its old contents |
| Calculator.PrayerTimesCalculator.constructor | src/Prayers.ts:23-25 | the calculator holds the caller's object itself, and its solver input matches that object |
| Calculator.PrayerTimesCalculator.Initialize | src/Prayers.ts:27-82 | stores the object and builds the solver input from its coordinates, its date and `Resolve` of its contents |
| Calculator.PrayerTimesCalculator.GetCalculationOptions | src/Prayers.ts:140-142 | returns the very object the calculator holds |
| Calculator.PrayerTimesCalculator.SetCalculationOptions | src/Prayers.ts:144-147 | the same object now holds the patch applied to its old contents, and the solver input is resolved again from it |
| Calculator.PrayerTimesCalculator.GetAllPrayerTimes | src/Prayers.ts:125-134 | six entries keyed Fajr to Isha in that order, each carrying the solver's time for that prayer |
| Calculator.PrayerTimesCalculator.ListenToAdhan | src/Prayers.ts:151-152 | the stream holds the prayer times current at the call |
| Calculator.ListenThenReconfigure | src/Prayers.ts:151-158 | a subscription made after a reconfiguration still schedules from the times captured by `listenToAdhan` |

## Left out

- `getCurrentPrayerName`, `getNextPrayerName`, `getCurrentPrayerTime`, `getNextPrayerTime`, `getPrayerTime` (src/Prayers.ts:101-123, 136-138): they only delegate to the adhan solver.
- The adhan library: the concrete angles and adjustments of the twelve named methods, `Coordinates`, and the `PrayerTimes` solver. These are floating-point astronomy in foreign code, so they are parameters of the model.
- Resolution.NewParameters: the body of adhan's `CalculationParameters` constructor is foreign. The model assumes the parameter order the call site uses, (fajrAngle, ishaAngle, method name, ishaInterval), and gives every other field the default the wrapper documents: zero offsets, Shafi, MiddleOfTheNight, Unresolved and no maghrib angle. The angle and interval clauses of the Resolution.ParamsFromCustomMethod and Resolution.CustomMethodDefaults rows depend on that assumed order.
- RxJS and timers: `defer`, `Observable` delivery and `setTimeout` firing. The model computes the plan and an idealised trace.
- AdhanScheduler.Trace: defined only when the registered delays increase, because then registration order is firing order. It does not model out-of-order firing for unsorted times, or RxJS dropping events after completion.
- `console.log` output (src/Prayers.ts:159, 164).
- src/Formatter.ts, src/types/FormatterConfig.ts and index.ts: locale formatting over `Intl` and demo wiring. src/types/Methods.ts and src/types/AsrTime.ts are not part of this model; their enumerations appear as datatypes.
- Numbers: angles are `real`; minutes (`ishaInterval`, adjustments) are `int`; dates and prayer times are epoch milliseconds as `int`. NaN and -0, which `||` also treats as falsy, are not modelled.
- JavaScript-only edge cases: a `null` method reaching the custom path through `typeof 'object'`; patch or adjustment keys given explicitly as `undefined`, which `Object.assign` would copy.
- Later mutation, by the caller, of the custom-method record or the adjustments objects: the model treats those nested records as values.
