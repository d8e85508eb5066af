/**
 * Configuration resolution (src/Prayers.ts, `_initializer` and
 * `_pramsFromCustomMethod`): a `CalculationsConfig` becomes the calculation
 * parameters handed to the adhan library's astronomical solver.
 *
 * The adhan library's named-method table (`CalculationMethod.UmmAlQura()` and
 * the eleven others) is foreign; it is passed in as `table`.
 */
module Resolution {
  import opened Wrappers
  import opened CalculationsConfig

  datatype Madhab = Shafi | Hanafi

  /** The `method` tag of a parameter set: a named convention, or 'Other'. */
  datatype MethodTag = NamedTag(name: Methods) | Other

  /** adhan's `CalculationParameters`, reduced to the fields the wrapper reads or writes. */
  datatype Params = Params(
    tag: MethodTag,
    fajrAngle: real,
    ishaAngle: real,
    ishaInterval: int,
    maghribAngle: Option<real>,
    madhab: Madhab,
    highLatitudeRule: HighLatitudeRule,
    polarCircleResolution: PolarCircleResolution,
    adjustments: PartialAdjustments,
    methodAdjustments: PartialAdjustments)

  /** JavaScript `x || d` on an optional number: absent and 0 are falsy. */
  function OrReal(x: Option<real>, d: real): real {
    if x.Some? && x.value != 0.0 then x.value else d
  }

  function OrInt(x: Option<int>, d: int): int {
    if x.Some? && x.value != 0 then x.value else d
  }

  /**
   * `new CalculationParameters(fajrAngle, ishaAngle, tag, ishaInterval)`: the
   * arguments land in their fields; every other field takes the library default
   * the wrapper documents (all offsets 0, Shafi, middle of the night, unresolved).
   */
  function NewParameters(fajrAngle: real, ishaAngle: real, tag: MethodTag, ishaInterval: int): Params {
    Params(tag, fajrAngle, ishaAngle, ishaInterval, None, Shafi, MiddleOfTheNight, Unresolved,
           ZERO_ADJUSTMENTS, ZERO_ADJUSTMENTS)
  }

  /** `_pramsFromCustomMethod`: parameters of a custom method, defaulting with `||`. */
  function ParamsFromCustomMethod(cm: CustomMethod): (p: Params)
    ensures p.tag == Other
    ensures cm.fajrAngle.Some? && cm.fajrAngle.value != 0.0 ==> p.fajrAngle == cm.fajrAngle.value
    ensures cm.fajrAngle in {None, Some(0.0)} ==> p.fajrAngle == 18.0
    ensures cm.ishaAngle.Some? && cm.ishaAngle.value != 0.0 ==> p.ishaAngle == cm.ishaAngle.value
    ensures cm.ishaAngle in {None, Some(0.0)} ==> p.ishaAngle == 18.0
    ensures p.ishaInterval == cm.ishaInterval.GetOr(0)
    ensures cm.methodAdjustments.Some? ==> p.methodAdjustments == cm.methodAdjustments.value
    ensures cm.methodAdjustments.None? ==> p.methodAdjustments == ZERO_ADJUSTMENTS
    ensures p.adjustments == ZERO_ADJUSTMENTS && p.madhab == Shafi && p.maghribAngle == None
  {
    var p := NewParameters(OrReal(cm.fajrAngle, 18.0), OrReal(cm.ishaAngle, 18.0), Other,
                           OrInt(cm.ishaInterval, 0));
    if cm.methodAdjustments.Some? then p.(methodAdjustments := cm.methodAdjustments.value) else p
  }

  /** The parameter set the `method` field selects, before the user's options apply. */
  function MethodParams(table: Methods -> Params, calcMethod: MethodValue): Params {
    match calcMethod
    case Named(name) => table(name)
    case Custom(cm) => ParamsFromCustomMethod(cm)
    case Unrecognized => table(UmmAlQura)
  }

  /** `Object.assign(adjustments, overlay)`: the overlay's keys win, all others stay. */
  function Overlay(base: PartialAdjustments, overlay: Option<PartialAdjustments>): (r: PartialAdjustments)
    ensures r.Keys == base.Keys + (if overlay.Some? then overlay.value.Keys else {})
    ensures forall p :: p in r ==>
      r[p] == if overlay.Some? && p in overlay.value then overlay.value[p] else base[p]
  {
    if overlay.Some? then base + overlay.value else base
  }

  /** The whole of `_initializer`'s parameter computation, as one value. */
  function Resolve(table: Methods -> Params, c: Config): (p: Params)
    // The method alone decides tag, angles, interval and method adjustments.
    ensures var b := MethodParams(table, c.calcMethod);
      p.tag == b.tag && p.fajrAngle == b.fajrAngle && p.ishaAngle == b.ishaAngle
      && p.ishaInterval == b.ishaInterval && p.maghribAngle == b.maghribAngle
      && p.methodAdjustments == b.methodAdjustments
    ensures c.calcMethod.Named? ==> MethodParams(table, c.calcMethod) == table(c.calcMethod.name)
    ensures c.calcMethod.Unrecognized? ==> MethodParams(table, c.calcMethod) == table(UmmAlQura)
    // User adjustments overwrite exactly the prayers they mention.
    ensures var b := MethodParams(table, c.calcMethod);
      forall q :: (q in p.adjustments <==> q in b.adjustments || (c.adjustments.Some? && q in c.adjustments.value))
    ensures var b := MethodParams(table, c.calcMethod);
      forall q :: q in p.adjustments ==>
        p.adjustments[q] == if c.adjustments.Some? && q in c.adjustments.value
                            then c.adjustments.value[q] else b.adjustments[q]
    ensures Complete(MethodParams(table, c.calcMethod).adjustments) ==> Complete(p.adjustments)
    // Madhab switches one way only.
    ensures c.asrTime == Some(AsrTime.Hanafi) ==> p.madhab == Madhab.Hanafi
    ensures c.asrTime != Some(AsrTime.Hanafi) ==> p.madhab == MethodParams(table, c.calcMethod).madhab
    ensures p.highLatitudeRule == if c.highLatitudeRule.Some? then c.highLatitudeRule.value else MiddleOfTheNight
    ensures p.polarCircleResolution == if c.polarCircleResolution.Some? then c.polarCircleResolution.value else Unresolved
  {
    var b := MethodParams(table, c.calcMethod);
    b.(adjustments := Overlay(b.adjustments, c.adjustments),
       madhab := if c.asrTime == Some(AsrTime.Hanafi) then Madhab.Hanafi else b.madhab,
       highLatitudeRule := c.highLatitudeRule.GetOr(MiddleOfTheNight),
       polarCircleResolution := c.polarCircleResolution.GetOr(Unresolved))
  }

  /**
   * `_initializer`'s steps: pick the method's parameters, then update their
   * adjustments, madhab, high-latitude rule and polar-circle resolution in turn.
   */
  method ResolveParameters(table: Methods -> Params, c: Config) returns (p: Params)
    ensures p == Resolve(table, c)
  {
    match c.calcMethod {
      case Named(m) =>
        p := table(m);
      case Custom(cm) =>
        p := ParamsFromCustomMethod(cm);
      case Unrecognized =>
        p := table(UmmAlQura);
    }
    if c.adjustments.Some? {
      p := p.(adjustments := p.adjustments + c.adjustments.value);
    }
    if c.asrTime == Some(AsrTime.Hanafi) {
      p := p.(madhab := Madhab.Hanafi);
    }
    p := p.(highLatitudeRule := c.highLatitudeRule.GetOr(MiddleOfTheNight));
    p := p.(polarCircleResolution := c.polarCircleResolution.GetOr(Unresolved));
  }

  /** An unrecognised method value resolves exactly as UMM_AL_QURA does. */
  lemma UnrecognizedIsUmmAlQura(table: Methods -> Params, c: Config)
    requires c.calcMethod.Unrecognized?
    ensures Resolve(table, c) == Resolve(table, c.(calcMethod := Named(UmmAlQura)))
  {
  }

  /** A well-typed configuration takes its base parameters from the table or the custom record. */
  lemma WellTypedMethodParams(table: Methods -> Params, c: Config)
    requires WellTyped(c)
    ensures MethodParams(table, c.calcMethod) ==
      if c.calcMethod.Named? then table(c.calcMethod.name) else ParamsFromCustomMethod(c.calcMethod.custom)
  {
  }

  /** A custom angle of 0 is falsy and therefore treated as absent. */
  lemma ZeroAngleIsAbsent(cm: CustomMethod)
    ensures ParamsFromCustomMethod(cm.(fajrAngle := Some(0.0))) == ParamsFromCustomMethod(cm.(fajrAngle := None))
    ensures ParamsFromCustomMethod(cm.(ishaAngle := Some(0.0))) == ParamsFromCustomMethod(cm.(ishaAngle := None))
  {
  }

  /** The custom `maghribAngle` is accepted but never read. */
  lemma MaghribAngleIgnored(cm: CustomMethod, a: Option<real>)
    ensures ParamsFromCustomMethod(cm.(maghribAngle := a)) == ParamsFromCustomMethod(cm)
  {
  }

  /**
   * The documented `CustomMethod` defaults: omitting a field resolves as
   * supplying 18, 18, 0, 0 and all-zero method adjustments.
   */
  lemma CustomMethodDefaults()
    ensures ParamsFromCustomMethod(CustomMethod(None, None, None, None, None))
         == ParamsFromCustomMethod(CustomMethod(Some(18.0), Some(18.0), Some(0), Some(0.0), Some(ZERO_ADJUSTMENTS)))
  {
  }

  /** Supplied method adjustments replace the whole record, even an empty one. */
  lemma MethodAdjustmentsReplaced(cm: CustomMethod, m: PartialAdjustments)
    ensures ParamsFromCustomMethod(cm.(methodAdjustments := Some(m))).methodAdjustments == m
  {
  }

  /** Omitted `asrTime` resolves as JUMHOUR. */
  lemma OmittedAsrTimeIsJumhour(table: Methods -> Params, c: Config)
    ensures Resolve(table, c.(asrTime := None)) == Resolve(table, c.(asrTime := Some(Jumhour)))
  {
  }

  /** Omitted `highLatitudeRule` resolves as MiddleOfTheNight. */
  lemma OmittedHighLatitudeRuleIsMiddleOfTheNight(table: Methods -> Params, c: Config)
    ensures Resolve(table, c.(highLatitudeRule := None))
         == Resolve(table, c.(highLatitudeRule := Some(MiddleOfTheNight)))
  {
  }

  /** Omitted `polarCircleResolution` resolves as Unresolved. */
  lemma OmittedPolarCircleResolutionIsUnresolved(table: Methods -> Params, c: Config)
    ensures Resolve(table, c.(polarCircleResolution := None))
         == Resolve(table, c.(polarCircleResolution := Some(Unresolved)))
  {
  }

  /**
   * Omitted `adjustments` resolves as all-zero adjustments whenever the method's
   * own parameter set starts from the library's all-zero adjustments (always
   * so for a custom method).
   */
  lemma OmittedAdjustmentsAreZero(table: Methods -> Params, c: Config)
    requires c.calcMethod.Custom? || MethodParams(table, c.calcMethod).adjustments == ZERO_ADJUSTMENTS
    ensures Resolve(table, c.(adjustments := None)).adjustments == ZERO_ADJUSTMENTS
    ensures Resolve(table, c.(adjustments := None)) == Resolve(table, c.(adjustments := Some(ZERO_ADJUSTMENTS)))
  {
  }

  /** Resolution never looks at date or coordinates. */
  lemma ResolveIgnoresPlaceAndDate(table: Methods -> Params, c: Config, date: int, latitude: real, longitude: real)
    ensures Resolve(table, c.(date := date, latitude := latitude, longitude := longitude)) == Resolve(table, c)
  {
  }
}
