/** AC DER control: the validators and the two providers of `ac_der_control.cpp`. */
module AcDerControl {
  import opened Common
  import opened Types
  import opened RationalNumbers

  datatype Reason =
    | NoReason | NonAcDerService | UnsupportedControlMode | UnsupportedMobilityNeeds
    | MissingSelectedFunctions | AcDerDisabled | StaleGridPolicy | StaleDsoControl
    | InvalidGridPolicy | InvalidDsoControl | InvalidEvseCapability
    | MissingSelectedMandatory | MissingSupportedMandatory | UnsupportedSelected

  datatype ProviderResult = ProviderResult(config: Option<DerConfig>, reason: Reason)

  // ----------------------------------------------------------------- functions

  /** All twelve mandatory control functions. */
  predicate HasRequired(f: DerFunctions) {
    f.voltWatt && f.dsoQSetpoint && f.dsoCosPhiSetpoint && f.dcInjection
    && f.underFrequencyWatt && f.overFrequencyWatt && f.voltVar && f.wattVar && f.wattCosPhi
    && f.overVoltageRideThrough && f.underVoltageRideThrough && f.zeroCurrent
  }

  predicate Supports(selected: DerFunctions, supported: DerFunctions) {
    && (selected.voltWatt ==> supported.voltWatt)
    && (selected.dsoQSetpoint ==> supported.dsoQSetpoint)
    && (selected.dsoCosPhiSetpoint ==> supported.dsoCosPhiSetpoint)
    && (selected.dcInjection ==> supported.dcInjection)
    && (selected.underFrequencyWatt ==> supported.underFrequencyWatt)
    && (selected.overFrequencyWatt ==> supported.overFrequencyWatt)
    && (selected.voltVar ==> supported.voltVar)
    && (selected.wattVar ==> supported.wattVar)
    && (selected.wattCosPhi ==> supported.wattCosPhi)
    && (selected.overVoltageRideThrough ==> supported.overVoltageRideThrough)
    && (selected.underVoltageRideThrough ==> supported.underVoltageRideThrough)
    && (selected.zeroCurrent ==> supported.zeroCurrent)
  }

  // ---------------------------------------------------------------- validators

  predicate IsNonNegative(r: Rational) {
    ValueOf(r) >= 0.0
  }

  predicate IsPositive(r: Rational) {
    ValueOf(r) > 0.0
  }

  predicate IsPowerFactor(r: Rational) {
    0.0 <= ValueOf(r) <= 1.0
  }

  predicate OptionalPositive(r: Option<Rational>) {
    r.Some? ==> IsPositive(r.value)
  }

  predicate OptionalPowerFactor(r: Option<Rational>) {
    r.Some? ==> IsPowerFactor(r.value)
  }

  predicate ValidFrequencyWatt(f: FrequencyWatt, under: bool) {
    && IsPositive(f.start) && IsPositive(f.stop)
    && (if under then ValueOf(f.start) > ValueOf(f.stop) else ValueOf(f.start) < ValueOf(f.stop))
    && IsNonNegative(f.slope) && IsNonNegative(f.stepResponse)
  }

  predicate ValidVoltWatt(v: VoltWatt) {
    IsPositive(v.start) && IsPositive(v.stop) && ValueOf(v.start) < ValueOf(v.stop) && IsNonNegative(v.stepResponse)
  }

  /** Every point lies to the right of every earlier point. */
  predicate IncreasingCurve(points: seq<CurvePoint>) {
    forall i, j | 0 <= i < j < |points| :: ValueOf(points[i].x) < ValueOf(points[j].x)
  }

  predicate ValidCurve(c: DerCurve) {
    |c.points| >= 2 && IsNonNegative(c.stepResponse) && IncreasingCurve(c.points)
  }

  /** The loop compares neighbours only, and decides the order of all pairs. */
  method ValidateDerCurve(c: DerCurve) returns (ok: bool)
    ensures ok <==> ValidCurve(c)
  {
    if |c.points| < 2 || !IsNonNegative(c.stepResponse) {
      return false;
    }
    var previousX := ValueOf(c.points[0].x);
    var index := 1;
    while index < |c.points|
      invariant 1 <= index <= |c.points|
      invariant previousX == ValueOf(c.points[index - 1].x)
      invariant IncreasingCurve(c.points[..index])
      invariant forall i | 0 <= i < index - 1 :: ValueOf(c.points[i].x) < previousX
    {
      var currentX := ValueOf(c.points[index].x);
      if currentX <= previousX {
        assert !IncreasingCurve(c.points);
        return false;
      }
      previousX := currentX;
      index := index + 1;
    }
    assert c.points[..index] == c.points;
    return true;
  }

  predicate ValidRideThrough(f: FaultRideThrough) {
    && IsPositive(f.limitStart) && OptionalPositive(f.limitStop) && OptionalPositive(f.recoveryLimit)
    && IsNonNegative(f.activeStepResponse) && IsNonNegative(f.reactiveStepResponse)
  }

  predicate ValidZeroCurrent(z: ZeroCurrent) {
    && (z.overVoltage.Some? || z.underVoltage.Some?)
    && OptionalPositive(z.overVoltage) && OptionalPositive(z.underVoltage)
    && OptionalPositive(z.overRecovery) && OptionalPositive(z.underRecovery)
    && IsNonNegative(z.activeStepResponse) && IsNonNegative(z.reactiveStepResponse)
  }

  predicate ValidQ(q: DsoQSetpoint) {
    IsNonNegative(q.stepResponse)
  }

  predicate ValidCosPhi(c: DsoCosPhiSetpoint) {
    IsPowerFactor(c.value) && OptionalPowerFactor(c.valueL2) && OptionalPowerFactor(c.valueL3)
    && IsNonNegative(c.stepResponse)
  }

  predicate ValidGridPolicy(g: GridPolicy) {
    && ValueOf(g.voltWattStart) < ValueOf(g.voltWattStop)
    && IsPositive(g.voltWattStart) && IsPositive(g.voltWattStop)
    && ValueOf(g.underFrequencyStart) > ValueOf(g.underFrequencyStop)
    && IsPositive(g.underFrequencyStart) && IsPositive(g.underFrequencyStop)
    && ValueOf(g.overFrequencyStart) < ValueOf(g.overFrequencyStop)
    && IsPositive(g.overFrequencyStart) && IsPositive(g.overFrequencyStop)
    && IsNonNegative(g.maxDcInjection)
  }

  predicate ValidDsoControl(d: DsoControl) {
    ValidQ(d.q) && ValidCosPhi(d.cosPhi)
  }

  /** `validate_ac_der_control_config`: each selected function has its valid part. */
  predicate ValidConfig(c: DerConfig, f: DerFunctions) {
    var active, reactive := c.cpd.active, c.cpd.reactive;
    && (f.voltWatt ==>
          active.Some? && active.value.voltWatt.Some? && ValidVoltWatt(active.value.voltWatt.value))
    && (f.underFrequencyWatt ==>
          active.Some? && active.value.underFrequencyWatt.Some?
          && ValidFrequencyWatt(active.value.underFrequencyWatt.value, true))
    && (f.overFrequencyWatt ==>
          active.Some? && active.value.overFrequencyWatt.Some?
          && ValidFrequencyWatt(active.value.overFrequencyWatt.value, false))
    && (f.voltVar ==>
          reactive.Some? && reactive.value.voltVar.Some? && ValidCurve(reactive.value.voltVar.value))
    && (f.wattVar ==>
          reactive.Some? && reactive.value.wattVar.Some? && ValidCurve(reactive.value.wattVar.value))
    && (f.wattCosPhi ==>
          reactive.Some? && reactive.value.wattCosPhi.Some? && ValidCurve(reactive.value.wattCosPhi.value))
    && (f.overVoltageRideThrough ==> c.cpd.overVoltage.Some? && ValidRideThrough(c.cpd.overVoltage.value))
    && (f.underVoltageRideThrough ==> c.cpd.underVoltage.Some? && ValidRideThrough(c.cpd.underVoltage.value))
    && (f.zeroCurrent ==> c.cpd.zeroCurrent.Some? && ValidZeroCurrent(c.cpd.zeroCurrent.value))
    && (f.dcInjection ==> c.cpd.maxDcInjection.Some? && IsNonNegative(c.cpd.maxDcInjection.value))
    && (f.dsoQSetpoint ==> ValidQ(c.q))
    && (f.dsoCosPhiSetpoint ==> ValidCosPhi(c.cosPhi))
  }

  /** `validate_ac_der_secc_control_snapshots`. */
  function SnapshotReason(s: Snapshots): Reason {
    if !s.runtime.enabled then AcDerDisabled
    else if !s.runtime.gridPolicyFresh then StaleGridPolicy
    else if !s.runtime.dsoControlFresh then StaleDsoControl
    else if !s.grid.valid || !ValidGridPolicy(s.grid) then InvalidGridPolicy
    else if !s.dso.valid || !ValidDsoControl(s.dso) then InvalidDsoControl
    else if !s.evse.valid then InvalidEvseCapability
    else if !HasRequired(s.evse.supported) then MissingSupportedMandatory
    else NoReason
  }

  // ------------------------------------------------------------------ providers

  const ZERO := Rational(0, 0)
  const ONE := Rational(1, 0)

  /** `from_float` of a literal of at most four digits. */
  function Literal(digits: int16, exponent: int8): Rational
    requires 0 < digits <= 9999 && -4 <= exponent <= 0
  {
    LiteralInRange(digits, exponent);
    FromFloat(ValueOf(Rational(digits, exponent)))
  }

  lemma {:induction false} LiteralInRange(digits: int16, exponent: int8)
    requires 0 < digits <= 9999 && -4 <= exponent <= 0
    ensures FloatRange(ValueOf(Rational(digits, exponent)))
  {
    ShiftOneMonotone(-45, exponent);
    ShiftOneMonotone(exponent + 4, 39);
    ShiftThousand(exponent);
    ShiftStrict(digits as real, 10000.0, exponent);
    if digits > 1 {
      ShiftStrict(1.0, digits as real, exponent);
    }
    assert Shift(1.0, exponent + 4) < Shift(1.0, 39) by {
      ShiftOneMonotone(exponent + 4, 38);
      ShiftOneMonotone(38, 38);
      ShiftNext(1.0, 38);
    }
  }

  lemma {:induction false} LiteralExact(digits: int16, exponent: int8)
    requires 0 < digits <= 9999 && -4 <= exponent <= 0
    ensures ValueOf(Literal(digits, exponent)) == ValueOf(Rational(digits, exponent)) > 0.0
  {
    LiteralInRange(digits, exponent);
    RoundTrip(Rational(digits, exponent));
    ValueSign(Rational(digits, exponent));
  }

  function MakeCurve(first: Option<Excitation>, second: Option<Excitation>): DerCurve {
    DerCurve([CurvePoint(ZERO, ZERO, first), CurvePoint(ONE, ONE, second)], ZERO)
  }

  function MakeFrequencyWatt(start: Rational, stop: Rational): FrequencyWatt {
    FrequencyWatt(start, stop, ONE, ZERO)
  }

  function MakeRideThrough(): FaultRideThrough {
    FaultRideThrough(Literal(253, 0), None, None, ZERO, ZERO)
  }

  /** `make_default_ac_der_control_config`. */
  function DefaultConfig(): DerConfig {
    DerConfig(
      DerControl(
        Some(MakeRideThrough()),
        Some(MakeRideThrough()),
        Some(ZeroCurrent(Some(Literal(253, 0)), None, None, None, ZERO, ZERO)),
        Some(ReactiveSupport(
               Some(MakeCurve(None, None)),
               Some(MakeCurve(None, None)),
               Some(MakeCurve(Some(OverExcited), Some(UnderExcited))))),
        Some(ActiveSupport(
               Some(MakeFrequencyWatt(Literal(498, -1), Literal(495, -1))),
               Some(MakeFrequencyWatt(Literal(502, -1), Literal(505, -1))),
               Some(VoltWatt(Literal(230, 0), Literal(253, 0), ZERO)))),
        Some(ZERO)),
      DsoQSetpoint(ZERO, None, None, false, ZERO),
      DsoCosPhiSetpoint(ONE, None, None, OverExcited, false, ZERO))
  }

  /** The default configuration overwritten by the snapshots. */
  function SeccConfig(s: Snapshots): DerConfig {
    var default := DefaultConfig();
    DerConfig(
      default.cpd.(
        maxDcInjection := Some(s.grid.maxDcInjection),
        active := Some(ActiveSupport(
                         Some(MakeFrequencyWatt(s.grid.underFrequencyStart, s.grid.underFrequencyStop)),
                         Some(MakeFrequencyWatt(s.grid.overFrequencyStart, s.grid.overFrequencyStop)),
                         Some(VoltWatt(s.grid.voltWattStart, s.grid.voltWattStop, ZERO))))),
      s.dso.q,
      s.dso.cosPhi)
  }

  function SeccResult(s: Snapshots, context: DerContext): ProviderResult {
    if context.service != AC_DER then ProviderResult(None, NonAcDerService)
    else if context.mode != Some(Dynamic) then ProviderResult(None, UnsupportedControlMode)
    else if context.mobility != Some(ProvidedByEvcc) then ProviderResult(None, UnsupportedMobilityNeeds)
    else if context.functions.None? then ProviderResult(None, MissingSelectedFunctions)
    else if SnapshotReason(s) != NoReason then ProviderResult(None, SnapshotReason(s))
    else if !Supports(context.functions.value, s.evse.supported) then ProviderResult(None, UnsupportedSelected)
    else if !HasRequired(context.functions.value) then ProviderResult(None, MissingSelectedMandatory)
    else
      var config := SeccConfig(s);
      if !ValidConfig(config, context.functions.value) then ProviderResult(None, InvalidGridPolicy)
      else ProviderResult(Some(config), NoReason)
  }

  function Provide(p: DerProvider, context: DerContext): ProviderResult {
    match p
    case StaticProvider(config) =>
      if context.service != AC_DER then ProviderResult(None, NonAcDerService)
      else ProviderResult(Some(config), NoReason)
    case SeccProvider(snapshots) => SeccResult(snapshots, context)
  }

  // ----------------------------------------------------------------- properties

  lemma {:induction false} SmallValues()
    ensures ValueOf(ZERO) == 0.0 && ValueOf(ONE) == 1.0
  {
  }

  lemma {:induction false} CurveValid(first: Option<Excitation>, second: Option<Excitation>)
    ensures ValidCurve(MakeCurve(first, second))
  {
    SmallValues();
  }

  /** The parts of the default configuration that the SECC provider keeps are valid. */
  lemma {:induction false} DefaultPartsValid()
    ensures ValidRideThrough(MakeRideThrough())
    ensures ValidZeroCurrent(DefaultConfig().cpd.zeroCurrent.value)
    ensures var r := DefaultConfig().cpd.reactive.value;
      ValidCurve(r.voltVar.value) && ValidCurve(r.wattVar.value) && ValidCurve(r.wattCosPhi.value)
  {
    SmallValues();
    LiteralExact(253, 0);
    CurveValid(None, None);
    CurveValid(Some(OverExcited), Some(UnderExcited));
  }

  /** The configuration used when the integrator gives none validates for every selection. */
  lemma {:induction false} DefaultConfigValid(f: DerFunctions)
    ensures ValidConfig(DefaultConfig(), f)
  {
    SmallValues();
    DefaultPartsValid();
    LiteralExact(230, 0);
    LiteralExact(253, 0);
    LiteralExact(498, -1);
    LiteralExact(495, -1);
    LiteralExact(502, -1);
    LiteralExact(505, -1);
    ShiftStrict(230.0, 253.0, 0);
    ShiftStrict(495.0, 498.0, -1);
    ShiftStrict(502.0, 505.0, -1);
  }

  /** Snapshots that pass their own validation give a configuration valid for every selection. */
  lemma {:induction false} SeccConfigValid(s: Snapshots, f: DerFunctions)
    requires SnapshotReason(s) == NoReason
    ensures ValidConfig(SeccConfig(s), f)
  {
    SmallValues();
    DefaultPartsValid();
  }

  lemma RequiredSupportsAll(f: DerFunctions, all: DerFunctions)
    requires HasRequired(all)
    ensures Supports(f, all)
  {
  }

  lemma SnapshotsSupportAll(s: Snapshots)
    ensures SnapshotReason(s) == NoReason ==> HasRequired(s.evse.supported)
    ensures SnapshotReason(s) != UnsupportedSelected
  {
    hide HasRequired;
  }

  // ------------------------------------------------------- what is granted, in numbers

  /** All twelve functions are set, whatever the bitmaps say. */
  predicate AllTwelve(f: DerFunctions) {
    f == DerFunctions(
      f.standardBitmap, f.extendedBitmap, true, true, true, true, true, true, true, true, true, true, true, true)
  }

  predicate GridInOrder(g: GridPolicy) {
    && 0.0 < ValueOf(g.voltWattStart) < ValueOf(g.voltWattStop)
    && 0.0 < ValueOf(g.underFrequencyStop) < ValueOf(g.underFrequencyStart)
    && 0.0 < ValueOf(g.overFrequencyStart) < ValueOf(g.overFrequencyStop)
    && ValueOf(g.maxDcInjection) >= 0.0
  }

  predicate SetpointsInOrder(q: DsoQSetpoint, cosPhi: DsoCosPhiSetpoint) {
    && ValueOf(q.stepResponse) >= 0.0 && ValueOf(cosPhi.stepResponse) >= 0.0
    && 0.0 <= ValueOf(cosPhi.value) <= 1.0
    && (cosPhi.valueL2.Some? ==> 0.0 <= ValueOf(cosPhi.valueL2.value) <= 1.0)
    && (cosPhi.valueL3.Some? ==> 0.0 <= ValueOf(cosPhi.valueL3.value) <= 1.0)
  }

  /** The conditions on the snapshots, in the order in which they are checked, and what each is refused with. */
  function SnapshotChecks(s: Snapshots): seq<(bool, Reason)> {
    [ (s.runtime.enabled, AcDerDisabled),
      (s.runtime.gridPolicyFresh, StaleGridPolicy),
      (s.runtime.dsoControlFresh, StaleDsoControl),
      (s.grid.valid && GridInOrder(s.grid), InvalidGridPolicy),
      (s.dso.valid && SetpointsInOrder(s.dso.q, s.dso.cosPhi), InvalidDsoControl),
      (s.evse.valid, InvalidEvseCapability),
      (AllTwelve(s.evse.supported), MissingSupportedMandatory) ]
  }

  /** Enabled, fresh, valid, in order, and with every mandatory function supported. */
  predicate Grantable(s: Snapshots) {
    forall check <- SnapshotChecks(s) :: check.0
  }

  lemma PartsExact(s: Snapshots)
    ensures HasRequired(s.evse.supported) <==> AllTwelve(s.evse.supported)
    ensures ValidGridPolicy(s.grid) <==> GridInOrder(s.grid)
    ensures ValidDsoControl(s.dso) <==> SetpointsInOrder(s.dso.q, s.dso.cosPhi)
  {
    hide ValueOf;
  }

  /** Snapshots pass exactly if they meet all conditions, and are refused for the first one that they fail. */
  lemma {:induction false} SnapshotExact(s: Snapshots)
    ensures SnapshotReason(s) == NoReason <==> Grantable(s)
    ensures forall k | 0 <= k < |SnapshotChecks(s)| ::
              SnapshotReason(s) == SnapshotChecks(s)[k].1 <==>
              !SnapshotChecks(s)[k].0 && forall j | 0 <= j < k :: SnapshotChecks(s)[j].0
  {
    hide HasRequired, AllTwelve, ValidGridPolicy, GridInOrder, ValidDsoControl, SetpointsInOrder;
    PartsExact(s);
    var c := SnapshotChecks(s);
    assert Grantable(s) <==> c[0].0 && c[1].0 && c[2].0 && c[3].0 && c[4].0 && c[5].0 && c[6].0;
  }

  predicate ActiveInOrder(a: ActiveSupport) {
    && a.voltWatt.Some? && a.underFrequencyWatt.Some? && a.overFrequencyWatt.Some?
    && var v, u, o := a.voltWatt.value, a.underFrequencyWatt.value, a.overFrequencyWatt.value;
    && 0.0 < ValueOf(v.start) < ValueOf(v.stop) && ValueOf(v.stepResponse) >= 0.0
    && 0.0 < ValueOf(u.stop) < ValueOf(u.start) && ValueOf(u.slope) >= 0.0 && ValueOf(u.stepResponse) >= 0.0
    && 0.0 < ValueOf(o.start) < ValueOf(o.stop) && ValueOf(o.slope) >= 0.0 && ValueOf(o.stepResponse) >= 0.0
  }

  predicate ReactiveInOrder(r: ReactiveSupport) {
    forall curve <- [r.voltVar, r.wattVar, r.wattCosPhi] ::
      && curve.Some? && |curve.value.points| >= 2 && ValueOf(curve.value.stepResponse) >= 0.0
      && IncreasingCurve(curve.value.points)
  }

  predicate FaultsInOrder(c: DerControl) {
    && (forall f <- [c.overVoltage, c.underVoltage] ::
          && f.Some? && ValueOf(f.value.limitStart) > 0.0
          && (f.value.limitStop.Some? ==> ValueOf(f.value.limitStop.value) > 0.0)
          && (f.value.recoveryLimit.Some? ==> ValueOf(f.value.recoveryLimit.value) > 0.0)
          && ValueOf(f.value.activeStepResponse) >= 0.0 && ValueOf(f.value.reactiveStepResponse) >= 0.0)
    && c.zeroCurrent.Some?
    && var z := c.zeroCurrent.value;
    && (z.overVoltage.Some? || z.underVoltage.Some?)
    && (forall limit <- [z.overVoltage, z.underVoltage, z.overRecovery, z.underRecovery] ::
          limit.Some? ==> ValueOf(limit.value) > 0.0)
    && ValueOf(z.activeStepResponse) >= 0.0 && ValueOf(z.reactiveStepResponse) >= 0.0
  }

  /** Every part is there, and every number is on the right side of every other. */
  predicate InOrder(c: DerConfig) {
    && c.cpd.active.Some? && ActiveInOrder(c.cpd.active.value)
    && c.cpd.reactive.Some? && ReactiveInOrder(c.cpd.reactive.value)
    && FaultsInOrder(c.cpd)
    && c.cpd.maxDcInjection.Some? && ValueOf(c.cpd.maxDcInjection.value) >= 0.0
    && SetpointsInOrder(c.q, c.cosPhi)
  }

  lemma {:induction false} ReactiveExact(r: ReactiveSupport)
    ensures ReactiveInOrder(r) <==>
            && r.voltVar.Some? && ValidCurve(r.voltVar.value) && r.wattVar.Some? && ValidCurve(r.wattVar.value)
            && r.wattCosPhi.Some? && ValidCurve(r.wattCosPhi.value)
  {
    hide ValueOf, IncreasingCurve;
    var curves := [r.voltVar, r.wattVar, r.wattCosPhi];
    assert ReactiveInOrder(r) ==> curves[0] in curves && curves[1] in curves && curves[2] in curves;
  }

  lemma {:induction false} FaultsExact(c: DerControl)
    ensures FaultsInOrder(c) <==>
            && c.overVoltage.Some? && ValidRideThrough(c.overVoltage.value)
            && c.underVoltage.Some? && ValidRideThrough(c.underVoltage.value)
            && c.zeroCurrent.Some? && ValidZeroCurrent(c.zeroCurrent.value)
  {
    hide ValueOf;
    var faults := [c.overVoltage, c.underVoltage];
    assert faults[0] in faults && faults[1] in faults;
    if c.zeroCurrent.Some? {
      var z := c.zeroCurrent.value;
      var limits := [z.overVoltage, z.underVoltage, z.overRecovery, z.underRecovery];
      assert limits[0] in limits && limits[1] in limits && limits[2] in limits && limits[3] in limits;
    }
  }

  /** What validation means for a selection of all mandatory functions. */
  lemma {:induction false} ValidConfigExact(c: DerConfig, f: DerFunctions)
    requires AllTwelve(f)
    ensures ValidConfig(c, f) <==> InOrder(c)
  {
    hide ValueOf, ValidCurve, ValidRideThrough, ValidZeroCurrent, ReactiveInOrder, FaultsInOrder;
    FaultsExact(c.cpd);
    if c.cpd.reactive.Some? {
      ReactiveExact(c.cpd.reactive.value);
    }
  }

  predicate TakenFrom(c: DerConfig, s: Snapshots) {
    c.q == s.dso.q && c.cosPhi == s.dso.cosPhi && ControlFrom(c.cpd, s.grid)
  }

  /** Which part of the control values comes from which part of the grid policy. */
  predicate ControlFrom(c: DerControl, g: GridPolicy) {
    && c.maxDcInjection == Some(g.maxDcInjection)
    && c.active.Some? && c.active.value.voltWatt.Some?
    && c.active.value.underFrequencyWatt.Some? && c.active.value.overFrequencyWatt.Some?
    && var v, u, o :=
       c.active.value.voltWatt.value, c.active.value.underFrequencyWatt.value, c.active.value.overFrequencyWatt.value;
    && v.start == g.voltWattStart && v.stop == g.voltWattStop
    && u.start == g.underFrequencyStart && u.stop == g.underFrequencyStop
    && o.start == g.overFrequencyStart && o.stop == g.overFrequencyStop
  }

  /** When, and with what, the SECC provider answers. */
  lemma {:induction false} SeccProviderExact(s: Snapshots, context: DerContext)
    ensures SeccResult(s, context).config.Some? <==>
            && context.service == AC_DER
            && context.mode == Some(Dynamic)
            && context.mobility == Some(ProvidedByEvcc)
            && context.functions.Some? && AllTwelve(context.functions.value)
            && Grantable(s)
    ensures SeccResult(s, context).config.Some? ==>
            var c := SeccResult(s, context).config.value;
            TakenFrom(c, s) && InOrder(c) && forall f: DerFunctions :: ValidConfig(c, f)
    ensures SeccResult(s, context).reason != UnsupportedSelected
    ensures SeccResult(s, context).reason == InvalidGridPolicy ==> !GridInOrder(s.grid) || !s.grid.valid
    ensures SeccResult(s, context).config.Some? <==> SeccResult(s, context).reason == NoReason
  {
    hide SnapshotReason, ValidConfig, HasRequired, Supports, DefaultConfig, InOrder, GridInOrder, SetpointsInOrder, Grantable;
    SnapshotsSupportAll(s);
    SnapshotExact(s);
    assert SnapshotChecks(s)[3].1 == InvalidGridPolicy;
    if context.functions.Some? {
      AllTwelveRequired(context.functions.value);
    }
    if SnapshotReason(s) == NoReason {
      if context.functions.Some? {
        RequiredSupportsAll(context.functions.value, s.evse.supported);
      }
      forall f: DerFunctions
        ensures ValidConfig(SeccConfig(s), f)
      {
        SeccConfigValid(s, f);
      }
      AllTwelveRequired(s.evse.supported);
      ValidConfigExact(SeccConfig(s), s.evse.supported);
    }
  }

  lemma AllTwelveRequired(f: DerFunctions)
    ensures HasRequired(f) <==> AllTwelve(f)
  {
  }
}
