/** Data types shared by the session layers: services, parameter sets, requests,
    responses, control events. Every message is already decoded. */
module Types {
  import opened Common

  // ---------------------------------------------------------------- identifiers

  /** The eight bytes of a session id, read as one number. */
  type SessionId = x: int | 0 <= x < 0x1_0000_0000_0000_0000

  /** SHA-512 of the vehicle certificate, never inspected. */
  type CertHash = nat

  /** SHA-512 of id and certificate hash, taken as injective. */
  datatype Digest = Digest(cert: CertHash, id: SessionId)

  // ------------------------------------------------------------------- services

  /** `ServiceCategory` is a `uint16_t` enum, and the wire can carry any value of it. */
  type Service = uint16

  const AC: Service := 1
  const DC: Service := 2
  const AC_BPT: Service := 5
  const DC_BPT: Service := 6
  const MCS: Service := 8
  const MCS_BPT: Service := 9
  const AC_DER: Service := 10
  const INTERNET: Service := 65
  const PARKING_STATUS: Service := 66

  predicate IsAcService(s: Service) {
    s == AC || s == AC_BPT || s == AC_DER
  }

  predicate IsDcService(s: Service) {
    s == DC || s == DC_BPT || s == MCS || s == MCS_BPT
  }

  /** Ids 1 to 10 are energy services; 3, 4 and 7 (WPT, ACDP) have no parameter sets. */
  predicate IsEnergyService(s: Service) {
    1 <= s <= 10
  }

  datatype Authorization = EIM | PnC
  datatype ControlMode = Scheduled | Dynamic
  datatype MobilityNeeds = ProvidedByEvcc | ProvidedBySecc
  datatype Pricing = NoPricing | AbsolutePricing | PriceLevels
  datatype BptChannel = Unified | Separated
  datatype GeneratorMode = GridFollowing | GridForming
  datatype GridCode = Active | Passive

  datatype Connector =
    | AcConnector(phases: nat)
    | DcConnector(kind: nat)
    | McsConnector(kind: nat)

  datatype Rational = Rational(value: int16, exponent: int8)

  // ------------------------------------------------------- AC DER control values

  datatype DerFunctions = DerFunctions(
    standardBitmap: uint32,
    extendedBitmap: uint32,
    voltWatt: bool,
    dsoQSetpoint: bool,
    dsoCosPhiSetpoint: bool,
    dcInjection: bool,
    underFrequencyWatt: bool,
    overFrequencyWatt: bool,
    voltVar: bool,
    wattVar: bool,
    wattCosPhi: bool,
    overVoltageRideThrough: bool,
    underVoltageRideThrough: bool,
    zeroCurrent: bool)

  datatype Excitation = OverExcited | UnderExcited

  datatype DsoQSetpoint = DsoQSetpoint(
    value: Rational, valueL2: Option<Rational>, valueL3: Option<Rational>,
    pt1: bool, stepResponse: Rational)

  datatype DsoCosPhiSetpoint = DsoCosPhiSetpoint(
    value: Rational, valueL2: Option<Rational>, valueL3: Option<Rational>,
    excitation: Excitation, pt1: bool, stepResponse: Rational)

  datatype CurvePoint = CurvePoint(x: Rational, y: Rational, excitation: Option<Excitation>)

  datatype DerCurve = DerCurve(points: seq<CurvePoint>, stepResponse: Rational)

  datatype FrequencyWatt = FrequencyWatt(
    start: Rational, stop: Rational, slope: Rational, stepResponse: Rational)

  datatype VoltWatt = VoltWatt(start: Rational, stop: Rational, stepResponse: Rational)

  datatype FaultRideThrough = FaultRideThrough(
    limitStart: Rational, limitStop: Option<Rational>, recoveryLimit: Option<Rational>,
    activeStepResponse: Rational, reactiveStepResponse: Rational)

  datatype ZeroCurrent = ZeroCurrent(
    overVoltage: Option<Rational>, underVoltage: Option<Rational>,
    overRecovery: Option<Rational>, underRecovery: Option<Rational>,
    activeStepResponse: Rational, reactiveStepResponse: Rational)

  datatype ReactiveSupport = ReactiveSupport(
    voltVar: Option<DerCurve>, wattVar: Option<DerCurve>, wattCosPhi: Option<DerCurve>)

  datatype ActiveSupport = ActiveSupport(
    underFrequencyWatt: Option<FrequencyWatt>, overFrequencyWatt: Option<FrequencyWatt>,
    voltWatt: Option<VoltWatt>)

  datatype DerControl = DerControl(
    overVoltage: Option<FaultRideThrough>, underVoltage: Option<FaultRideThrough>,
    zeroCurrent: Option<ZeroCurrent>, reactive: Option<ReactiveSupport>,
    active: Option<ActiveSupport>, maxDcInjection: Option<Rational>)

  datatype DerConfig = DerConfig(cpd: DerControl, q: DsoQSetpoint, cosPhi: DsoCosPhiSetpoint)

  datatype GridPolicy = GridPolicy(
    voltWattStart: Rational, voltWattStop: Rational,
    underFrequencyStart: Rational, underFrequencyStop: Rational,
    overFrequencyStart: Rational, overFrequencyStop: Rational,
    maxDcInjection: Rational, valid: bool)

  datatype DsoControl = DsoControl(q: DsoQSetpoint, cosPhi: DsoCosPhiSetpoint, valid: bool)

  datatype EvseCapability = EvseCapability(supported: DerFunctions, valid: bool)

  datatype RuntimeState = RuntimeState(enabled: bool, gridPolicyFresh: bool, dsoControlFresh: bool)

  datatype Snapshots = Snapshots(
    grid: GridPolicy, dso: DsoControl, evse: EvseCapability, runtime: RuntimeState)

  /** The two providers that the library itself builds. */
  datatype DerProvider = StaticProvider(config: DerConfig) | SeccProvider(snapshots: Snapshots)

  datatype DerContext = DerContext(
    service: Service, mode: Option<ControlMode>, mobility: Option<MobilityNeeds>,
    functions: Option<DerFunctions>)

  // ------------------------------------------------------------- parameter sets

  datatype AcBase = AcBase(
    phases: nat, mode: ControlMode, mobility: MobilityNeeds, voltage: uint32, pricing: Pricing)
  datatype PlainBase = PlainBase(
    connector: nat, mode: ControlMode, mobility: MobilityNeeds, pricing: Pricing)
  datatype Bpt = Bpt(channel: BptChannel, generator: GeneratorMode)

  datatype ParameterSet =
    | AcSet(ac: AcBase)
    | AcBptSet(ac: AcBase, bpt: Bpt, grid: GridCode)
    | AcDerSet(ac: AcBase, bpt: Bpt, grid: GridCode, functions: DerFunctions)
    | DcSet(base: PlainBase)
    | DcBptSet(base: PlainBase, bpt: Bpt)
    | McsSet(base: PlainBase)
    | McsBptSet(base: PlainBase, bpt: Bpt)

  /** The service whose list a parameter set can stand in (the static type in C++). */
  function KindOf(p: ParameterSet): Service {
    match p
    case AcSet(_) => AC
    case AcBptSet(_, _, _) => AC_BPT
    case AcDerSet(_, _, _, _) => AC_DER
    case DcSet(_) => DC
    case DcBptSet(_, _) => DC_BPT
    case McsSet(_) => MCS
    case McsBptSet(_, _) => MCS_BPT
  }

  /** `SelectedServiceParameters`; the value-initialised struct holds service 0 and no mode. */
  datatype Selected =
    | NothingSelected
    | Selected(
        energy: Service, connector: Connector, controlMode: ControlMode,
        mobilityNeeds: MobilityNeeds, pricing: Pricing, bpt: Option<Bpt>,
        voltage: Option<uint32>, grid: Option<GridCode>, functions: Option<DerFunctions>)
  {
    function Energy(): Service {
      if Selected? then energy else 0
    }
    function Mode(): Option<ControlMode> {
      if Selected? then Some(controlMode) else None
    }
    function Mobility(): Option<MobilityNeeds> {
      if Selected? then Some(mobilityNeeds) else None
    }
    function Functions(): Option<DerFunctions> {
      if Selected? then functions else None
    }
    predicate IsAc() {
      IsAcService(Energy())
    }
    predicate IsDc() {
      IsDcService(Energy())
    }
  }

  // ------------------------------------------------------------ limits and powers

  datatype Limit = Limit(max: Rational, min: Rational)
  datatype Limits = Limits(power: Limit, current: Limit)
  datatype DcLimits = DcLimits(
    charge: Limits, discharge: Option<Limits>, voltage: Limit, ramp: Option<Rational>)
  datatype AcLimits = AcLimits(
    charge: Limit, chargeL2: Option<Limit>, chargeL3: Option<Limit>, frequency: Rational,
    asymmetry: Option<Rational>, ramp: Option<Rational>,
    discharge: Option<Limit>, dischargeL2: Option<Limit>, dischargeL3: Option<Limit>)

  datatype PhasePowers = PhasePowers(l1: Option<Rational>, l2: Option<Rational>, l3: Option<Rational>)
  datatype AcTarget = AcTarget(active: PhasePowers, reactive: PhasePowers, frequency: Option<Rational>)
  datatype AcPresent = AcPresent(active: PhasePowers)
  datatype DynamicParameters = DynamicParameters(
    departure: Option<int>, targetSoc: Option<uint8>, minSoc: Option<uint8>)

  const NO_POWERS := PhasePowers(None, None, None)
  const NO_TARGET := AcTarget(NO_POWERS, NO_POWERS, None)
  const NO_PRESENT := AcPresent(NO_POWERS)
  const NO_DYNAMIC := DynamicParameters(None, None, None)

  // ------------------------------------------------------------ session and config

  datatype OfferedServices = OfferedServices(
    auth: seq<Authorization>,
    energy: seq<Service>,
    vas: seq<uint16>,
    sets: map<Service, map<uint8, ParameterSet>>,
    internet: set<uint8>,
    parking: set<uint8>,
    custom: map<uint16, seq<uint16>>)

  const NOTHING_OFFERED := OfferedServices([], [], [], map[], {}, {}, map[])

  datatype Session = Session(
    id: SessionId, offered: OfferedServices, selected: Selected, selectedVas: seq<uint16>,
    renegotiation: bool)

  datatype PauseContext = PauseContext(digest: Digest, id: SessionId, selected: Selected)

  datatype SessionConfig = SessionConfig(
    auth: seq<Authorization>,
    energy: seq<Service>,
    vas: seq<uint16>,
    lists: map<Service, seq<ParameterSet>>,
    internet: seq<uint8>,
    parking: nat,
    dcLimits: DcLimits,
    acLimits: AcLimits,
    supplyLimits: DcLimits,
    provider: DerProvider,
    customProtocol: string)

  // ------------------------------------------------------------------- messages

  datatype AppProtocol = AppProtocol(name: string, priority: uint8, schema: uint8)

  datatype AcTransferMode = AcMode | BptAcMode | DerAcMode
  datatype DcTransferMode = DcMode | BptDcMode
  datatype AcLoopMode = ScheduledAc | ScheduledBptAc | ScheduledDerAc | DynamicAc | DynamicBptAc | DynamicDerAc
  datatype DcLoopMode = ScheduledDc | ScheduledBptDc | DynamicDc | DynamicBptDc
  datatype Progress = Start | StopCharge | Standby | ScheduleRenegotiation
  datatype Processing = Finished | Ongoing | OngoingWaiting
  datatype ChargingSession = Pause | Terminate | ServiceRenegotiation
  datatype VasChoice = VasChoice(service: uint16, setId: uint16)
  datatype VasSet = VasSet(id: uint16, content: nat)

  datatype Request =
    | SupportedAppProtocolReq(protocols: seq<AppProtocol>)
    | SessionSetupReq(sid: SessionId)
    | AuthorizationSetupReq(sid: SessionId)
    | AuthorizationReq(sid: SessionId, service: Authorization)
    | ServiceDiscoveryReq(sid: SessionId, supported: Option<seq<uint16>>)
    | ServiceDetailReq(sid: SessionId, wanted: uint16)
    | ServiceSelectionReq(sid: SessionId, energy: Service, setId: uint16, vas: Option<seq<VasChoice>>)
    | AcParametersReq(sid: SessionId, acMode: AcTransferMode)
    | DcParametersReq(sid: SessionId, dcMode: DcTransferMode)
    | ScheduleExchangeReq(sid: SessionId, mode: ControlMode)
    | CableCheckReq(sid: SessionId)
    | PreChargeReq(sid: SessionId)
    | PowerDeliveryReq(sid: SessionId, progress: Progress)
    | AcLoopReq(sid: SessionId, acLoop: AcLoopMode)
    | DcLoopReq(sid: SessionId, dcLoop: DcLoopMode)
    | WeldingReq(sid: SessionId, processing: Processing)
    | SessionStopReq(sid: SessionId, ending: ChargingSession)
    | OtherMessage

  /** Requests that carry a message header, hence a session id. */
  predicate HasSessionId(r: Request) {
    !r.SupportedAppProtocolReq? && !r.OtherMessage?
  }

  datatype Code =
    | Ok | OkNewSession | OkOldSession
    | WarnAuthSelection | WarnEimFailure | WarnStandby
    | Failed | FailedContactor | FailedNoEnergyService | FailedNoRenegotiation
    | FailedSequence | FailedServiceId | FailedSelection | FailedUnknownSession | FailedChargeParameter
    | NegotiationOk | NegotiationFailed
  {
    /** `response_code >= ResponseCode::FAILED`. */
    predicate IsFailed() {
      Failed? || FailedContactor? || FailedNoEnergyService? || FailedNoRenegotiation? || FailedSequence?
      || FailedServiceId? || FailedSelection? || FailedUnknownSession? || FailedChargeParameter?
    }
  }

  datatype Notification = NotifyTerminate | NotifyPause(delay: nat)

  /** One entry of a service-detail response: the id on the wire and what it stands for. */
  datatype Advertised =
    | EnergySet(id: uint16, parameters: ParameterSet)
    | OtherSet(id: uint16)

  datatype Body =
    | NoBody
    | ProtocolBody(schema: uint8)
    | OfferedAuthBody(services: seq<Authorization>)
    | ProcessingBody(processing: Processing)
    | DiscoveryBody(energy: seq<Service>, vas: seq<uint16>)
    | DetailBody(service: uint16, sets: seq<Advertised>)
    | AcParametersBody(acMode: AcTransferMode, acLimits: AcLimits, present: AcPresent, der: Option<DerControl>)
    | DcParametersBody(dcMode: DcTransferMode, dcLimits: DcLimits)
    | ScheduleBody(mode: ControlMode, maxPower: Option<Rational>, dynamic: Option<DynamicParameters>)
    | VoltageBody(voltage: real)
    | AcLoopBody(
        acLoop: AcLoopMode, target: AcTarget, loopPresent: AcPresent, derLimits: Option<AcLimits>,
        q: Option<DsoQSetpoint>, cosPhi: Option<DsoCosPhiSetpoint>,
        acDynamic: Option<DynamicParameters>, acStatus: Option<Notification>)
    | DcLoopBody(
        dcLoop: DcLoopMode, loopLimits: DcLimits, loopVoltage: real, loopCurrent: real,
        dcDynamic: Option<DynamicParameters>, dcStatus: Option<Notification>)

  /** `sid` is the id written into the response header. */
  datatype Response = Response(sid: SessionId, code: Code, body: Body)

  datatype ControlEvent =
    | CableCheckFinished(ok: bool)
    | PresentVoltageCurrent(voltage: real, current: real)
    | AuthorizationResponse(authorized: bool)
    | StopCharging(stop: bool)
    | PauseCharging(pause: bool)
    | UpdateDcLimits(dc: DcLimits)
    | UpdateAcLimits(ac: AcLimits)
    | UpdateDynamic(dynamic: DynamicParameters)
    | ClosedContactor(closed: bool)
    | UpdateAcTarget(target: AcTarget)
    | UpdateAcPresent(present: AcPresent)
    | EnergyServices(energy: seq<Service>)
    | SupportedVas(vas: seq<uint16>)

  datatype Signal =
    | RequireAuthEim | StartCableCheck | SetupFinished | PreChargeStarted
    | ChargeLoopStarted | ChargeLoopFinished | DcOpenContactor | AcCloseContactor | AcOpenContactor
    | DlinkTerminate | DlinkPause

  datatype TimeoutType = Sequence | Performance | OngoingTimer | Contactor

  const TIMEOUT_ONGOING := 55_000
  const TIMEOUT_SEQUENCE := 60_000
  const TIMEOUT_EIM_ONGOING := 180_000
  const TIMEOUT_CONTACTOR := 3_000
}
