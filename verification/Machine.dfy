/** The ISO 15118-20 session as a state machine: seventeen states over one context.
    `Step` is what one control event, one expired timer or one request does. */
module Machine {
  import opened Common
  import opened Types
  import opened AcDerControl
  import opened Negotiation

  // --------------------------------------------------------------------- states

  datatype StateId =
    | AtSupportedAppProtocol | AtSessionSetup | AtAuthorizationSetup | AtAuthorization
    | AtServiceDiscovery | AtServiceDetail | AtServiceSelection
    | AtAcParameters | AtDcParameters | AtScheduleExchange
    | AtCableCheck | AtPreCharge | AtPowerDelivery
    | AtAcLoop | AtDcLoop | AtWelding | AtSessionStop

  datatype AuthStatus = Pending | Accepted | Rejected

  datatype Parked = Parked(sid: SessionId, progress: Progress)

  /** A state object with its private fields. */
  datatype State =
    | SupportedAppProtocol
    | SessionSetup
    | AuthorizationSetup
    | Authorization(status: AuthStatus, authFirst: bool, authLate: bool)
    | ServiceDiscovery
    | ServiceDetail
    | ServiceSelection
    | AcParameters(present: AcPresent)
    | DcParameters
    | ScheduleExchange(seDynamic: DynamicParameters, seFirst: bool, seLate: bool)
    | CableCheck(initiated: bool, done: bool)
    | PreCharge(begun: bool, preVoltage: real)
    | PowerDelivery(pdVoltage: real, closed: bool, parked: Option<Parked>)
    | AcLoop(
        acFirst: bool, acStop: bool, acPause: bool,
        acDynamic: DynamicParameters, acTarget: AcTarget, acPresent: AcPresent)
    | DcLoop(
        dcFirst: bool, dcStop: bool, dcPause: bool,
        dcDynamic: DynamicParameters, dcVoltage: real, dcCurrent: real)
    | Welding(weldVoltage: real)
    | SessionStop

  function Id(s: State): StateId {
    match s
    case SupportedAppProtocol => AtSupportedAppProtocol
    case SessionSetup => AtSessionSetup
    case AuthorizationSetup => AtAuthorizationSetup
    case Authorization(_, _, _) => AtAuthorization
    case ServiceDiscovery => AtServiceDiscovery
    case ServiceDetail => AtServiceDetail
    case ServiceSelection => AtServiceSelection
    case AcParameters(_) => AtAcParameters
    case DcParameters => AtDcParameters
    case ScheduleExchange(_, _, _) => AtScheduleExchange
    case CableCheck(_, _) => AtCableCheck
    case PreCharge(_, _) => AtPreCharge
    case PowerDelivery(_, _, _) => AtPowerDelivery
    case AcLoop(_, _, _, _, _, _) => AtAcLoop
    case DcLoop(_, _, _, _, _, _) => AtDcLoop
    case Welding(_) => AtWelding
    case SessionStop => AtSessionStop
  }

  /** `newId` is the random id a new session would get, `reply` the answer of the
      integrator's callback for value-added services. */
  datatype Event =
    | Control(control: ControlEvent)
    | Expired(timer: TimeoutType)
    | Message(request: Request, newId: SessionId, reply: Option<seq<VasSet>>)

  datatype Input = Input(event: Event, now: nat)

  /** What happened to the session as such; `owner` and `pauser` are the certificate in use. */
  datatype News =
    | Created(owner: Option<CertHash>, session: SessionId)
    | Joined(cert: CertHash, asked: SessionId, session: SessionId, selected: Selected)
    | Paused(pauser: Option<CertHash>, session: SessionId, selected: Selected)
    | Terminated(session: SessionId)

  datatype Delivery = Delivery(at: StateId, event: Event)

  /** The observable history of a session; each list is oldest first. */
  datatype History = History(
    events: seq<Delivery>, signals: seq<Signal>, responses: seq<Response>, news: seq<News>)

  /** The `Context` that all states share. A timer that runs maps to its deadline. */
  datatype Context = Context(
    session: Session,
    config: SessionConfig,
    cert: Option<CertHash>,
    pauseCtx: Option<PauseContext>,
    stopped: bool,
    paused: bool,
    dynamicCache: Option<DynamicParameters>,
    targetCache: Option<AcTarget>,
    presentCache: Option<AcPresent>,
    timers: map<TimeoutType, nat>)

  /** Current state object, context, and what was observed so far. */
  datatype Machine = Machine(state: State, ctx: Context, log: History)

  function NewSession(id: SessionId): Session {
    Session(id, NOTHING_OFFERED, NothingSelected, [], false)
  }

  function Init(config: SessionConfig, cert: Option<CertHash>, pauseCtx: Option<PauseContext>): Machine {
    Machine(
      SupportedAppProtocol,
      Context(NewSession(0), config, cert, pauseCtx, false, false, None, None, None, map[]),
      History([], [], [], []))
  }

  // -------------------------------------------------------------------- helpers

  /** What one `feed` leaves behind: the state object, the context, the response if there is
      one, the signals raised, and the news. */
  datatype Out = Out(state: State, ctx: Context, sent: Option<Reply>, signals: seq<Signal>, news: seq<News>)

  datatype Reply = Reply(code: Code, body: Body)

  function Silent(st: State, c: Context): Out {
    Out(st, c, None, [], [])
  }

  function Answer(st: State, c: Context, r: Reply): Out {
    Out(st, c, Some(r), [], [])
  }

  function Bare(code: Code): Reply {
    Reply(code, NoBody)
  }

  /** Answer and stop the session. */
  function Refuse(st: State, c: Context, r: Reply): Out {
    Answer(st, c.(stopped := true), r)
  }

  function AcParametersOnEntry(c: Context): State {
    AcParameters(c.presentCache.GetOr(NO_PRESENT))
  }

  function AcLoopOnEntry(c: Context): State {
    AcLoop(false, false, false, c.dynamicCache.GetOr(NO_DYNAMIC), c.targetCache.GetOr(NO_TARGET),
           c.presentCache.GetOr(NO_PRESENT))
  }

  function DcLoopOnEntry(c: Context): State {
    DcLoop(true, false, false, c.dynamicCache.GetOr(NO_DYNAMIC), 0.0, 0.0)
  }

  function StartTimer(timers: map<TimeoutType, nat>, t: TimeoutType, deadline: nat): map<TimeoutType, nat> {
    if t in timers then timers else timers[t := deadline]
  }

  function StopTimer(timers: map<TimeoutType, nat>, t: TimeoutType): (r: map<TimeoutType, nat>)
    ensures t !in r
  {
    timers - {t}
  }

  function StopCode(s: Session, sid: SessionId, ending: ChargingSession): Code {
    if sid != s.id then FailedUnknownSession
    else if ending == ServiceRenegotiation && !s.renegotiation then FailedNoRenegotiation
    else Ok
  }

  // -------------------------------------------------------------------- replies

  const ISO20_DC := "urn:iso:std:iso:15118:-20:DC"
  const ISO20_AC := "urn:iso:std:iso:15118:-20:AC"

  predicate Acceptable(p: AppProtocol, custom: string) {
    p.name == ISO20_DC || p.name == ISO20_AC || p.name == custom
  }

  /** The acceptable protocol of highest priority (lowest number), the last one listed on a tie. */
  function Negotiated(ps: seq<AppProtocol>, custom: string): Option<AppProtocol> {
    if ps == [] then None
    else
      var last := ps[|ps| - 1];
      var rest := Negotiated(ps[..|ps| - 1], custom);
      if Acceptable(last, custom) && (rest.None? || last.priority <= rest.value.priority) then Some(last) else rest
  }

  function AuthorizationReply(c: Context, sid: SessionId, service: Types.Authorization, status: AuthStatus, late: bool): (r: Reply)
    ensures !r.body.DetailBody? && (sid != c.session.id ==> r == Bare(FailedUnknownSession))
    ensures late ==> r.code.IsFailed()
  {
    if sid != c.session.id then Bare(FailedUnknownSession)
    else if late then Bare(Failed)
    else if service !in c.session.offered.auth then Reply(WarnAuthSelection, ProcessingBody(Finished))
    else if service == PnC then Reply(Ok, ProcessingBody(Finished))
    else match status
      case Accepted => Reply(Ok, ProcessingBody(Finished))
      case Rejected => Reply(WarnEimFailure, ProcessingBody(Finished))
      case Pending => Reply(Ok, ProcessingBody(Ongoing))
  }

  /** The configuration a DER request is answered from, if the gates before it let it through. */
  function DerGate(s: Selected, p: DerProvider): Option<DerConfig> {
    if s.Energy() != AC_DER || s.Functions().None? || !HasRequired(s.Functions().value) then None
    else
      var config := Provide(p, DerContext(s.Energy(), s.Mode(), s.Mobility(), s.Functions())).config;
      if config.Some? && ValidConfig(config.value, s.Functions().value) then config else None
  }

  function AcParametersReply(c: Context, sid: SessionId, mode: AcTransferMode, present: AcPresent): (r: Reply)
    ensures !r.body.DetailBody? && (sid != c.session.id ==> r == Bare(FailedUnknownSession))
  {
    var energy, limits := c.session.selected.Energy(), c.config.acLimits;
    if sid != c.session.id then Bare(FailedUnknownSession)
    else match mode
      case AcMode =>
        if energy != AC then Bare(FailedChargeParameter)
        else Reply(Ok, AcParametersBody(mode, limits, present, None))
      case BptAcMode =>
        if energy != AC_BPT then Bare(FailedChargeParameter)
        else Reply(Ok, AcParametersBody(mode, limits, present, None))
      case DerAcMode =>
        var config := DerGate(c.session.selected, c.config.provider);
        if config.None? then Bare(FailedChargeParameter)
        else Reply(Ok, AcParametersBody(mode, limits, present, Some(config.value.cpd)))
  }

  function DcParametersReply(c: Context, sid: SessionId, mode: DcTransferMode): (r: Reply)
    ensures !r.body.DetailBody? && (sid != c.session.id ==> r == Bare(FailedUnknownSession))
  {
    var energy, limits := c.session.selected.Energy(), c.config.supplyLimits;
    if sid != c.session.id then Bare(FailedUnknownSession)
    else match mode
      case DcMode =>
        if energy != DC && energy != MCS then Bare(FailedChargeParameter)
        else Reply(Ok, DcParametersBody(mode, limits))
      case BptDcMode =>
        if energy != DC_BPT && energy != MCS_BPT then Bare(FailedChargeParameter)
        else if limits.discharge.None? then Bare(Failed)
        else Reply(Ok, DcParametersBody(mode, limits))
  }

  /** Parameters the SECC contributes in dynamic mode. */
  function Contributed(s: Selected, d: DynamicParameters): Option<DynamicParameters> {
    if s.Mobility() == Some(ProvidedBySecc) then Some(d) else None
  }

  /** The power of a scheduled session: the limit of the charger in DC, zero in AC. */
  function SchedulePower(c: Context): Rational {
    if c.session.selected.IsDc() then c.config.dcLimits.charge.power.max else Rational(0, 0)
  }

  function ScheduleReply(c: Context, sid: SessionId, mode: ControlMode, dynamic: DynamicParameters, late: bool): (r: Reply)
    ensures !r.body.DetailBody? && (sid != c.session.id ==> r == Bare(FailedUnknownSession))
    ensures late ==> r.code.IsFailed()
  {
    if sid != c.session.id then Bare(FailedUnknownSession)
    else if late || c.session.selected.Mode() != Some(mode) then Bare(Failed)
    else if mode == Scheduled then Reply(Ok, ScheduleBody(mode, Some(SchedulePower(c)), None))
    else Reply(Ok, ScheduleBody(mode, None, Contributed(c.session.selected, dynamic)))
  }

  function PowerDeliveryReply(c: Context, sid: SessionId, progress: Progress, contactorError: bool): (r: Reply)
    ensures !r.body.DetailBody? && (sid != c.session.id ==> r == Bare(FailedUnknownSession))
  {
    if sid != c.session.id then Bare(FailedUnknownSession)
    else if contactorError then Bare(FailedContactor)
    else if progress == Standby then Bare(WarnStandby)
    else Bare(Ok)
  }

  function VoltageReply(c: Context, sid: SessionId, voltage: real): (r: Reply)
    ensures !r.body.DetailBody? && (sid != c.session.id ==> r == Bare(FailedUnknownSession))
  {
    if sid != c.session.id then Bare(FailedUnknownSession) else Reply(Ok, VoltageBody(voltage))
  }

  function Notice(s: Selected, stop: bool, pause: bool): Option<Notification> {
    if stop then Some(NotifyTerminate)
    else if pause then Some(NotifyPause(if s.Mode() == Some(Dynamic) then 60 else 0))
    else None
  }

  function AcLoopReply(c: Context, st: State, sid: SessionId, mode: AcLoopMode): (r: Reply)
    requires st.AcLoop?
    ensures !r.body.DetailBody? && (sid != c.session.id ==> r == Bare(FailedUnknownSession))
  {
    var s := c.session.selected;
    var status := Notice(s, st.acStop, st.acPause);
    var plain := AcLoopBody(mode, st.acTarget, st.acPresent, None, None, None, None, status);
    var mine := Contributed(s, st.acDynamic);
    if sid != c.session.id then Bare(FailedUnknownSession)
    else match mode
      case ScheduledAc =>
        if s.Mode() != Some(Scheduled) || s.Energy() != AC then Bare(Failed) else Reply(Ok, plain)
      case ScheduledBptAc =>
        if s.Mode() != Some(Scheduled) || s.Energy() != AC_BPT then Bare(Failed) else Reply(Ok, plain)
      case ScheduledDerAc =>
        var config := DerGate(s, c.config.provider);
        if s.Mode() != Some(Scheduled) || config.None? then Bare(Failed)
        else Reply(Ok, WithSetpoints(plain, c.config.acLimits, config.value, s.Functions().value))
      case DynamicAc =>
        if s.Mode() != Some(Dynamic) || s.Energy() != AC then Bare(Failed)
        else Reply(Ok, plain.(acDynamic := mine))
      case DynamicBptAc =>
        if s.Mode() != Some(Dynamic) || s.Energy() != AC_BPT then Bare(Failed)
        else Reply(Ok, plain.(acDynamic := mine))
      case DynamicDerAc =>
        var config := DerGate(s, c.config.provider);
        if s.Mode() != Some(Dynamic) || config.None? then Bare(Failed)
        else Reply(Ok, WithSetpoints(plain, c.config.acLimits, config.value, s.Functions().value).(acDynamic := mine))
  }

  function WithSetpoints(body: Body, limits: AcLimits, config: DerConfig, f: DerFunctions): (r: Body)
    requires body.AcLoopBody?
    ensures r.AcLoopBody?
  {
    body.(
      derLimits := Some(limits),
      q := if f.dsoQSetpoint then Some(config.q) else None,
      cosPhi := if f.dsoCosPhiSetpoint then Some(config.cosPhi) else None)
  }

  function DcLoopReply(c: Context, st: State, sid: SessionId, mode: DcLoopMode): (r: Reply)
    requires st.DcLoop?
    ensures !r.body.DetailBody? && (sid != c.session.id ==> r == Bare(FailedUnknownSession))
  {
    var s, limits := c.session.selected, c.config.dcLimits;
    var bpt := mode == ScheduledBptDc || mode == DynamicBptDc;
    var dynamic := mode == DynamicDc || mode == DynamicBptDc;
    if sid != c.session.id then Bare(FailedUnknownSession)
    else if s.Mode() != Some(if dynamic then Dynamic else Scheduled) then Bare(Failed)
    else if !bpt && s.Energy() != DC && s.Energy() != MCS then Bare(Failed)
    else if bpt && s.Energy() != DC_BPT && s.Energy() != MCS_BPT then Bare(Failed)
    else if bpt && limits.discharge.None? then Bare(Failed)
    else
      Reply(Ok, DcLoopBody(mode, limits, st.dcVoltage, st.dcCurrent,
                           if dynamic then Contributed(s, st.dcDynamic) else None, Notice(s, st.dcStop, st.dcPause)))
  }

  // ---------------------------------------------------------- what feed may change

  /** The transitions of the protocol. */
  predicate Edge(a: StateId, b: StateId) {
    match a
    case AtSupportedAppProtocol => b == AtSessionSetup
    case AtSessionSetup => b == AtAuthorizationSetup || b == AtAcParameters || b == AtDcParameters
    case AtAuthorizationSetup => b == AtAuthorization
    case AtAuthorization => b == AtServiceDiscovery
    case AtServiceDiscovery => b == AtServiceDetail
    case AtServiceDetail => b == AtServiceSelection
    case AtServiceSelection => b == AtAcParameters || b == AtDcParameters
    case AtAcParameters => b == AtScheduleExchange
    case AtDcParameters => b == AtScheduleExchange
    case AtScheduleExchange => b == AtPowerDelivery || b == AtCableCheck
    case AtCableCheck => b == AtPreCharge
    case AtPreCharge => b == AtPowerDelivery
    case AtPowerDelivery => b == AtAcLoop || b == AtDcLoop
    case AtAcLoop => b == AtSessionStop
    case AtDcLoop => b == AtWelding
    case AtWelding => b == AtSessionStop
    case AtSessionStop => false
  }

  predicate Negotiating(s: StateId) {
    s == AtSessionSetup || s == AtAuthorizationSetup || s == AtServiceDiscovery || s == AtServiceDetail
    || s == AtServiceSelection
  }

  predicate Pausing(s: StateId) {
    s == AtSessionSetup || s == AtWelding || s == AtSessionStop
  }

  predicate Timing(s: StateId) {
    s == AtAuthorization || s == AtScheduleExchange || s == AtPowerDelivery
  }

  predicate Looping(s: StateId) {
    s == AtAcLoop || s == AtDcLoop
  }

  predicate IsEnd(s: Signal) {
    s == ChargeLoopFinished || s == AcOpenContactor || s == DcOpenContactor
  }

  /** Everything in the configuration but the value-added parameter lists. */
  predicate SameEquipment(a: SessionConfig, b: SessionConfig) {
    a.lists == b.lists && a.dcLimits == b.dcLimits && a.acLimits == b.acLimits && a.supplyLimits == b.supplyLimits
    && a.provider == b.provider && a.auth == b.auth && a.customProtocol == b.customProtocol
    && a.energy == b.energy && a.vas == b.vas
  }

  predicate SameCaches(a: Context, b: Context) {
    a.dynamicCache == b.dynamicCache && a.targetCache == b.targetCache && a.presentCache == b.presentCache
  }

  /** What one `feed` may change, by state. */
  predicate Kept(st: State, c: Context, out: Out) {
    && (Id(out.state) == Id(st) || Edge(Id(st), Id(out.state)))
    && out.ctx.cert == c.cert && SameCaches(out.ctx, c)
    && (c.stopped ==> out.ctx.stopped) && (c.paused ==> out.ctx.paused)
    && (Id(out.state) != Id(st) ==> out.ctx.stopped == c.stopped)
    && (if st.ServiceDetail? || st.ServiceSelection? then SameEquipment(out.ctx.config, c.config)
        else out.ctx.config == c.config)
    && (!Negotiating(Id(st)) ==> out.ctx.session == c.session)
    && (!st.SessionSetup? ==> out.ctx.session.id == c.session.id)
    && (!st.SessionSetup? && !st.ServiceSelection? ==> out.ctx.session.selected == c.session.selected)
    && (!Pausing(Id(st)) ==> out.ctx.pauseCtx == c.pauseCtx)
    && (!Pausing(Id(st)) ==> out.news == [])
    && (!Timing(Id(st)) ==> out.ctx.timers == c.timers)
  }

  predicate IsContactorReport(e: Event) {
    e.Control? && e.control.ClosedContactor?
  }

  predicate IsSkip(e: Event) {
    e.Message? && e.request.PowerDeliveryReq? && e.request.progress != Start
  }

  /** EIM is offered if nothing is configured. */
  function OfferedAuth(configured: seq<Types.Authorization>): seq<Types.Authorization> {
    if configured == [] then [EIM] else configured
  }

  /** How a session gets past its setup and authorization, and where parameter sets are advertised. */
  predicate Admits(st: State, c: Context, e: Event, out: Out) {
    var left := Id(out.state) != Id(st);
    && (out.sent.Some? && out.sent.value.body.DetailBody? ==> st.ServiceDetail? || st.ServiceSelection?)
    && (st.SessionSetup? && !left ==> out.ctx.pauseCtx == c.pauseCtx)
    && (st.SessionSetup? && left && !out.state.AuthorizationSetup? ==> Resumes(c, out))
    && (st.AuthorizationSetup? && left ==> out.ctx.session.offered.auth == OfferedAuth(c.config.auth))
    && (st.Authorization? && left ==> st.status == Accepted && e.Message?)
  }

  /** Why a state was left, and where the flags that later states rely on come from. */
  predicate Moves(st: State, c: Context, e: Event, out: Out) {
    var left, s := Id(out.state) != Id(st), out.ctx.session.selected;
    && (out.state.AcParameters? ==> s.IsAc() || st.AcParameters?)
    && (out.state.DcParameters? ==> s.IsDc() || st.DcParameters?)
    && (st.ScheduleExchange? && left ==> if out.state.CableCheck? then s.IsDc() else s.IsAc())
    && (out.state.CableCheck? && out.state.initiated ==>
          (st.CableCheck? && st.initiated) || StartCableCheck in out.signals)
    && (out.state.PreCharge? && !st.PreCharge? ==>
          st.CableCheck? && st.done && e.Message? && (st.initiated || StartCableCheck in out.signals))
    && (out.state.PreCharge? && out.state.begun ==>
          (st.PreCharge? && st.begun) || PreChargeStarted in out.signals)
    && (st.PreCharge? && left ==> st.begun || PreChargeStarted in out.signals)
    && (out.state.PowerDelivery? ==> (out.state.closed <==> st.PowerDelivery? && (st.closed || IsContactorReport(e))))
    && (out.state.PowerDelivery? && out.state.parked.Some? ==>
          st.PowerDelivery? && (st.parked == out.state.parked || (s.IsAc() && out.state.parked.value.progress == Start)))
    && (out.state.PowerDelivery? && out.state.closed && out.state.parked.Some? ==>
          out.state.parked.value.sid != c.session.id || (st.PowerDelivery? && st.closed && st.parked == out.state.parked))
    && (st.PowerDelivery? && out.state.AcLoop? ==>
          || (s.IsAc() && (st.closed || IsSkip(e)))
          || (st.parked.Some? && IsContactorReport(e)))
    && (st.PowerDelivery? && out.state.DcLoop? ==> s.IsDc())
    && (out.state.AcLoop? && out.state.acFirst ==> st.AcLoop? && st.acFirst)
  }

  /** A paused session was picked up by the certificate that its id was issued to. */
  predicate Resumes(c: Context, out: Out) {
    && c.cert.Some? && c.pauseCtx.Some?
    && c.pauseCtx.value.digest.cert == c.cert.value && c.pauseCtx.value.digest.id != 0
    && out.news == [Joined(c.cert.value, c.pauseCtx.value.digest.id, c.pauseCtx.value.id, c.pauseCtx.value.selected)]
    && out.ctx.pauseCtx == c.pauseCtx
    && out.ctx.session == NewSession(c.pauseCtx.value.id).(selected := c.pauseCtx.value.selected)
  }

  /** The end of a charge loop is signalled only on leaving it, of the kind that is left; and which
      states signal at all. */
  predicate Signals(st: State, out: Out) {
    && (Looping(Id(st)) && Id(out.state) != Id(st) ==>
          out.signals == [ChargeLoopFinished, if st.AcLoop? then AcOpenContactor else DcOpenContactor])
    && (!Looping(Id(st)) || Id(out.state) == Id(st) ==> forall s <- out.signals :: !IsEnd(s))
    && (ChargeLoopStarted in out.signals ==> st.DcLoop? || (st.AcLoop? && st.acFirst))
    && (out.signals != [] ==>
          || (st.AuthorizationSetup? && Id(out.state) != Id(st))
          || st.CableCheck? || st.PreCharge? || st.PowerDelivery? || st.AcLoop? || st.DcLoop?)
  }

  function DynamicAfter(e: Event, d: DynamicParameters): DynamicParameters {
    if e.Control? && e.control.UpdateDynamic? then e.control.dynamic else d
  }

  function TargetAfter(e: Event, t: AcTarget): AcTarget {
    if e.Control? && e.control.UpdateAcTarget? then e.control.target else t
  }

  function PresentAfter(e: Event, p: AcPresent): AcPresent {
    if e.Control? && e.control.UpdateAcPresent? then e.control.present else p
  }

  function StatusAfter(e: Event, s: AuthStatus): AuthStatus {
    if e.Control? && e.control.AuthorizationResponse? then if e.control.authorized then Accepted else Rejected else s
  }

  function DoneAfter(e: Event, done: bool): bool {
    if e.Control? && e.control.CableCheckFinished? then e.control.ok else done
  }

  /** Values that a state shows the EV or decides by: the initial or cached ones on entry, then
      those of each update. */
  predicate Shown(st: State, c: Context, e: Event, out: Out) {
    var s := out.state;
    && (s.Authorization? ==> s.status == if st.Authorization? then StatusAfter(e, st.status) else Pending)
    && (s.Authorization? ==> (s.authLate <==> st.Authorization? && (st.authLate || e == Expired(OngoingTimer))))
    && (s.ScheduleExchange? ==> (s.seLate <==> st.ScheduleExchange? && (st.seLate || e == Expired(OngoingTimer))))
    && (s.CableCheck? ==> s.done == if st.CableCheck? then DoneAfter(e, st.done) else false)
    && (s.AcParameters? ==>
          s.present == (if st.AcParameters? then PresentAfter(e, st.present) else c.presentCache.GetOr(NO_PRESENT)))
    && (s.AcLoop? ==>
          s.acDynamic == (if st.AcLoop? then DynamicAfter(e, st.acDynamic) else c.dynamicCache.GetOr(NO_DYNAMIC)))
    && (s.AcLoop? ==>
          s.acTarget == (if st.AcLoop? then TargetAfter(e, st.acTarget) else c.targetCache.GetOr(NO_TARGET)))
    && (s.AcLoop? ==>
          s.acPresent == (if st.AcLoop? then PresentAfter(e, st.acPresent) else c.presentCache.GetOr(NO_PRESENT)))
    && (s.DcLoop? ==>
          s.dcDynamic == (if st.DcLoop? then DynamicAfter(e, st.dcDynamic) else c.dynamicCache.GetOr(NO_DYNAMIC)))
    && (s.ScheduleExchange? ==>
          s.seDynamic == (if st.ScheduleExchange? then DynamicAfter(e, st.seDynamic) else NO_DYNAMIC))
  }

  predicate IsForeign(e: Event, own: SessionId) {
    e.Message? && HasSessionId(e.request) && e.request.sid != own
  }

  /** After session setup, a request under another id is refused or parked, and moves nothing.
      Without a request only the contactor moves a session, for a request parked under its id. */
  predicate Guarded(st: State, c: Context, e: Event, out: Out) {
    var left := Id(out.state) != Id(st);
    && (Level(st) > Rank(AtSessionSetup) && IsForeign(e, c.session.id) ==>
          && !left && out.ctx.session == c.session
          && (out.sent.Some? ==> out.sent.value.code.IsFailed()))
    && (!e.Message? ==>
          && out.ctx.session == c.session
          && (left ==> st.PowerDelivery? && st.parked.Some? && st.parked.value.sid == c.session.id && IsContactorReport(e)))
    && (e.Message? && !HasSessionId(e.request) && !st.SupportedAppProtocol? ==> !left && out.ctx.session == c.session)
    && (out.state.PowerDelivery? && out.state.parked.Some? ==>
          && st.PowerDelivery?
          && (out.state.parked == st.parked
              || (e.Message? && e.request.PowerDeliveryReq? && out.state.parked.value.sid == e.request.sid)))
  }

  /** When the ONGOING timer may run, and that its expiry is remembered. */
  predicate Ticks(st: State, c: Context, e: Event, out: Out) {
    var left := Id(out.state) != Id(st);
    && (left && Timing(Id(st)) ==> OngoingTimer !in out.ctx.timers || (OngoingTimer in c.timers && st.PowerDelivery?))
    && (OngoingTimer in out.ctx.timers ==> OngoingTimer in c.timers || st.Authorization? || st.ScheduleExchange?)
    && (out.state.Authorization? && out.state.authFirst ==>
          out.ctx.timers == c.timers && (st.Authorization? ==> st.authFirst))
    && (out.state.ScheduleExchange? && out.state.seFirst ==>
          out.ctx.timers == c.timers && (st.ScheduleExchange? ==> st.seFirst))
    && (st.Authorization? && (st.authLate || e == Expired(OngoingTimer)) ==> !left)
    && (st.ScheduleExchange? && (st.seLate || e == Expired(OngoingTimer)) ==> !left)
  }

  /** What one piece of news does to the pause context. */
  function Apply(p: Option<PauseContext>, n: News): Option<PauseContext> {
    if n.Created? && n.owner.Some? then Some(PauseContext(Digest(n.owner.value, n.session), n.session, NothingSelected))
    else if n.Paused? && p.Some? then Some(p.value.(selected := n.selected))
    else if n.Terminated? then None
    else p
  }

  /** News says what happened to the current session. */
  predicate Told(c: Context, out: Out, n: News) {
    if n.Created? then n.owner == c.cert && out.ctx.session == NewSession(n.session)
    else if n.Joined? then
      && c.cert == Some(n.cert) && n.asked != 0
      && c.pauseCtx == Some(PauseContext(Digest(n.cert, n.asked), n.session, n.selected))
      && out.ctx.session == NewSession(n.session).(selected := n.selected)
    else n.session == c.session.id && out.ctx.session == c.session && (n.Paused? ==> n.pauser == c.cert && n.selected == c.session.selected)
  }

  /** The pause context changes only with news, and the news is true. */
  predicate Tells(st: State, c: Context, out: Out) {
    && |out.news| <= 1
    && (out.news == [] ==> out.ctx.pauseCtx == c.pauseCtx)
    && (out.news != [] ==> out.ctx.pauseCtx == Apply(c.pauseCtx, out.news[0]) && Told(c, out, out.news[0]))
    && (out.news != [] && !st.SessionSetup? ==> out.news[0].Paused? || out.news[0].Terminated?)
    && (out.news != [] && st.SessionSetup? ==> out.news[0].Created? || out.news[0].Joined?)
    && (st.SessionSetup? && Id(out.state) != Id(st) ==> out.news != [])
  }

  predicate Conforms(st: State, c: Context, e: Event, out: Out) {
    Admits(st, c, e, out) && Moves(st, c, e, out) && Guarded(st, c, e, out) && Ticks(st, c, e, out)
    && Signals(st, out) && Shown(st, c, e, out) && Tells(st, c, out)
  }

  /** How far a session has come. */
  function Rank(s: StateId): nat {
    match s
    case AtSupportedAppProtocol => 0
    case AtSessionSetup => 1
    case AtAuthorizationSetup => 2
    case AtAuthorization => 3
    case AtServiceDiscovery => 4
    case AtServiceDetail => 5
    case AtServiceSelection => 6
    case AtAcParameters => 7
    case AtDcParameters => 7
    case AtScheduleExchange => 8
    case AtCableCheck => 9
    case AtPreCharge => 10
    case AtPowerDelivery => 11
    case AtAcLoop => 12
    case AtDcLoop => 12
    case AtWelding => 13
    case AtSessionStop => 14
  }

  const LAST_RANK := 14

  /** From charge parameter discovery on, the services are settled. */
  const PARAMETERS := 7

  function Level(st: State): nat {
    Rank(Id(st))
  }

  // --------------------------------------------------- what events do in any state

  /** The event changes no field of the state object, and is not the contactor's. */
  predicate IsIdle(st: State, e: Event) {
    match st
    case Authorization(_, _, _) => e != Expired(OngoingTimer) && !(e.Control? && e.control.AuthorizationResponse?)
    case ScheduleExchange(_, _, _) => e != Expired(OngoingTimer) && !(e.Control? && e.control.UpdateDynamic?)
    case AcParameters(_) => !(e.Control? && e.control.UpdateAcPresent?)
    case CableCheck(_, _) => !(e.Control? && e.control.CableCheckFinished?)
    case PowerDelivery(_, _, _) => !IsContactorReport(e)
    case AcLoop(_, _, _, _, _, _) =>
      !(e.Control? && (e.control.UpdateDynamic? || e.control.UpdateAcTarget? || e.control.UpdateAcPresent?))
    case DcLoop(_, _, _, _, _, _) => !(e.Control? && e.control.UpdateDynamic?)
    case _ => true
  }

  function Ignore(st: State, c: Context, e: Event): (out: Out)
    requires !e.Message? && IsIdle(st, e)
    ensures Kept(st, c, out) && Conforms(st, c, e, out)
  {
    Silent(st, c)
  }

  /** Answer, and stop the session; the state object stays as it is. */
  function Reject(st: State, c: Context, e: Event, reply: Reply): (out: Out)
    requires IsIdle(st, e) && !reply.body.DetailBody?
    requires IsForeign(e, c.session.id) ==> reply.code.IsFailed()
    ensures Kept(st, c, out) && Conforms(st, c, e, out)
  {
    Refuse(st, c, reply)
  }

  /** Answer without leaving the state. */
  function Stay(st: State, c: Context, e: Event, reply: Reply): (out: Out)
    requires IsIdle(st, e) && !reply.body.DetailBody?
    requires IsForeign(e, c.session.id) ==> reply.code.IsFailed()
    ensures Kept(st, c, out) && Conforms(st, c, e, out)
  {
    Answer(st, c, reply)
  }

  function SequenceError(st: State, c: Context, e: Event): (out: Out)
    requires e.Message?
    ensures Kept(st, c, out) && Conforms(st, c, e, out)
  {
    if HasSessionId(e.request) then Reject(st, c, e, Bare(FailedSequence)) else Silent(st, c.(stopped := true))
  }

  /** A request that is not the expected one, in a state where a stop request is answered. */
  function Unexpected(st: State, c: Context, e: Event): (out: Out)
    requires e.Message?
    ensures Kept(st, c, out) && Conforms(st, c, e, out)
  {
    hide Kept, Conforms, Reject, SequenceError;
    if e.request.SessionStopReq? then Reject(st, c, e, Bare(StopCode(c.session, e.request.sid, e.request.ending)))
    else SequenceError(st, c, e)
  }

  /** The ONGOING timeout is remembered. */
  function Latch(st: State, c: Context, e: Event): (out: Out)
    requires e == Expired(OngoingTimer) && (st.Authorization? || st.ScheduleExchange?)
    ensures Kept(st, c, out) && Conforms(st, c, e, out)
  {
    Silent(if st.Authorization? then st.(authLate := true) else st.(seLate := true), c)
  }

  // ---------------------------------------------------------------- session setup

  function AnswerProtocols(st: State, c: Context, e: Event): (out: Out)
    requires st.SupportedAppProtocol? && e.Message? && e.request.SupportedAppProtocolReq?
    ensures Kept(st, c, out) && Conforms(st, c, e, out)
  {
    var chosen := Negotiated(e.request.protocols, c.config.customProtocol);
    if chosen.None? then Stay(st, c, e, Bare(NegotiationFailed))
    else Answer(SessionSetup, c, Reply(NegotiationOk, ProtocolBody(chosen.value.schema)))
  }

  function FeedSupportedAppProtocol(st: State, c: Context, e: Event): (out: Out)
    requires st.SupportedAppProtocol?
    ensures Kept(st, c, out) && Conforms(st, c, e, out)
  {
    hide AnswerProtocols;
    if !e.Message? then Ignore(st, c, e)
    else if e.request.SupportedAppProtocolReq? then AnswerProtocols(st, c, e)
    else Silent(st, c.(stopped := true))
  }

  /** The paused session, if the EV names one and its certificate created it. */
  function Resumable(c: Context, sid: SessionId): Option<PauseContext> {
    if sid != 0 && c.cert.Some? && c.pauseCtx.Some? && c.pauseCtx.value.digest == Digest(c.cert.value, sid)
    then c.pauseCtx
    else None
  }

  function Rejoin(c: Context): Context
    requires c.pauseCtx.Some?
  {
    c.(session := NewSession(c.pauseCtx.value.id).(selected := c.pauseCtx.value.selected))
  }

  function JoinNews(c: Context): News
    requires c.pauseCtx.Some? && c.cert.Some?
  {
    var p := c.pauseCtx.value;
    Joined(c.cert.value, p.digest.id, p.id, p.selected)
  }

  function JoinAc(st: State, c: Context, e: Event): (out: Out)
    requires st.SessionSetup? && e.Message? && e.request.SessionSetupReq?
    requires Resumable(c, e.request.sid).Some? && c.pauseCtx.value.selected.IsAc()
    ensures Kept(st, c, out) && Conforms(st, c, e, out)
  {
    var d := Rejoin(c);
    Out(AcParametersOnEntry(d), d, Some(Bare(OkOldSession)), [], [JoinNews(c)])
  }

  function JoinDc(st: State, c: Context, e: Event): (out: Out)
    requires st.SessionSetup? && e.Message? && e.request.SessionSetupReq?
    requires Resumable(c, e.request.sid).Some? && c.pauseCtx.value.selected.IsDc()
    ensures Kept(st, c, out) && Conforms(st, c, e, out)
  {
    Out(DcParameters, Rejoin(c), Some(Bare(OkOldSession)), [], [JoinNews(c)])
  }

  /** A session that was paused without services stays where it is. */
  function JoinIdle(st: State, c: Context, e: Event): (out: Out)
    requires st.SessionSetup? && e.Message? && e.request.SessionSetupReq?
    requires Resumable(c, e.request.sid).Some?
    ensures Kept(st, c, out) && Conforms(st, c, e, out)
  {
    Out(st, Rejoin(c), Some(Bare(OkOldSession)), [], [JoinNews(c)])
  }

  function ResumeSession(st: State, c: Context, e: Event): (out: Out)
    requires st.SessionSetup? && e.Message? && e.request.SessionSetupReq?
    requires Resumable(c, e.request.sid).Some?
    ensures Kept(st, c, out) && Conforms(st, c, e, out)
  {
    hide Kept, Conforms, JoinAc, JoinDc, JoinIdle;
    if c.pauseCtx.value.selected.IsAc() then JoinAc(st, c, e)
    else if c.pauseCtx.value.selected.IsDc() then JoinDc(st, c, e)
    else JoinIdle(st, c, e)
  }

  function CreateSession(st: State, c: Context, e: Event): (out: Out)
    requires st.SessionSetup? && e.Message? && e.request.SessionSetupReq?
    ensures Kept(st, c, out) && Conforms(st, c, e, out)
  {
    var kept := if c.cert.Some?
                then Some(PauseContext(Digest(c.cert.value, e.newId), e.newId, NothingSelected))
                else c.pauseCtx;
    var d := c.(session := NewSession(e.newId), pauseCtx := kept);
    Out(AuthorizationSetup, d, Some(Bare(OkNewSession)), [], [Created(c.cert, e.newId)])
  }

  function FeedSessionSetup(st: State, c: Context, e: Event): (out: Out)
    requires st.SessionSetup?
    ensures Kept(st, c, out) && Conforms(st, c, e, out)
  {
    hide Kept, Conforms, Ignore, SequenceError, ResumeSession, CreateSession;
    if !e.Message? then Ignore(st, c, e)
    else if !e.request.SessionSetupReq? then SequenceError(st, c, e)
    else if Resumable(c, e.request.sid).Some? then ResumeSession(st, c, e)
    else CreateSession(st, c, e)
  }

  function SendAuthorizationSetup(st: State, c: Context, e: Event): (out: Out)
    requires st.AuthorizationSetup? && e.Message? && e.request.AuthorizationSetupReq? && e.request.sid == c.session.id
    ensures Kept(st, c, out) && Conforms(st, c, e, out)
  {
    hide Told, Apply, Resumes;
    var offered := c.session.offered.(auth := OfferedAuth(c.config.auth));
    Out(Authorization(Pending, true, false), c.(session := c.session.(offered := offered)),
        Some(Reply(Ok, OfferedAuthBody(OfferedAuth(c.config.auth)))), [RequireAuthEim], [])
  }

  function FeedAuthorizationSetup(st: State, c: Context, e: Event): (out: Out)
    requires st.AuthorizationSetup?
    ensures Kept(st, c, out) && Conforms(st, c, e, out)
  {
    hide Kept, Conforms, Ignore, Unexpected, Reject, SendAuthorizationSetup;
    if !e.Message? then Ignore(st, c, e)
    else if !e.request.AuthorizationSetupReq? then Unexpected(st, c, e)
    else if e.request.sid != c.session.id then Reject(st, c, e, Bare(FailedUnknownSession))
    else SendAuthorizationSetup(st, c, e)
  }

  function HearAuthorization(st: State, c: Context, e: Event): (out: Out)
    requires st.Authorization? && e.Control? && e.control.AuthorizationResponse?
    ensures Kept(st, c, out) && Conforms(st, c, e, out)
  {
    Silent(st.(status := if e.control.authorized then Accepted else Rejected), c)
  }

  function LeaveAuthorization(st: State, c: Context, e: Event, reply: Reply): (out: Out)
    requires st.Authorization? && st.status == Accepted && !st.authLate && e.Message? && e.request.AuthorizationReq?
    requires e.request.sid == c.session.id && !reply.body.DetailBody?
    ensures Kept(st, c, out) && Conforms(st, c, e, out)
  {
    hide Told, Apply, Resumes;
    Answer(ServiceDiscovery, c.(timers := StopTimer(c.timers, OngoingTimer)), reply)
  }

  /** The timers after a request: the first one starts ONGOING. */
  function Armed(timers: map<TimeoutType, nat>, first: bool, deadline: nat): map<TimeoutType, nat> {
    if first then StartTimer(timers, OngoingTimer, deadline) else timers
  }

  function RefuseAuthorization(st: State, c: Context, e: Event, reply: Reply, now: nat): (out: Out)
    requires st.Authorization? && e.Message? && e.request.AuthorizationReq? && !reply.body.DetailBody?
    requires reply.code.IsFailed()
    ensures Kept(st, c, out) && Conforms(st, c, e, out)
  {
    Refuse(st.(authFirst := false),
           c.(timers := Armed(c.timers, st.authFirst, now + TIMEOUT_EIM_ONGOING)), reply)
  }

  function WaitAuthorization(st: State, c: Context, e: Event, reply: Reply, now: nat): (out: Out)
    requires st.Authorization? && e.Message? && e.request.AuthorizationReq? && !reply.body.DetailBody?
    requires e.request.sid == c.session.id
    ensures Kept(st, c, out) && Conforms(st, c, e, out)
  {
    Answer(st.(authFirst := false),
           c.(timers := Armed(c.timers, st.authFirst, now + TIMEOUT_EIM_ONGOING)), reply)
  }

  function AnswerAuthorization(st: State, c: Context, e: Event, now: nat): (out: Out)
    requires st.Authorization? && e.Message? && e.request.AuthorizationReq?
    ensures Kept(st, c, out) && Conforms(st, c, e, out)
  {
    hide Kept, Conforms, LeaveAuthorization, RefuseAuthorization, WaitAuthorization, AuthorizationReply;
    var reply := AuthorizationReply(c, e.request.sid, e.request.service, st.status, st.authLate);
    if reply.code.IsFailed() then RefuseAuthorization(st, c, e, reply, now)
    else if st.status == Accepted then LeaveAuthorization(st, c, e, reply)
    else WaitAuthorization(st, c, e, reply, now)
  }

  function FeedAuthorization(st: State, c: Context, e: Event, now: nat): (out: Out)
    requires st.Authorization?
    ensures Kept(st, c, out) && Conforms(st, c, e, out)
  {
    hide Kept, Conforms, HearAuthorization, Latch, Ignore, Unexpected, AnswerAuthorization;
    if e.Control? && e.control.AuthorizationResponse? then HearAuthorization(st, c, e)
    else if e == Expired(OngoingTimer) then Latch(st, c, e)
    else if !e.Message? then Ignore(st, c, e)
    else if !e.request.AuthorizationReq? then Unexpected(st, c, e)
    else AnswerAuthorization(st, c, e, now)
  }

  // ----------------------------------------------------------- service negotiation

  function SendDiscovery(st: State, c: Context, e: Event): (out: Out)
    requires st.ServiceDiscovery? && e.Message? && e.request.ServiceDiscoveryReq? && e.request.sid == c.session.id
    ensures Kept(st, c, out) && Conforms(st, c, e, out)
  {
    hide Keep;
    var found := Discover(c.session, c.config, e.request.supported);
    Answer(ServiceDetail, c.(session := found), Reply(Ok, DiscoveryBody(found.offered.energy, found.offered.vas)))
  }

  function FeedServiceDiscovery(st: State, c: Context, e: Event): (out: Out)
    requires st.ServiceDiscovery?
    ensures Kept(st, c, out) && Conforms(st, c, e, out)
  {
    hide Kept, Conforms, Ignore, Unexpected, Reject, SendDiscovery;
    if !e.Message? then Ignore(st, c, e)
    else if !e.request.ServiceDiscoveryReq? then Unexpected(st, c, e)
    else if e.request.sid != c.session.id then Reject(st, c, e, Bare(FailedUnknownSession))
    else SendDiscovery(st, c, e)
  }

  /** Internet and parking answers of the callback go into the configuration instead. */
  function AbsorbReply(config: SessionConfig, wanted: uint16, reply: Option<seq<VasSet>>): (r: SessionConfig)
    ensures SameEquipment(r, config)
  {
    if IsEnergyService(wanted) || reply.None? then config
    else if wanted == INTERNET then config.(internet := PortsOf(reply.value))
    else if wanted == PARKING_STATUS then config.(parking := |reply.value|)
    else config
  }

  function PortsOf(sets: seq<VasSet>): seq<uint8> {
    seq(|sets|, i requires 0 <= i < |sets| => if 1 <= sets[i].id <= 4 then sets[i].id else 0)
  }

  function CustomReply(wanted: uint16, reply: Option<seq<VasSet>>): Option<seq<VasSet>> {
    if IsEnergyService(wanted) || wanted == INTERNET || wanted == PARKING_STATUS then None else reply
  }

  function SendDetail(st: State, c: Context, e: Event, config: SessionConfig, session: Session, reply: Reply): (out: Out)
    requires st.ServiceDetail? || st.ServiceSelection?
    requires e.Message? && e.request.ServiceDetailReq? && SameEquipment(config, c.config)
    requires session.id == c.session.id && session.selected == c.session.selected
    requires e.request.sid == c.session.id
    ensures Kept(st, c, out) && Conforms(st, c, e, out)
  {
    Answer(ServiceSelection, c.(config := config, session := session), reply)
  }

  function RefuseDetail(st: State, c: Context, e: Event, config: SessionConfig, session: Session, code: Code): (out: Out)
    requires st.ServiceDetail? || st.ServiceSelection?
    requires e.Message? && e.request.ServiceDetailReq? && SameEquipment(config, c.config)
    requires session.id == c.session.id && session.selected == c.session.selected
    requires e.request.sid != c.session.id ==> session == c.session && code.IsFailed()
    ensures Kept(st, c, out) && Conforms(st, c, e, out)
  {
    Refuse(st, c.(config := config, session := session), Bare(code))
  }

  /** The answer to a detail request; a success leads to selection. */
  function AnswerDetail(st: State, c: Context, e: Event): (out: Out)
    requires st.ServiceDetail? || st.ServiceSelection?
    requires e.Message? && e.request.ServiceDetailReq?
    ensures Kept(st, c, out) && Conforms(st, c, e, out)
  {
    hide Kept, Conforms, AbsorbReply, RefuseDetail, SendDetail, Detail, CustomReply;
    var wanted := e.request.wanted;
    var config := AbsorbReply(c.config, wanted, e.reply);
    if e.request.sid != c.session.id then RefuseDetail(st, c, e, config, c.session, FailedUnknownSession)
    else
      var r := Detail(c.session, config, wanted, CustomReply(wanted, e.reply));
      if r.code.IsFailed() then RefuseDetail(st, c, e, config, r.session, r.code)
      else SendDetail(st, c, e, config, r.session, Reply(r.code, DetailBody(wanted, r.sets)))
  }

  function FeedServiceDetail(st: State, c: Context, e: Event): (out: Out)
    requires st.ServiceDetail?
    ensures Kept(st, c, out) && Conforms(st, c, e, out)
  {
    hide Kept, Conforms, Ignore, Unexpected, AnswerDetail;
    if !e.Message? then Ignore(st, c, e)
    else if !e.request.ServiceDetailReq? then Unexpected(st, c, e)
    else AnswerDetail(st, c, e)
  }

  function EnterAcParameters(st: State, c: Context, e: Event, session: Session, code: Code): (out: Out)
    requires st.ServiceSelection? && e.Message? && e.request.ServiceSelectionReq? && e.request.sid == c.session.id
    requires session.id == c.session.id
    requires session.selected.IsAc()
    ensures Kept(st, c, out) && Conforms(st, c, e, out)
  {
    hide Told, Apply, Resumes;
    Answer(AcParametersOnEntry(c), c.(session := session), Bare(code))
  }

  function EnterDcParameters(st: State, c: Context, e: Event, session: Session, code: Code): (out: Out)
    requires st.ServiceSelection? && e.Message? && e.request.ServiceSelectionReq? && e.request.sid == c.session.id
    requires session.id == c.session.id
    requires session.selected.IsDc()
    ensures Kept(st, c, out) && Conforms(st, c, e, out)
  {
    hide Told, Apply, Resumes;
    Answer(DcParameters, c.(session := session), Bare(code))
  }

  function RefuseSelection(st: State, c: Context, e: Event, session: Session, code: Code): (out: Out)
    requires st.ServiceSelection? && e.Message? && e.request.ServiceSelectionReq? && e.request.sid == c.session.id
    requires session.id == c.session.id
    ensures Kept(st, c, out) && Conforms(st, c, e, out)
  {
    Refuse(st, c.(session := session), Bare(code))
  }

  function AnswerSelection(st: State, c: Context, e: Event): (out: Out)
    requires st.ServiceSelection? && e.Message? && e.request.ServiceSelectionReq?
    ensures Kept(st, c, out) && Conforms(st, c, e, out)
  {
    hide Kept, Conforms, SelectServices, EnterAcParameters, EnterDcParameters, RefuseSelection, Reject;
    if e.request.sid != c.session.id then Reject(st, c, e, Bare(FailedUnknownSession))
    else
      var (session, code) := SelectServices(c.session, e.request.energy, e.request.setId, e.request.vas);
      if !code.IsFailed() && session.selected.IsAc() then EnterAcParameters(st, c, e, session, code)
      else if !code.IsFailed() && session.selected.IsDc() then EnterDcParameters(st, c, e, session, code)
      else RefuseSelection(st, c, e, session, code)
  }

  function FeedServiceSelection(st: State, c: Context, e: Event): (out: Out)
    requires st.ServiceSelection?
    ensures Kept(st, c, out) && Conforms(st, c, e, out)
  {
    hide Kept, Conforms, Ignore, Unexpected, AnswerDetail, AnswerSelection;
    if !e.Message? then Ignore(st, c, e)
    else if e.request.ServiceDetailReq? then AnswerDetail(st, c, e)
    else if e.request.ServiceSelectionReq? then AnswerSelection(st, c, e)
    else Unexpected(st, c, e)
  }

  // ------------------------------------------------------------- before charging

  function AgreeParameters(st: State, c: Context, e: Event, reply: Reply): (out: Out)
    requires e.Message? && HasSessionId(e.request) && e.request.sid == c.session.id && !reply.body.DetailBody?
    requires st.AcParameters? || st.DcParameters?
    ensures Kept(st, c, out) && Conforms(st, c, e, out)
  {
    Answer(ScheduleExchange(NO_DYNAMIC, true, false), c, reply)
  }

  function AnswerAcParameters(st: State, c: Context, e: Event): (out: Out)
    requires st.AcParameters? && e.Message? && e.request.AcParametersReq?
    ensures Kept(st, c, out) && Conforms(st, c, e, out)
  {
    hide Kept, Conforms, Reject, AgreeParameters, AcParametersReply;
    var reply := AcParametersReply(c, e.request.sid, e.request.acMode, st.present);
    if reply.code.IsFailed() then Reject(st, c, e, reply) else AgreeParameters(st, c, e, reply)
  }

  function HearPresent(st: State, c: Context, e: Event): (out: Out)
    requires st.AcParameters? && e.Control? && e.control.UpdateAcPresent?
    ensures Kept(st, c, out) && Conforms(st, c, e, out)
  {
    Silent(AcParameters(e.control.present), c)
  }

  function FeedAcParameters(st: State, c: Context, e: Event): (out: Out)
    requires st.AcParameters?
    ensures Kept(st, c, out) && Conforms(st, c, e, out)
  {
    hide Kept, Conforms, HearPresent, Ignore, Unexpected, AnswerAcParameters;
    if e.Control? && e.control.UpdateAcPresent? then HearPresent(st, c, e)
    else if !e.Message? then Ignore(st, c, e)
    else if !e.request.AcParametersReq? then Unexpected(st, c, e)
    else AnswerAcParameters(st, c, e)
  }

  function FeedDcParameters(st: State, c: Context, e: Event): (out: Out)
    requires st.DcParameters?
    ensures Kept(st, c, out) && Conforms(st, c, e, out)
  {
    hide Kept, Conforms, Ignore, Unexpected, Reject, AgreeParameters, DcParametersReply;
    if !e.Message? then Ignore(st, c, e)
    else if !e.request.DcParametersReq? then Unexpected(st, c, e)
    else
      var reply := DcParametersReply(c, e.request.sid, e.request.dcMode);
      if reply.code.IsFailed() then Reject(st, c, e, reply) else AgreeParameters(st, c, e, reply)
  }

  function ProceedAc(st: State, c: Context, e: Event, reply: Reply): (out: Out)
    requires st.ScheduleExchange? && !st.seLate && c.session.selected.IsAc()
    requires e.Message? && e.request.ScheduleExchangeReq? && e.request.sid == c.session.id && !reply.body.DetailBody?
    ensures Kept(st, c, out) && Conforms(st, c, e, out)
  {
    hide Told, Apply, Resumes;
    Answer(PowerDelivery(0.0, false, None), c.(timers := StopTimer(c.timers, OngoingTimer)), reply)
  }

  function ProceedDc(st: State, c: Context, e: Event, reply: Reply): (out: Out)
    requires st.ScheduleExchange? && !st.seLate && c.session.selected.IsDc()
    requires e.Message? && e.request.ScheduleExchangeReq? && e.request.sid == c.session.id && !reply.body.DetailBody?
    ensures Kept(st, c, out) && Conforms(st, c, e, out)
  {
    hide Told, Apply, Resumes;
    Answer(CableCheck(false, false), c.(timers := StopTimer(c.timers, OngoingTimer)), reply)
  }

  function ProceedNowhere(st: State, c: Context, e: Event, reply: Reply): (out: Out)
    requires st.ScheduleExchange?
    requires e.Message? && e.request.ScheduleExchangeReq? && e.request.sid == c.session.id && !reply.body.DetailBody?
    ensures Kept(st, c, out) && Conforms(st, c, e, out)
  {
    Refuse(st.(seFirst := false), c.(timers := StopTimer(c.timers, OngoingTimer)), reply)
  }

  function RefuseSchedule(st: State, c: Context, e: Event, reply: Reply, now: nat): (out: Out)
    requires st.ScheduleExchange? && e.Message? && e.request.ScheduleExchangeReq? && reply.code.IsFailed() && !reply.body.DetailBody?
    ensures Kept(st, c, out) && Conforms(st, c, e, out)
  {
    Refuse(st.(seFirst := false), c.(timers := Armed(c.timers, st.seFirst, now + TIMEOUT_ONGOING)), reply)
  }

  function AnswerSchedule(st: State, c: Context, e: Event, now: nat): (out: Out)
    requires st.ScheduleExchange? && e.Message? && e.request.ScheduleExchangeReq?
    ensures Kept(st, c, out) && Conforms(st, c, e, out)
  {
    hide Kept, Conforms, RefuseSchedule, ProceedAc, ProceedDc, ProceedNowhere, ScheduleReply;
    var reply := ScheduleReply(c, e.request.sid, e.request.mode, st.seDynamic, st.seLate);
    if reply.code.IsFailed() then RefuseSchedule(st, c, e, reply, now)
    else if c.session.selected.IsAc() then ProceedAc(st, c, e, reply)
    else if c.session.selected.IsDc() then ProceedDc(st, c, e, reply)
    else ProceedNowhere(st, c, e, reply)
  }

  function HearDynamic(st: State, c: Context, e: Event): (out: Out)
    requires st.ScheduleExchange? && e.Control? && e.control.UpdateDynamic?
    ensures Kept(st, c, out) && Conforms(st, c, e, out)
  {
    Silent(st.(seDynamic := e.control.dynamic), c)
  }

  function FeedScheduleExchange(st: State, c: Context, e: Event, now: nat): (out: Out)
    requires st.ScheduleExchange?
    ensures Kept(st, c, out) && Conforms(st, c, e, out)
  {
    hide Kept, Conforms, HearDynamic, Latch, Ignore, Unexpected, AnswerSchedule;
    if e.Control? && e.control.UpdateDynamic? then HearDynamic(st, c, e)
    else if e == Expired(OngoingTimer) then Latch(st, c, e)
    else if !e.Message? then Ignore(st, c, e)
    else if !e.request.ScheduleExchangeReq? then Unexpected(st, c, e)
    else AnswerSchedule(st, c, e, now)
  }

  function CheckSignals(st: State): seq<Signal>
    requires st.CableCheck?
  {
    if st.initiated then [] else [StartCableCheck]
  }

  function HoldCableCheck(st: State, c: Context, e: Event): (out: Out)
    requires st.CableCheck? && e.Message? && e.request.CableCheckReq?
    ensures Kept(st, c, out) && Conforms(st, c, e, out)
  {
    var begun := st.(initiated := true);
    if e.request.sid != c.session.id then
      Out(begun, c.(stopped := true), Some(Bare(FailedUnknownSession)), CheckSignals(st), [])
    else Out(begun, c, Some(Reply(Ok, ProcessingBody(Ongoing))), CheckSignals(st), [])
  }

  function LeaveCableCheck(st: State, c: Context, e: Event): (out: Out)
    requires st.CableCheck? && st.done && e.Message? && e.request.CableCheckReq? && e.request.sid == c.session.id
    ensures Kept(st, c, out) && Conforms(st, c, e, out)
  {
    hide Told, Apply, Resumes;
    Out(PreCharge(false, 0.0), c, Some(Reply(Ok, ProcessingBody(Finished))), CheckSignals(st), [])
  }

  function AnswerCableCheck(st: State, c: Context, e: Event): (out: Out)
    requires st.CableCheck? && e.Message? && e.request.CableCheckReq?
    ensures Kept(st, c, out) && Conforms(st, c, e, out)
  {
    hide Kept, Conforms, LeaveCableCheck, HoldCableCheck;
    if e.request.sid == c.session.id && st.done then LeaveCableCheck(st, c, e) else HoldCableCheck(st, c, e)
  }

  function HearCableCheck(st: State, c: Context, e: Event): (out: Out)
    requires st.CableCheck? && e.Control? && e.control.CableCheckFinished?
    ensures Kept(st, c, out) && Conforms(st, c, e, out)
  {
    Silent(st.(done := e.control.ok), c)
  }

  function FeedCableCheck(st: State, c: Context, e: Event): (out: Out)
    requires st.CableCheck?
    ensures Kept(st, c, out) && Conforms(st, c, e, out)
  {
    hide Kept, Conforms, HearCableCheck, Ignore, Unexpected, AnswerCableCheck;
    if e.Control? && e.control.CableCheckFinished? then HearCableCheck(st, c, e)
    else if !e.Message? then Ignore(st, c, e)
    else if !e.request.CableCheckReq? then Unexpected(st, c, e)
    else AnswerCableCheck(st, c, e)
  }

  function PreSignals(st: State): seq<Signal>
    requires st.PreCharge?
  {
    if st.begun then [] else [PreChargeStarted]
  }

  function RefusePreCharge(st: State, c: Context, e: Event, reply: Reply): (out: Out)
    requires st.PreCharge? && e.Message? && e.request.PreChargeReq? && reply.code.IsFailed() && !reply.body.DetailBody?
    ensures Kept(st, c, out) && Conforms(st, c, e, out)
  {
    Out(st.(begun := true), c.(stopped := true), Some(reply), PreSignals(st), [])
  }

  function LeavePreCharge(st: State, c: Context, e: Event, reply: Reply): (out: Out)
    requires st.PreCharge? && e.Message? && e.request.PreChargeReq? && e.request.sid == c.session.id && !reply.body.DetailBody?
    ensures Kept(st, c, out) && Conforms(st, c, e, out)
  {
    hide Told, Apply, Resumes;
    Out(PowerDelivery(0.0, false, None), c, Some(reply), PreSignals(st), [])
  }

  function AnswerPreCharge(st: State, c: Context, e: Event): (out: Out)
    requires st.PreCharge? && e.Message? && e.request.PreChargeReq?
    ensures Kept(st, c, out) && Conforms(st, c, e, out)
  {
    hide Kept, Conforms, RefusePreCharge, LeavePreCharge, VoltageReply;
    var reply := VoltageReply(c, e.request.sid, st.preVoltage);
    if reply.code.IsFailed() then RefusePreCharge(st, c, e, reply) else LeavePreCharge(st, c, e, reply)
  }

  function HearVoltage(st: State, c: Context, e: Event): (out: Out)
    requires st.PreCharge? || st.PowerDelivery? || st.Welding?
    requires e.Control? && e.control.PresentVoltageCurrent?
    ensures Kept(st, c, out) && Conforms(st, c, e, out)
  {
    var v := e.control.voltage;
    Silent(if st.PreCharge? then st.(preVoltage := v) else if st.PowerDelivery? then st.(pdVoltage := v) else Welding(v), c)
  }

  function FeedPreCharge(st: State, c: Context, e: Event): (out: Out)
    requires st.PreCharge?
    ensures Kept(st, c, out) && Conforms(st, c, e, out)
  {
    hide Kept, Conforms, HearVoltage, Ignore, Unexpected, AnswerPreCharge;
    if e.Control? && e.control.PresentVoltageCurrent? then HearVoltage(st, c, e)
    else if !e.Message? then Ignore(st, c, e)
    else if !e.request.PreChargeReq? then Unexpected(st, c, e)
    else AnswerPreCharge(st, c, e)
  }

  function WithoutContactor(c: Context): Context {
    c.(timers := StopTimer(c.timers, Contactor))
  }

  /** No start of the session waits: one of another id is refused now. */
  function CloseContactor(st: State, c: Context, e: Event): (out: Out)
    requires st.PowerDelivery? && IsContactorReport(e)
    requires st.parked.Some? ==> st.parked.value.sid != c.session.id
    ensures Kept(st, c, out) && Conforms(st, c, e, out)
  {
    if st.parked.None? then Silent(st.(closed := true), WithoutContactor(c))
    else Refuse(st.(closed := true), WithoutContactor(c), Bare(FailedUnknownSession))
  }

  function StartParked(st: State, c: Context, e: Event): (out: Out)
    requires st.PowerDelivery? && st.parked.Some? && st.parked.value.sid == c.session.id && IsContactorReport(e)
    ensures Kept(st, c, out) && Conforms(st, c, e, out)
  {
    Answer(AcLoopOnEntry(c), WithoutContactor(c), PowerDeliveryReply(c, st.parked.value.sid, st.parked.value.progress, false))
  }

  /** A `ClosedContactor` event of either polarity counts as closed: the code assigns the pointer. */
  function FeedContactor(st: State, c: Context, e: Event): (out: Out)
    requires st.PowerDelivery? && IsContactorReport(e)
    ensures Kept(st, c, out) && Conforms(st, c, e, out)
  {
    hide Kept, Conforms, StartParked, CloseContactor;
    if st.parked.Some? && st.parked.value.sid == c.session.id then StartParked(st, c, e) else CloseContactor(st, c, e)
  }

  function StartSignals(e: Event): seq<Signal>
    requires e.Message? && e.request.PowerDeliveryReq?
  {
    if e.request.progress == Start then [SetupFinished] else []
  }

  function BeginAc(st: State, c: Context, e: Event, reply: Reply): (out: Out)
    requires st.PowerDelivery? && e.Message? && e.request.PowerDeliveryReq? && e.request.sid == c.session.id && !reply.body.DetailBody?
    requires c.session.selected.IsAc() && st.closed && e.request.progress == Start
    ensures Kept(st, c, out) && Conforms(st, c, e, out)
  {
    hide Told, Apply, Resumes;
    Out(AcLoopOnEntry(c), c, Some(reply), [SetupFinished], [])
  }

  function SkipToAc(st: State, c: Context, e: Event, reply: Reply): (out: Out)
    requires st.PowerDelivery? && e.Message? && e.request.PowerDeliveryReq? && e.request.sid == c.session.id && !reply.body.DetailBody?
    requires c.session.selected.IsAc() && e.request.progress != Start
    ensures Kept(st, c, out) && Conforms(st, c, e, out)
  {
    hide Told, Apply, Resumes;
    Answer(AcLoopOnEntry(c), c, reply)
  }

  function EnterAcLoop(st: State, c: Context, e: Event, reply: Reply): (out: Out)
    requires st.PowerDelivery? && e.Message? && e.request.PowerDeliveryReq? && e.request.sid == c.session.id && !reply.body.DetailBody?
    requires c.session.selected.IsAc() && (st.closed || e.request.progress != Start)
    ensures Kept(st, c, out) && Conforms(st, c, e, out)
  {
    hide Kept, Conforms, BeginAc, SkipToAc;
    if e.request.progress == Start then BeginAc(st, c, e, reply) else SkipToAc(st, c, e, reply)
  }

  function EnterDcLoop(st: State, c: Context, e: Event, reply: Reply): (out: Out)
    requires st.PowerDelivery? && e.Message? && e.request.PowerDeliveryReq? && e.request.sid == c.session.id && !reply.body.DetailBody?
    requires c.session.selected.IsDc()
    ensures Kept(st, c, out) && Conforms(st, c, e, out)
  {
    hide Told, Apply, Resumes;
    Out(DcLoopOnEntry(c), c, Some(reply), StartSignals(e), [])
  }

  function RefuseStart(st: State, c: Context, e: Event, reply: Reply): (out: Out)
    requires st.PowerDelivery? && e.Message? && e.request.PowerDeliveryReq? && !reply.body.DetailBody?
    requires e.request.sid != c.session.id ==> reply.code.IsFailed()
    ensures Kept(st, c, out) && Conforms(st, c, e, out)
  {
    Out(st, c.(stopped := true), Some(reply), StartSignals(e), [])
  }

  function JudgeStart(st: State, c: Context, e: Event): (out: Out)
    requires st.PowerDelivery? && e.Message? && e.request.PowerDeliveryReq?
    requires c.session.selected.IsAc() ==> st.closed || e.request.progress != Start
    ensures Kept(st, c, out) && Conforms(st, c, e, out)
  {
    hide Kept, Conforms, EnterAcLoop, EnterDcLoop, RefuseStart, PowerDeliveryReply;
    var reply := PowerDeliveryReply(c, e.request.sid, e.request.progress, false);
    if !reply.code.IsFailed() && c.session.selected.IsAc() then EnterAcLoop(st, c, e, reply)
    else if !reply.code.IsFailed() && c.session.selected.IsDc() then EnterDcLoop(st, c, e, reply)
    else RefuseStart(st, c, e, reply)
  }

  function ParkStart(st: State, c: Context, e: Event, now: nat): (out: Out)
    requires st.PowerDelivery? && !st.closed && c.session.selected.IsAc()
    requires e.Message? && e.request.PowerDeliveryReq? && e.request.progress == Start
    ensures Kept(st, c, out) && Conforms(st, c, e, out)
  {
    Out(st.(parked := Some(Parked(e.request.sid, Start))),
        c.(timers := StartTimer(c.timers, Contactor, now + TIMEOUT_CONTACTOR)),
        None, [SetupFinished, AcCloseContactor], [])
  }

  /** A power-delivery request before charging: parked until the AC contactor is reported, or judged. */
  function FeedStart(st: State, c: Context, e: Event, now: nat): (out: Out)
    requires st.PowerDelivery? && e.Message? && e.request.PowerDeliveryReq?
    ensures Kept(st, c, out) && Conforms(st, c, e, out)
  {
    hide Kept, Conforms, ParkStart, JudgeStart;
    if c.session.selected.IsAc() && !st.closed && e.request.progress == Start then ParkStart(st, c, e, now)
    else JudgeStart(st, c, e)
  }

  function AnswerLatePreCharge(st: State, c: Context, e: Event): (out: Out)
    requires st.PowerDelivery? && e.Message? && e.request.PreChargeReq?
    ensures Kept(st, c, out) && Conforms(st, c, e, out)
  {
    hide Kept, Conforms, Reject, Stay, VoltageReply;
    var reply := VoltageReply(c, e.request.sid, st.pdVoltage);
    if reply.code.IsFailed() then Reject(st, c, e, reply) else Stay(st, c, e, reply)
  }

  function ExpireContactor(st: State, c: Context, e: Event): (out: Out)
    requires st.PowerDelivery? && e == Expired(Contactor)
    ensures Kept(st, c, out) && Conforms(st, c, e, out)
  {
    hide Kept, Conforms, Reject, PowerDeliveryReply;
    var p := st.parked.GetOr(Parked(0, Start));
    Reject(st, c, e, PowerDeliveryReply(c, p.sid, p.progress, true))
  }

  function FeedPowerDelivery(st: State, c: Context, e: Event, now: nat): (out: Out)
    requires st.PowerDelivery?
    ensures Kept(st, c, out) && Conforms(st, c, e, out)
  {
    hide Kept, Conforms, HearVoltage, FeedContactor, ExpireContactor, Ignore, AnswerLatePreCharge, FeedStart, SequenceError;
    if e.Control? && e.control.PresentVoltageCurrent? then HearVoltage(st, c, e)
    else if IsContactorReport(e) then FeedContactor(st, c, e)
    else if e == Expired(Contactor) then ExpireContactor(st, c, e)
    else if !e.Message? then Ignore(st, c, e)
    else if e.request.PreChargeReq? then AnswerLatePreCharge(st, c, e)
    else if e.request.PowerDeliveryReq? then FeedStart(st, c, e, now)
    else SequenceError(st, c, e)
  }

  // ------------------------------------------------------------ charging and after

  function EndAcLoop(st: State, c: Context, e: Event, reply: Reply): (out: Out)
    requires st.AcLoop? && e.Message? && e.request.PowerDeliveryReq? && e.request.sid == c.session.id && !reply.body.DetailBody?
    ensures Kept(st, c, out) && Conforms(st, c, e, out)
  {
    hide Told, Apply, Resumes;
    Out(SessionStop, c, Some(reply), [ChargeLoopFinished, AcOpenContactor], [])
  }

  function EndDcLoop(st: State, c: Context, e: Event, reply: Reply): (out: Out)
    requires st.DcLoop? && e.Message? && e.request.PowerDeliveryReq? && e.request.sid == c.session.id && !reply.body.DetailBody?
    ensures Kept(st, c, out) && Conforms(st, c, e, out)
  {
    hide Told, Apply, Resumes;
    Out(Welding(0.0), c, Some(reply), [ChargeLoopFinished, DcOpenContactor], [])
  }

  function StopAcLoop(st: State, c: Context, e: Event): (out: Out)
    requires st.AcLoop? && e.Message? && e.request.PowerDeliveryReq?
    ensures Kept(st, c, out) && Conforms(st, c, e, out)
  {
    hide Kept, Conforms, Reject, EndAcLoop, Stay, PowerDeliveryReply;
    var reply := PowerDeliveryReply(c, e.request.sid, e.request.progress, false);
    if reply.code.IsFailed() then Reject(st, c, e, reply)
    else if e.request.progress == StopCharge then EndAcLoop(st, c, e, reply)
    else Stay(st, c, e, reply)
  }

  /** `first_entry_in_charge_loop` starts as false in AC, so the start signal never comes. */
  function SendAcLoop(st: State, c: Context, e: Event, reply: Reply): (out: Out)
    requires st.AcLoop? && e.Message? && e.request.AcLoopReq? && !reply.body.DetailBody?
    requires e.request.sid != c.session.id ==> reply.code.IsFailed()
    ensures Kept(st, c, out) && Conforms(st, c, e, out)
  {
    var told := if st.acFirst then [ChargeLoopStarted] else [];
    var next := st.(acFirst := false);
    if reply.code.IsFailed() then Out(next, c.(stopped := true), Some(reply), told, [])
    else Out(next, c, Some(reply), told, [])
  }

  function AnswerAcLoop(st: State, c: Context, e: Event): (out: Out)
    requires st.AcLoop? && e.Message? && e.request.AcLoopReq?
    ensures Kept(st, c, out) && Conforms(st, c, e, out)
  {
    hide AcLoopReply, Kept, Conforms;
    SendAcLoop(st, c, e, AcLoopReply(c, st, e.request.sid, e.request.acLoop))
  }

  function ControlAcLoop(st: State, e: ControlEvent): (r: State)
    requires st.AcLoop?
    ensures r.AcLoop? && r.acFirst == st.acFirst
    ensures r.acDynamic == DynamicAfter(Control(e), st.acDynamic)
    ensures r.acTarget == TargetAfter(Control(e), st.acTarget)
    ensures r.acPresent == PresentAfter(Control(e), st.acPresent)
  {
    if e.StopCharging? then st.(acStop := e.stop)
    else if e.PauseCharging? then st.(acPause := e.pause)
    else if e.UpdateDynamic? then st.(acDynamic := e.dynamic)
    else if e.UpdateAcTarget? then st.(acTarget := e.target)
    else if e.UpdateAcPresent? then st.(acPresent := e.present)
    else st
  }

  function HearInAcLoop(st: State, c: Context, e: Event): (out: Out)
    requires st.AcLoop? && e.Control?
    ensures Kept(st, c, out) && Conforms(st, c, e, out)
  {
    hide ControlAcLoop;
    Silent(ControlAcLoop(st, e.control), c)
  }

  function FeedAcLoop(st: State, c: Context, e: Event): (out: Out)
    requires st.AcLoop?
    ensures Kept(st, c, out) && Conforms(st, c, e, out)
  {
    hide Kept, Conforms, HearInAcLoop, Ignore, StopAcLoop, AnswerAcLoop, SequenceError;
    if e.Control? then HearInAcLoop(st, c, e)
    else if e.Expired? then Ignore(st, c, e)
    else if e.request.PowerDeliveryReq? then StopAcLoop(st, c, e)
    else if e.request.AcLoopReq? then AnswerAcLoop(st, c, e)
    else SequenceError(st, c, e)
  }

  function ContinueDcLoop(st: State, c: Context, e: Event, reply: Reply): (out: Out)
    requires st.DcLoop? && e.Message? && e.request.PowerDeliveryReq? && e.request.sid == c.session.id
    requires !reply.body.DetailBody?
    ensures Kept(st, c, out) && Conforms(st, c, e, out)
  {
    Answer(st.(dcFirst := true), c, reply)
  }

  function StopDcLoop(st: State, c: Context, e: Event): (out: Out)
    requires st.DcLoop? && e.Message? && e.request.PowerDeliveryReq?
    ensures Kept(st, c, out) && Conforms(st, c, e, out)
  {
    hide Kept, Conforms, Reject, EndDcLoop, ContinueDcLoop, PowerDeliveryReply;
    var reply := PowerDeliveryReply(c, e.request.sid, e.request.progress, false);
    if reply.code.IsFailed() then Reject(st, c, e, reply)
    else if e.request.progress == StopCharge then EndDcLoop(st, c, e, reply)
    else ContinueDcLoop(st, c, e, reply)
  }

  function SendDcLoop(st: State, c: Context, e: Event, reply: Reply): (out: Out)
    requires st.DcLoop? && e.Message? && e.request.DcLoopReq? && !reply.body.DetailBody?
    requires e.request.sid != c.session.id ==> reply.code.IsFailed()
    ensures Kept(st, c, out) && Conforms(st, c, e, out)
  {
    var told := if st.dcFirst then [ChargeLoopStarted] else [];
    var next := st.(dcFirst := false);
    if reply.code.IsFailed() then Out(next, c.(stopped := true), Some(reply), told, [])
    else Out(next, c, Some(reply), told, [])
  }

  function AnswerDcLoop(st: State, c: Context, e: Event): (out: Out)
    requires st.DcLoop? && e.Message? && e.request.DcLoopReq?
    ensures Kept(st, c, out) && Conforms(st, c, e, out)
  {
    hide Kept, Conforms, SendDcLoop, DcLoopReply;
    SendDcLoop(st, c, e, DcLoopReply(c, st, e.request.sid, e.request.dcLoop))
  }

  function ControlDcLoop(st: State, e: ControlEvent): (r: State)
    requires st.DcLoop?
    ensures r.DcLoop? && r.dcDynamic == DynamicAfter(Control(e), st.dcDynamic)
  {
    if e.PresentVoltageCurrent? then st.(dcVoltage := e.voltage, dcCurrent := e.current)
    else if e.StopCharging? then st.(dcStop := e.stop)
    else if e.PauseCharging? then st.(dcPause := e.pause)
    else if e.UpdateDynamic? then st.(dcDynamic := e.dynamic)
    else st
  }

  function HearInDcLoop(st: State, c: Context, e: Event): (out: Out)
    requires st.DcLoop? && e.Control?
    ensures Kept(st, c, out) && Conforms(st, c, e, out)
  {
    hide ControlDcLoop;
    Silent(ControlDcLoop(st, e.control), c)
  }

  function FeedDcLoop(st: State, c: Context, e: Event): (out: Out)
    requires st.DcLoop?
    ensures Kept(st, c, out) && Conforms(st, c, e, out)
  {
    hide Kept, Conforms, HearInDcLoop, Ignore, StopDcLoop, AnswerDcLoop, SequenceError;
    if e.Control? then HearInDcLoop(st, c, e)
    else if e.Expired? then Ignore(st, c, e)
    else if e.request.PowerDeliveryReq? then StopDcLoop(st, c, e)
    else if e.request.DcLoopReq? then AnswerDcLoop(st, c, e)
    else SequenceError(st, c, e)
  }

  function PauseSession(st: State, c: Context, e: Event, reply: Reply): (out: Out)
    requires (st.Welding? || st.SessionStop?) && e.Message? && e.request.SessionStopReq?
    requires !reply.body.DetailBody? && (e.request.sid != c.session.id ==> reply.code.IsFailed())
    ensures Kept(st, c, out) && Conforms(st, c, e, out)
  {
    var kept := if c.pauseCtx.Some? then Some(c.pauseCtx.value.(selected := c.session.selected)) else None;
    Out(st, c.(paused := true, pauseCtx := kept), Some(reply), [], [Paused(c.cert, c.session.id, c.session.selected)])
  }

  function TerminateSession(st: State, c: Context, e: Event, reply: Reply): (out: Out)
    requires (st.Welding? || st.SessionStop?) && e.Message? && e.request.SessionStopReq?
    requires !reply.body.DetailBody? && (e.request.sid != c.session.id ==> reply.code.IsFailed())
    ensures Kept(st, c, out) && Conforms(st, c, e, out)
  {
    Out(st, c.(stopped := true, pauseCtx := None), Some(reply), [], [Terminated(c.session.id)])
  }

  /** A stop request at the end of charging, where pausing is possible. */
  function EndSession(st: State, c: Context, e: Event): (out: Out)
    requires (st.Welding? || st.SessionStop?) && e.Message? && e.request.SessionStopReq?
    ensures Kept(st, c, out) && Conforms(st, c, e, out)
  {
    hide Kept, Conforms, PauseSession, TerminateSession, Stay;
    var reply := Bare(StopCode(c.session, e.request.sid, e.request.ending));
    match e.request.ending
    case Pause => PauseSession(st, c, e, reply)
    case Terminate => TerminateSession(st, c, e, reply)
    case ServiceRenegotiation => Stay(st, c, e, reply)
  }

  function LeaveWelding(st: State, c: Context, e: Event, reply: Reply): (out: Out)
    requires st.Welding? && e.Message? && e.request.WeldingReq? && e.request.sid == c.session.id && !reply.body.DetailBody?
    ensures Kept(st, c, out) && Conforms(st, c, e, out)
  {
    hide Told, Apply, Resumes;
    Answer(SessionStop, c, reply)
  }

  function AnswerWelding(st: State, c: Context, e: Event): (out: Out)
    requires st.Welding? && e.Message? && e.request.WeldingReq?
    ensures Kept(st, c, out) && Conforms(st, c, e, out)
  {
    hide Kept, Conforms, Reject, Stay, LeaveWelding, VoltageReply;
    var reply := VoltageReply(c, e.request.sid, st.weldVoltage);
    if reply.code.IsFailed() then Reject(st, c, e, reply)
    else if e.request.processing == Ongoing then Stay(st, c, e, reply)
    else LeaveWelding(st, c, e, reply)
  }

  function FeedWelding(st: State, c: Context, e: Event): (out: Out)
    requires st.Welding?
    ensures Kept(st, c, out) && Conforms(st, c, e, out)
  {
    hide Kept, Conforms, HearVoltage, Ignore, AnswerWelding, EndSession, SequenceError;
    if e.Control? && e.control.PresentVoltageCurrent? then HearVoltage(st, c, e)
    else if !e.Message? then Ignore(st, c, e)
    else if e.request.WeldingReq? then AnswerWelding(st, c, e)
    else if e.request.SessionStopReq? then EndSession(st, c, e)
    else SequenceError(st, c, e)
  }

  function FeedSessionStop(st: State, c: Context, e: Event): (out: Out)
    requires st.SessionStop?
    ensures Kept(st, c, out) && Conforms(st, c, e, out)
  {
    hide Kept, Conforms, Ignore, EndSession, SequenceError;
    if !e.Message? then Ignore(st, c, e)
    else if e.request.SessionStopReq? then EndSession(st, c, e)
    else SequenceError(st, c, e)
  }

  // --------------------------------------------------------------------- dispatch

  /** The states that agree on a session and on services. */
  function FeedSetup(st: State, c: Context, e: Event, now: nat): (out: Out)
    requires Level(st) < PARAMETERS
    ensures Kept(st, c, out) && Conforms(st, c, e, out)
  {
    hide Kept, Conforms, FeedSupportedAppProtocol, FeedSessionSetup, FeedAuthorizationSetup, FeedAuthorization,
      FeedServiceDiscovery, FeedServiceDetail, FeedServiceSelection;
    match st
    case SupportedAppProtocol => FeedSupportedAppProtocol(st, c, e)
    case SessionSetup => FeedSessionSetup(st, c, e)
    case AuthorizationSetup => FeedAuthorizationSetup(st, c, e)
    case Authorization(_, _, _) => FeedAuthorization(st, c, e, now)
    case ServiceDiscovery => FeedServiceDiscovery(st, c, e)
    case ServiceDetail => FeedServiceDetail(st, c, e)
    case ServiceSelection => FeedServiceSelection(st, c, e)
  }

  /** The states that prepare, perform and end the energy transfer. */
  function FeedCharging(st: State, c: Context, e: Event, now: nat): (out: Out)
    requires Level(st) >= PARAMETERS
    ensures Kept(st, c, out) && Conforms(st, c, e, out)
  {
    hide Kept, Conforms, FeedAcParameters, FeedDcParameters, FeedScheduleExchange, FeedCableCheck, FeedPreCharge,
      FeedPowerDelivery, FeedAcLoop, FeedDcLoop, FeedWelding, FeedSessionStop;
    match st
    case AcParameters(_) => FeedAcParameters(st, c, e)
    case DcParameters => FeedDcParameters(st, c, e)
    case ScheduleExchange(_, _, _) => FeedScheduleExchange(st, c, e, now)
    case CableCheck(_, _) => FeedCableCheck(st, c, e)
    case PreCharge(_, _) => FeedPreCharge(st, c, e)
    case PowerDelivery(_, _, _) => FeedPowerDelivery(st, c, e, now)
    case AcLoop(_, _, _, _, _, _) => FeedAcLoop(st, c, e)
    case DcLoop(_, _, _, _, _, _) => FeedDcLoop(st, c, e)
    case Welding(_) => FeedWelding(st, c, e)
    case SessionStop => FeedSessionStop(st, c, e)
  }

  /** `FSM::feed`. */
  function Feed(st: State, c: Context, e: Event, now: nat): (out: Out)
    ensures Kept(st, c, out) && Conforms(st, c, e, out)
  {
    hide *;
    if Level(st) < PARAMETERS then FeedSetup(st, c, e, now) else FeedCharging(st, c, e, now)
  }

  // ----------------------------------------------------------------------- step

  /** What `poll` keeps of a control event before the state sees it. */
  function Absorb(c: Context, e: Event): Context {
    if !e.Control? then c
    else if e.control.UpdateDcLimits? then c.(config := c.config.(dcLimits := e.control.dc))
    else if e.control.EnergyServices? then c.(config := c.config.(energy := e.control.energy))
    else if e.control.SupportedVas? then c.(config := c.config.(vas := e.control.vas))
    else if e.control.UpdateAcLimits? then c.(config := c.config.(acLimits := e.control.ac))
    else if e.control.UpdateDynamic? then c.(dynamicCache := Some(e.control.dynamic))
    else if e.control.UpdateAcTarget? then c.(targetCache := Some(e.control.target))
    else if e.control.UpdateAcPresent? then c.(presentCache := Some(e.control.present))
    else c
  }

  function Receive(m: Machine, e: Event): Machine {
    m.(ctx := Absorb(m.ctx, e))
  }

  /** The history after a `feed`; a response carries the current session id. */
  function Recorded(log: History, at: StateId, e: Event, out: Out): History {
    History(
      log.events + [Delivery(at, e)],
      log.signals + out.signals,
      if out.sent.Some? then log.responses + [Response(out.ctx.session.id, out.sent.value.code, out.sent.value.body)]
      else log.responses,
      log.news + out.news)
  }

  /** The event handled by the current state, and recorded with what came of it. */
  function Fed(m: Machine, i: Input): Machine {
    var out := Feed(m.state, m.ctx, i.event, i.now);
    Machine(out.state, out.ctx, Recorded(m.log, Id(m.state), i.event, out))
  }

  /** `poll` resets an expired timer once the state has seen it. */
  function Settle(m: Machine, e: Event): Machine {
    if e.Expired? then m.(ctx := m.ctx.(timers := StopTimer(m.ctx.timers, e.timer))) else m
  }

  /** One event taken by `poll`: cached, fed, settled. */
  function Step(m: Machine, i: Input): Machine {
    Settle(Fed(Receive(m, i.event), i), i.event)
  }

  function Run(m: Machine, inputs: seq<Input>): Machine {
    hide Step;
    if inputs == [] then m
    else Step(Run(m, inputs[..|inputs| - 1]), inputs[|inputs| - 1])
  }

  /** Caching touches only the four limits and lists of the configuration and the three caches. */
  lemma ReceiveKeeps(m: Machine, e: Event)
    ensures var n := Receive(m, e);
      && n.state == m.state && n.log == m.log
      && n.ctx == m.ctx.(
           config := n.ctx.config, dynamicCache := n.ctx.dynamicCache,
           targetCache := n.ctx.targetCache, presentCache := n.ctx.presentCache)
      && n.ctx.config == m.ctx.config.(
           dcLimits := n.ctx.config.dcLimits, acLimits := n.ctx.config.acLimits,
           energy := n.ctx.config.energy, vas := n.ctx.config.vas)
  {
  }
}
