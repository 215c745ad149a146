/** What the EV is answered: when a request succeeds, and that a success shows the latest values. */
module Answers {
  import opened Common
  import opened Types
  import opened Machine
  import opened Frame
  import opened Safety
  import opened Caches
  import opened AcDerControl
  import opened DerSession
  import opened Values

  // ------------------------------------------------------------- which requests fit

  function ControlOfAc(mode: AcLoopMode): ControlMode {
    if mode == ScheduledAc || mode == ScheduledBptAc || mode == ScheduledDerAc then Scheduled else Dynamic
  }

  function ServiceOfAc(mode: AcLoopMode): Service {
    if mode == ScheduledAc || mode == DynamicAc then AC
    else if mode == ScheduledBptAc || mode == DynamicBptAc then AC_BPT
    else AC_DER
  }

  /** The request asks for the selected control mode and service, and DER control is granted. */
  predicate FitsAc(c: Context, mode: AcLoopMode) {
    var s := c.session.selected;
    && s.Mode() == Some(ControlOfAc(mode)) && s.Energy() == ServiceOfAc(mode)
    && (ServiceOfAc(mode) == AC_DER ==> IsGranted(s, c.config.provider))
  }

  /** A DC request fits one of the plain services, or one of the bidirectional ones with discharge limits. */
  predicate FitsDc(c: Context, mode: DcLoopMode) {
    var s := c.session.selected;
    && s.Mode() == Some(if mode == ScheduledDc || mode == ScheduledBptDc then Scheduled else Dynamic)
    && (if mode == ScheduledDc || mode == DynamicDc then s.Energy() in {DC, MCS}
        else s.Energy() in {DC_BPT, MCS_BPT} && c.config.dcLimits.discharge.Some?)
  }

  /** Dynamic parameters go out in dynamic mode when the SECC provides the mobility needs. */
  function Provided(s: Selected, d: DynamicParameters): Option<DynamicParameters> {
    if s.Mode() == Some(Dynamic) && s.Mobility() == Some(ProvidedBySecc) then Some(d) else None
  }

  /** A stop outranks a pause, which a dynamic session may delay by a minute. */
  predicate Notifies(status: Option<Notification>, s: Selected, stop: bool, pause: bool) {
    && (status == None <==> !stop && !pause)
    && (status == Some(NotifyTerminate) <==> stop)
    && (status == Some(NotifyPause(60)) <==> pause && !stop && s.Mode() == Some(Dynamic))
    && (status == Some(NotifyPause(0)) <==> pause && !stop && s.Mode() != Some(Dynamic))
  }

  // --------------------------------------------------------------- single answers

  lemma {:induction false} AcLoopAnswer(c: Context, st: State, sid: SessionId, mode: AcLoopMode)
    requires st.AcLoop?
    ensures var r := AcLoopReply(c, st, sid, mode);
      && (r.code == Ok <==> sid == c.session.id && FitsAc(c, mode))
      && (r.code != Ok ==> r.code.IsFailed() && r.body == NoBody)
      && (r.code == Ok ==>
            && r.body.AcLoopBody? && r.body.acLoop == mode
            && r.body.target == st.acTarget && r.body.loopPresent == st.acPresent
            && r.body.acDynamic == Provided(c.session.selected, st.acDynamic)
            && r.body.derLimits == (if ServiceOfAc(mode) == AC_DER then Some(c.config.acLimits) else None)
            && r.body.q == (if ServiceOfAc(mode) == AC_DER then Some(QOf(c.config.provider)) else None)
            && r.body.cosPhi == (if ServiceOfAc(mode) == AC_DER then Some(CosPhiOf(c.config.provider)) else None)
            && Notifies(r.body.acStatus, c.session.selected, st.acStop, st.acPause))
  {
    hide DerGate, InOrder, Grantable, ControlsOf;
    GateExact(c.session.selected, c.config.provider);
  }

  lemma {:induction false} DcLoopAnswer(c: Context, st: State, sid: SessionId, mode: DcLoopMode)
    requires st.DcLoop?
    ensures var r := DcLoopReply(c, st, sid, mode);
      && (r.code == Ok <==> sid == c.session.id && FitsDc(c, mode))
      && (r.code != Ok ==> r.code.IsFailed() && r.body == NoBody)
      && (r.code == Ok ==>
            && r.body.DcLoopBody? && r.body.dcLoop == mode && r.body.loopLimits == c.config.dcLimits
            && r.body.loopVoltage == st.dcVoltage && r.body.loopCurrent == st.dcCurrent
            && r.body.dcDynamic == Provided(c.session.selected, st.dcDynamic)
            && Notifies(r.body.dcStatus, c.session.selected, st.dcStop, st.dcPause))
  {
  }

  // -------------------------------------------------------------------- over runs

  /** The response that a message step adds. */
  function Added(m: Machine, n: Machine): Option<Response> {
    if |n.log.responses| == |m.log.responses| + 1 then Some(n.log.responses[|m.log.responses|]) else None
  }

  // ------------------------------------------------------------------- charge loops

  predicate AsksAcLoop(e: Event) {
    e.Message? && e.request.AcLoopReq?
  }

  predicate AsksDcLoop(e: Event) {
    e.Message? && e.request.DcLoopReq?
  }

  /** The step adds the reply, and is stopped by a failure. */
  predicate AcLoopAnswered(m: Machine, e: Event, n: Machine) {
    m.state.AcLoop? && AsksAcLoop(e) ==>
      var r := AcLoopReply(m.ctx, m.state, e.request.sid, e.request.acLoop);
      && Added(m, n) == Some(Response(m.ctx.session.id, r.code, r.body)) && Id(n.state) == Id(m.state)
      && n.ctx.stopped == (m.ctx.stopped || r.code.IsFailed())
  }

  predicate DcLoopAnswered(m: Machine, e: Event, n: Machine) {
    m.state.DcLoop? && AsksDcLoop(e) ==>
      var r := DcLoopReply(m.ctx, m.state, e.request.sid, e.request.dcLoop);
      && Added(m, n) == Some(Response(m.ctx.session.id, r.code, r.body)) && Id(n.state) == Id(m.state)
      && n.ctx.stopped == (m.ctx.stopped || r.code.IsFailed())
  }

  lemma {:induction false} AcLoopStep(m: Machine, i: Input)
    requires m.state.AcLoop? && AsksAcLoop(i.event)
    ensures AcLoopAnswered(m, i.event, Step(m, i))
  {
    hide Kept, Conforms, Step, Feed, AcLoopReply,
      FeedPowerDelivery, FeedDcLoop, FeedWelding, FeedSessionStop;
    MessageStep(m, i);
    FeedOfCharging(m.state, m.ctx, i.event, i.now);
  }

  lemma {:induction false} DcLoopStep(m: Machine, i: Input)
    requires m.state.DcLoop? && AsksDcLoop(i.event)
    ensures DcLoopAnswered(m, i.event, Step(m, i))
  {
    hide Kept, Conforms, Step, Feed, DcLoopReply,
      FeedPowerDelivery, FeedAcLoop, FeedWelding, FeedSessionStop;
    MessageStep(m, i);
    FeedOfCharging(m.state, m.ctx, i.event, i.now);
  }

  /** The values of a run that an AC charge loop shows. */
  predicate ShowsAc(
      body: Body, mode: AcLoopMode, s: Selected, config: SessionConfig, inputs: seq<Input>, events: seq<Delivery>)
  {
    && body.AcLoopBody? && body.acLoop == mode
    && Notifies(body.acStatus, s, StopWanted(AtAcLoop, events), PauseWanted(AtAcLoop, events))
    && body.q == (if ServiceOfAc(mode) == AC_DER then Some(QOf(config.provider)) else None)
    && body.cosPhi == (if ServiceOfAc(mode) == AC_DER then Some(CosPhiOf(config.provider)) else None)
    && body.target == LastTarget(inputs).GetOr(NO_TARGET)
    && body.loopPresent == LastPresent(inputs).GetOr(NO_PRESENT)
    && body.acDynamic == Provided(s, LastDynamic(inputs).GetOr(NO_DYNAMIC))
    && body.derLimits == (if ServiceOfAc(mode) == AC_DER then Some(LastAcLimits(inputs).GetOr(config.acLimits)) else None)
  }

  predicate AcLoopShown(m: Machine, e: Event, n: Machine, config: SessionConfig, inputs: seq<Input>) {
    AsksAcLoop(e) ==>
      var r, mode := Added(m, n), e.request.acLoop;
      && r.Some? && r.value.sid == m.ctx.session.id
      && (r.value.code == Ok <==> e.request.sid == m.ctx.session.id && FitsAc(m.ctx, mode))
      && (r.value.code == Ok ==> ShowsAc(r.value.body, mode, m.ctx.session.selected, config, inputs, m.log.events))
      && (r.value.code != Ok ==> n.ctx.stopped) && (r.value.code == Ok ==> n.ctx.stopped == m.ctx.stopped)
  }

  /** On every run an AC charge-loop request is answered OK exactly when it is the session's own and
      fits the selection; the answer shows the last targets, powers, limits and dynamic parameters. */
  lemma {:induction false} AcLoopShowsLast(
      config: SessionConfig, cert: Option<CertHash>, p: Option<PauseContext>, inputs: seq<Input>, i: Input)
    requires Run(Init(config, cert, p), inputs).state.AcLoop? && AsksAcLoop(i.event)
    ensures var m := Run(Init(config, cert, p), inputs);
      AcLoopShown(m, i.event, Step(m, i), config, inputs)
  {
    hide Run, Step, AcLoopReply, FitsAc, Provided, LastTarget, LastPresent, LastDynamic, LastAcLimits, LastDcLimits,
      StopWanted, PauseWanted, Notifies, QOf, CosPhiOf, Visited;
    EquipmentStays(Init(config, cert, p), inputs);
    MeaningfulRun(config, cert, p, inputs);
    var m, asked := Run(Init(config, cert, p), inputs), i.event.request;
    UpToDateRun(config, cert, p, inputs);
    AcLoopStep(m, i);
    AcLoopAnswer(m.ctx, m.state, asked.sid, asked.acLoop);
  }

  predicate DcLoopShown(m: Machine, e: Event, n: Machine, config: SessionConfig, inputs: seq<Input>) {
    AsksDcLoop(e) ==>
      var r := Added(m, n);
      && r.Some? && r.value.sid == m.ctx.session.id
      && (r.value.code == Ok <==> e.request.sid == m.ctx.session.id && FitsDc(m.ctx, e.request.dcLoop))
      && (r.value.code == Ok ==>
            && r.value.body.DcLoopBody?
            && r.value.body.loopLimits == LastDcLimits(inputs).GetOr(config.dcLimits)
            && r.value.body.dcDynamic == Provided(m.ctx.session.selected, LastDynamic(inputs).GetOr(NO_DYNAMIC))
            && r.value.body.dcLoop == e.request.dcLoop
            && Measurement(r.value.body.loopVoltage, r.value.body.loopCurrent) == LastMeasured(AtDcLoop, m.log.events)
            && Notifies(r.value.body.dcStatus, m.ctx.session.selected,
                        StopWanted(AtDcLoop, m.log.events), PauseWanted(AtDcLoop, m.log.events)))
      && (r.value.code != Ok ==> n.ctx.stopped) && (r.value.code == Ok ==> n.ctx.stopped == m.ctx.stopped)
  }

  /** The same of DC: the answer shows the last limits and dynamic parameters. */
  lemma {:induction false} DcLoopShowsLast(
      config: SessionConfig, cert: Option<CertHash>, p: Option<PauseContext>, inputs: seq<Input>, i: Input)
    requires Run(Init(config, cert, p), inputs).state.DcLoop? && AsksDcLoop(i.event)
    ensures var m := Run(Init(config, cert, p), inputs);
      DcLoopShown(m, i.event, Step(m, i), config, inputs)
  {
    hide Run, Step, Init, DcLoopReply, FitsDc, Provided, LastTarget, LastPresent, LastDynamic, LastAcLimits, LastDcLimits,
      StopWanted, PauseWanted, Notifies, LastMeasured, Visited;
    MeaningfulRun(config, cert, p, inputs);
    var m, asked := Run(Init(config, cert, p), inputs), i.event.request;
    UpToDateRun(config, cert, p, inputs);
    DcLoopStep(m, i);
    DcLoopAnswer(m.ctx, m.state, asked.sid, asked.dcLoop);
  }

  // ------------------------------------------------------------------- AC parameters

  /** The service that a mode of charge parameter discovery belongs to. */
  function ServiceOfMode(mode: AcTransferMode): Service {
    match mode
    case AcMode => AC
    case BptAcMode => AC_BPT
    case DerAcMode => AC_DER
  }

  lemma {:induction false} AcParametersAnswer(c: Context, sid: SessionId, mode: AcTransferMode, present: AcPresent)
    ensures var r, s := AcParametersReply(c, sid, mode, present), c.session.selected;
      && (r.code == Ok <==>
            && sid == c.session.id && s.Energy() == ServiceOfMode(mode)
            && (mode == DerAcMode ==> IsGranted(s, c.config.provider)))
      && (r.code != Ok ==> r.code.IsFailed() && r.body == NoBody)
      && (r.code == Ok ==>
            && r.body.AcParametersBody? && r.body.acMode == mode
            && r.body.acLimits == c.config.acLimits && r.body.present == present
            && (r.body.der.Some? <==> mode == DerAcMode)
            && (r.body.der.Some? ==> ControlsOf(r.body.der.value, c.config.provider)))
  {
    hide DerGate, InOrder, Grantable, AllTwelve, ControlFrom;
    GateExact(c.session.selected, c.config.provider);
  }

  predicate AsksAcParameters(e: Event) {
    e.Message? && e.request.AcParametersReq?
  }

  predicate AcParametersAnswered(m: Machine, e: Event, n: Machine) {
    m.state.AcParameters? && AsksAcParameters(e) ==>
      var r := AcParametersReply(m.ctx, e.request.sid, e.request.acMode, m.state.present);
      && Added(m, n) == Some(Response(m.ctx.session.id, r.code, r.body))
      && (n.state.ScheduleExchange? <==> !r.code.IsFailed())
      && n.ctx.stopped == (m.ctx.stopped || r.code.IsFailed()) && (r.code.IsFailed() ==> n.state == m.state)
  }

  lemma {:induction false} AcParametersStep(m: Machine, i: Input)
    requires m.state.AcParameters? && AsksAcParameters(i.event)
    ensures AcParametersAnswered(m, i.event, Step(m, i))
  {
    hide Kept, Conforms, Step, Feed, AcParametersReply,
      FeedDcParameters, FeedScheduleExchange, FeedCableCheck, FeedPreCharge;
    MessageStep(m, i);
    FeedOfPreparing(m.state, m.ctx, i.event, i.now);
  }

  predicate AcParametersShown(m: Machine, e: Event, n: Machine, config: SessionConfig, inputs: seq<Input>) {
    AsksAcParameters(e) ==>
      var r, asked, s := Added(m, n), e.request, m.ctx.session.selected;
      && r.Some?
      && (n.state.ScheduleExchange? <==>
            && asked.sid == m.ctx.session.id && s.Energy() == ServiceOfMode(asked.acMode)
            && (asked.acMode == DerAcMode ==> IsGranted(s, config.provider)))
      && n.ctx.stopped == (m.ctx.stopped || !n.state.ScheduleExchange?)
      && (!n.state.ScheduleExchange? ==> r.value.code.IsFailed() && n.state == m.state)
      && (n.state.ScheduleExchange? ==>
            && r.value.code == Ok && r.value.body.AcParametersBody?
            && r.value.body.acLimits == LastAcLimits(inputs).GetOr(config.acLimits)
            && r.value.body.present == LastPresent(inputs).GetOr(NO_PRESENT)
            && r.value.body.acMode == asked.acMode && (r.value.body.der.Some? <==> asked.acMode == DerAcMode)
            && (r.value.body.der.Some? ==> ControlsOf(r.value.body.der.value, config.provider)))
  }

  /** On every run AC parameters are agreed exactly for an own request in the mode of the selected
      service (with DER control granted); the answer shows the last limits and present powers. */
  lemma {:induction false} AcParametersShowLast(
      config: SessionConfig, cert: Option<CertHash>, p: Option<PauseContext>, inputs: seq<Input>, i: Input)
    requires Run(Init(config, cert, p), inputs).state.AcParameters? && AsksAcParameters(i.event)
    ensures var m := Run(Init(config, cert, p), inputs);
      AcParametersShown(m, i.event, Step(m, i), config, inputs)
  {
    hide Run, Step, AcParametersReply, IsGranted, ControlsOf, LastTarget, LastPresent, LastDynamic, LastAcLimits, LastDcLimits;
    EquipmentStays(Init(config, cert, p), inputs);
    var m, asked := Run(Init(config, cert, p), inputs), i.event.request;
    UpToDateRun(config, cert, p, inputs);
    AcParametersStep(m, i);
    AcParametersAnswer(m.ctx, asked.sid, asked.acMode, m.state.present);
  }

  // -------------------------------------------------------------- what came before

  lemma {:induction false} EquipmentStays(m: Machine, inputs: seq<Input>)
    ensures Run(m, inputs).ctx.config.supplyLimits == m.ctx.config.supplyLimits
    ensures Run(m, inputs).ctx.config.auth == m.ctx.config.auth
    ensures Run(m, inputs).ctx.config.provider == m.ctx.config.provider
    ensures Run(m, inputs).ctx.config.customProtocol == m.ctx.config.customProtocol
  {
    hide Step;
    if inputs != [] {
      EquipmentStays(m, inputs[..|inputs| - 1]);
      StepCarries(Run(m, inputs[..|inputs| - 1]), inputs[|inputs| - 1]);
    }
  }

  /** The ONGOING timer expired while this state waited for it. */
  predicate WasLate(at: StateId, events: seq<Delivery>) {
    Delivery(at, Expired(OngoingTimer)) in events
  }

  /** A waiting state knows whether its time is over, and authorization what was offered. */
  predicate Informed(m: Machine) {
    && (m.state.Authorization? ==>
          && (m.state.authLate <==> WasLate(AtAuthorization, m.log.events))
          && m.ctx.session.offered.auth == OfferedAuth(m.ctx.config.auth))
    && (m.state.ScheduleExchange? ==> (m.state.seLate <==> WasLate(AtScheduleExchange, m.log.events)))
    && (Level(m.state) < Rank(AtAuthorization) ==> !WasLate(AtAuthorization, m.log.events))
    && (Level(m.state) < Rank(AtScheduleExchange) ==> !WasLate(AtScheduleExchange, m.log.events))
  }

  lemma {:induction false} LateHeard(m: Machine, i: Input, at: StateId)
    ensures WasLate(at, Step(m, i).log.events) <==>
            WasLate(at, m.log.events) || (Id(m.state) == at && i.event == Expired(OngoingTimer))
  {
    hide Step, Outcome, Admits, Guarded, Moves, Signals, Tells, Id;
    StepIsOutcome(m, i);
  }

  lemma {:induction false} OfferStep(m: Machine, i: Input)
    ensures var n := Step(m, i);
      n.state.Authorization? && !m.state.Authorization? ==>
        n.ctx.session.offered.auth == OfferedAuth(n.ctx.config.auth)
  {
    hide Step, Outcome, Guarded, Moves, Signals, Tells, Recorded, OfferedAuth;
    StepIsOutcome(m, i);
    StepCarries(m, i);
  }

  lemma {:induction false} InformedStep(m: Machine, i: Input)
    requires Informed(m)
    ensures Informed(Step(m, i))
  {
    hide Step, Outcome, WasLate, OfferedAuth, Absorb, SameCaches, Extends;
    LateHeard(m, i, AtAuthorization);
    LateHeard(m, i, AtScheduleExchange);
    OfferStep(m, i);
    StepShows(m, i);
    StepCarries(m, i);
    hide Edge;
    StepClimbs(m, i);
  }

  lemma {:induction false} InformedRun(
      config: SessionConfig, cert: Option<CertHash>, p: Option<PauseContext>, inputs: seq<Input>)
    ensures Informed(Run(Init(config, cert, p), inputs))
  {
    hide Step;
    if inputs != [] {
      hide Informed;
      InformedRun(config, cert, p, inputs[..|inputs| - 1]);
      InformedStep(Run(Init(config, cert, p), inputs[..|inputs| - 1]), inputs[|inputs| - 1]);
    }
  }

  // ---------------------------------------------------- schedule, DC parameters, authorization

  predicate AsksSchedule(e: Event) {
    e.Message? && e.request.ScheduleExchangeReq?
  }

  predicate ScheduleAnswered(m: Machine, e: Event, n: Machine) {
    m.state.ScheduleExchange? && AsksSchedule(e) ==>
      var r := ScheduleReply(m.ctx, e.request.sid, e.request.mode, m.state.seDynamic, m.state.seLate);
      && Added(m, n) == Some(Response(m.ctx.session.id, r.code, r.body))
      && (n.state.PowerDelivery? <==> !r.code.IsFailed() && m.ctx.session.selected.IsAc())
      && (n.state.CableCheck? <==> !r.code.IsFailed() && m.ctx.session.selected.IsDc())
      && (r.code.IsFailed() ==> n.ctx.stopped)
      && (n.state.PowerDelivery? || n.state.CableCheck? ==> n.ctx.stopped == m.ctx.stopped)
  }

  lemma {:induction false} ScheduleFed(st: State, c: Context, e: Event, now: nat)
    requires st.ScheduleExchange? && AsksSchedule(e)
    ensures var out := FeedScheduleExchange(st, c, e, now);
      && out.sent == Some(ScheduleReply(c, e.request.sid, e.request.mode, st.seDynamic, st.seLate))
      && out.ctx.session == c.session
      && var agreed := !out.sent.value.code.IsFailed();
         && (out.state.PowerDelivery? <==> agreed && c.session.selected.IsAc())
         && (out.state.CableCheck? <==> agreed && c.session.selected.IsDc())
         && (!agreed ==> out.ctx.stopped)
         && (out.state.PowerDelivery? || out.state.CableCheck? ==> out.ctx.stopped == c.stopped)
  {
    hide Kept, Conforms, ScheduleReply, StartTimer, StopTimer, Armed, Code.IsFailed;
  }

  lemma {:induction false} ScheduleStep(m: Machine, i: Input)
    requires m.state.ScheduleExchange? && AsksSchedule(i.event)
    ensures ScheduleAnswered(m, i.event, Step(m, i))
  {
    hide Kept, Conforms, Step, Feed, FeedScheduleExchange, ScheduleReply,
      FeedAcParameters, FeedDcParameters, FeedCableCheck, FeedPreCharge;
    MessageStep(m, i);
    FeedOfPreparing(m.state, m.ctx, i.event, i.now);
    ScheduleFed(m.state, m.ctx, i.event, i.now);
  }

  /** The power of a schedule: the last DC limit of the run, or zero in AC. */
  function PowerShown(s: Selected, limits: DcLimits): Rational {
    if s.IsDc() then limits.charge.power.max else Rational(0, 0)
  }

  /** What a schedule request of this run is answered. */
  predicate ScheduleShown(m: Machine, e: Event, n: Machine, limits: DcLimits) {
    AsksSchedule(e) ==>
    var r, s, asked := Added(m, n), m.ctx.session.selected, e.request;
    && r.Some?
    && (r.value.code == Ok <==>
          asked.sid == m.ctx.session.id && s.Mode() == Some(asked.mode) && !WasLate(AtScheduleExchange, m.log.events))
    && (r.value.code != Ok ==> r.value.code.IsFailed())
    && (n.state.PowerDelivery? <==> r.value.code == Ok && s.IsAc())
    && (n.state.CableCheck? <==> r.value.code == Ok && s.IsDc())
    && (r.value.code != Ok ==> n.ctx.stopped)
    && (n.state.PowerDelivery? || n.state.CableCheck? ==> n.ctx.stopped == m.ctx.stopped)
    && (r.value.code == Ok ==> r.value.body == ScheduleBody(
          asked.mode,
          if asked.mode == Scheduled then Some(PowerShown(s, limits)) else None,
          Provided(s, LastScheduleDynamic(m.log.events))))
  }

  lemma {:induction false} ScheduleFits(m: Machine, i: Input)
    requires Informed(m) && OnlyOwnUpdates(m)
    requires m.state.ScheduleExchange? && AsksSchedule(i.event)
    ensures ScheduleShown(m, i.event, Step(m, i), m.ctx.config.dcLimits)
  {
    hide Step, Added, WasLate, LastScheduleDynamic;
    ScheduleStep(m, i);
  }

  /** On every run a schedule is agreed exactly for an own request in the selected control mode before
      ONGOING expired; it shows the last DC limit of the run, or the last dynamic parameters that
      reached the state itself. */
  lemma {:induction false} ScheduleShowsLast(
      config: SessionConfig, cert: Option<CertHash>, p: Option<PauseContext>, inputs: seq<Input>, i: Input)
    requires Run(Init(config, cert, p), inputs).state.ScheduleExchange?
    requires AsksSchedule(i.event)
    ensures var m := Run(Init(config, cert, p), inputs);
      ScheduleShown(m, i.event, Step(m, i), LastDcLimits(inputs).GetOr(config.dcLimits))
  {
    hide Run, Step, Init, ScheduleShown, Informed, OnlyOwnUpdates, LastDcLimits;
    UpToDateRun(config, cert, p, inputs);
    ScheduleIgnoresCache(config, cert, p, inputs);
    InformedRun(config, cert, p, inputs);
    ScheduleFits(Run(Init(config, cert, p), inputs), i);
  }

  predicate AsksDcParameters(e: Event) {
    e.Message? && e.request.DcParametersReq?
  }

  predicate DcParametersAnswered(m: Machine, e: Event, n: Machine) {
    m.state.DcParameters? && AsksDcParameters(e) ==>
      var r := DcParametersReply(m.ctx, e.request.sid, e.request.dcMode);
      && Added(m, n) == Some(Response(m.ctx.session.id, r.code, r.body))
      && (n.state.ScheduleExchange? <==> !r.code.IsFailed())
      && n.ctx.stopped == (m.ctx.stopped || r.code.IsFailed()) && (r.code.IsFailed() ==> n.state == m.state)
  }

  lemma {:induction false} DcParametersStep(m: Machine, i: Input)
    requires m.state.DcParameters? && AsksDcParameters(i.event)
    ensures DcParametersAnswered(m, i.event, Step(m, i))
  {
    hide Kept, Conforms, Step, Feed, DcParametersReply,
      FeedAcParameters, FeedScheduleExchange, FeedCableCheck, FeedPreCharge;
    MessageStep(m, i);
    FeedOfPreparing(m.state, m.ctx, i.event, i.now);
  }

  predicate DcParametersShown(m: Machine, e: Event, n: Machine, supply: DcLimits) {
    AsksDcParameters(e) ==>
    var r, s, asked := Added(m, n), m.ctx.session.selected.Energy(), e.request;
    && r.Some?
    && (n.state.ScheduleExchange? <==>
          && asked.sid == m.ctx.session.id
          && (if asked.dcMode == DcMode then s in {DC, MCS} else s in {DC_BPT, MCS_BPT} && supply.discharge.Some?))
    && (n.state.ScheduleExchange? ==> r.value.code == Ok && r.value.body == DcParametersBody(asked.dcMode, supply))
    && (!n.state.ScheduleExchange? ==> r.value.code.IsFailed() && n.state == m.state)
    && n.ctx.stopped == (m.ctx.stopped || !n.state.ScheduleExchange?)
  }

  lemma {:induction false} DcParametersFit(m: Machine, i: Input)
    requires m.state.DcParameters? && AsksDcParameters(i.event)
    ensures DcParametersShown(m, i.event, Step(m, i), m.ctx.config.supplyLimits)
  {
    hide Step, Added;
    DcParametersStep(m, i);
  }

  /** On every run DC parameters are agreed exactly for an own request in the mode of the selected service;
      the answer shows the limits of the power supply as configured, whatever limits came since. */
  lemma {:induction false} DcParametersShowSupply(
      config: SessionConfig, cert: Option<CertHash>, p: Option<PauseContext>, inputs: seq<Input>, i: Input)
    requires Run(Init(config, cert, p), inputs).state.DcParameters?
    requires AsksDcParameters(i.event)
    ensures var m := Run(Init(config, cert, p), inputs);
      DcParametersShown(m, i.event, Step(m, i), config.supplyLimits)
  {
    hide Run, Step, DcParametersShown;
    EquipmentStays(Init(config, cert, p), inputs);
    DcParametersFit(Run(Init(config, cert, p), inputs), i);
  }

  lemma {:induction false} AuthorizationAnswered(st: State, c: Context, e: Event, now: nat)
    requires st.Authorization? && AsksAuthorization(e)
    ensures var out, r := FeedAuthorization(st, c, e, now),
          AuthorizationReply(c, e.request.sid, e.request.service, st.status, st.authLate);
      && out.sent == Some(r) && out.ctx.session == c.session && out.ctx.stopped == (c.stopped || r.code.IsFailed())
      && (out.state.ServiceDiscovery? <==> !r.code.IsFailed() && st.status == Accepted)
  {
    hide Kept, Conforms, AuthorizationReply, StartTimer, StopTimer;
  }

  predicate AsksAuthorization(e: Event) {
    e.Message? && e.request.AuthorizationReq?
  }

  predicate AuthorizationTold(m: Machine, e: Event, n: Machine) {
    m.state.Authorization? && AsksAuthorization(e) ==>
      var r := AuthorizationReply(m.ctx, e.request.sid, e.request.service, m.state.status, m.state.authLate);
      && Added(m, n) == Some(Response(m.ctx.session.id, r.code, r.body))
      && n.ctx.stopped == (m.ctx.stopped || r.code.IsFailed())
      && (n.state.ServiceDiscovery? <==> !r.code.IsFailed() && m.state.status == Accepted)
  }

  lemma {:induction false} AuthorizationStep(m: Machine, i: Input)
    requires m.state.Authorization? && AsksAuthorization(i.event)
    ensures AuthorizationTold(m, i.event, Step(m, i))
  {
    hide Kept, Conforms, Step, Feed, FeedAuthorization, AuthorizationReply;
    MessageStep(m, i);
    FeedOfSetup(m.state, m.ctx, i.event, i.now);
    AuthorizationAnswered(m.state, m.ctx, i.event, i.now);
  }

  /** What an authorization request of this run does, by the last answer of the integrator. */
  predicate AuthorizationShown(m: Machine, e: Event, n: Machine, offered: seq<Types.Authorization>) {
    AsksAuthorization(e) ==>
    var r, last, asked := Added(m, n), LastAuthorization(m.log.events), e.request;
    var heard := asked.sid == m.ctx.session.id && !WasLate(AtAuthorization, m.log.events);
    && r.Some?
    && (r.value.code.IsFailed() <==> !heard)
    && n.ctx.stopped == (m.ctx.stopped || !heard)
    && (n.state.ServiceDiscovery? <==> heard && last == Some(true))
    && (n.state.ServiceDiscovery? && r.value.code == Ok <==> heard && last == Some(true) && asked.service in offered)
    && (r.value.code == WarnAuthSelection <==> heard && asked.service !in offered)
    && (r.value.code == WarnEimFailure <==> heard && asked.service in offered && asked.service == EIM && last == Some(false))
    && (r.value.body == ProcessingBody(Ongoing) <==> heard && asked.service in offered && asked.service == EIM && last == None)
    && (heard && r.value.body != ProcessingBody(Ongoing) ==> r.value.body == ProcessingBody(Finished))
  }

  lemma {:induction false} AuthorizationFits(m: Machine, i: Input, p: Option<PauseContext>)
    requires Informed(m) && NegotiatesAuthorized(m, p)
    requires m.state.Authorization? && AsksAuthorization(i.event)
    ensures AuthorizationShown(m, i.event, Step(m, i), OfferedAuth(m.ctx.config.auth))
  {
    hide Step, Added, WasLate, LastAuthorization, OfferedAuth;
    AuthorizationStep(m, i);
  }

  /** On every run: Authorization is left exactly by an own request in time after a last positive answer
      of the integrator; the EV is told OK with it exactly if it selected an offered service, and is
      warned otherwise, but moves on all the same. */
  lemma {:induction false} AuthorizationFollowsLast(
      config: SessionConfig, cert: Option<CertHash>, p: Option<PauseContext>, inputs: seq<Input>, i: Input)
    requires Run(Init(config, cert, p), inputs).state.Authorization?
    requires AsksAuthorization(i.event)
    ensures var m := Run(Init(config, cert, p), inputs);
      AuthorizationShown(m, i.event, Step(m, i), OfferedAuth(config.auth))
  {
    hide Run, Step, AuthorizationShown, Informed, NegotiatesAuthorized, Entitled, OnBranch, Ready, EndsOnce, OfferedAuth;
    SafeRun(config, cert, p, inputs);
    InformedRun(config, cert, p, inputs);
    EquipmentStays(Init(config, cert, p), inputs);
    AuthorizationFits(Run(Init(config, cert, p), inputs), i, p);
  }
}
