/** The state objects and the context they share, updated in place; each handler against the
    function of Machine that says what it does. */
module SessionFsm {
  import opened Common
  import opened Types
  import opened Negotiation
  import opened Handlers
  import opened Machine

  class Fsm {
    var state: State
    var ctx: Context
    /** The response slot of the message exchange. */
    var response: Option<Reply>
    /** What the current call of `feed` has signalled, and done to the session as such. */
    ghost var signals: seq<Signal>
    ghost var news: seq<News>
    ghost var log: History

    ghost predicate Did(out: Out)
      reads this
    {
      state == out.state && ctx == out.ctx && response == out.sent && signals == out.signals && news == out.news
    }

    /** Before a call of `feed`. */
    ghost predicate Idle()
      reads this
    {
      response == None && signals == [] && news == []
    }

    ghost function View(): Machine
      reads this
    {
      Machine(state, ctx, log)
    }

    constructor (config: SessionConfig, cert: Option<CertHash>, pauseCtx: Option<PauseContext>)
      ensures View() == Init(config, cert, pauseCtx) && Idle()
    {
      state := SupportedAppProtocol;
      ctx := Context(NewSession(0), config, cert, pauseCtx, false, false, None, None, None, map[]);
      response := None;
      signals, news := [], [];
      log := History([], [], [], []);
    }

    // --------------------------------------------------------------------- helpers

    method Respond(r: Reply)
      modifies this`response
      ensures response == Some(r)
    {
      response := Some(r);
    }

    method Stop()
      modifies this`ctx
      ensures ctx == old(ctx).(stopped := true)
    {
      ctx := ctx.(stopped := true);
    }

    method Signalled(s: Signal)
      modifies this`signals
      ensures signals == old(signals) + [s]
    {
      signals := signals + [s];
    }

    method StartTimeout(t: TimeoutType, deadline: nat)
      modifies this`ctx
      ensures ctx == old(ctx).(timers := StartTimer(old(ctx).timers, t, deadline))
    {
      if t !in ctx.timers {
        ctx := ctx.(timers := ctx.timers[t := deadline]);
      }
    }

    method StopTimeout(t: TimeoutType)
      modifies this`ctx
      ensures ctx == old(ctx).(timers := StopTimer(old(ctx).timers, t))
    {
      ctx := ctx.(timers := ctx.timers - {t});
    }

    method RejectSequence(e: Event)
      requires Idle() && e.Message?
      modifies this
      ensures log == old(log) && Did(SequenceError(old(state), old(ctx), e))
    {
      hide Kept, Conforms;
      if HasSessionId(e.request) {
        Respond(Bare(FailedSequence));
      }
      Stop();
    }

    method RejectOrStop(e: Event)
      requires Idle() && e.Message?
      modifies this
      ensures log == old(log) && Did(Unexpected(old(state), old(ctx), e))
    {
      hide Kept, Conforms;
      if e.request.SessionStopReq? {
        Respond(Bare(StopCode(ctx.session, e.request.sid, e.request.ending)));
        Stop();
      } else {
        RejectSequence(e);
      }
    }

    // ---------------------------------------------------------------- session setup

    method OnSupportedAppProtocol(e: Event)
      requires state.SupportedAppProtocol? && Idle()
      modifies this
      ensures log == old(log) && Did(FeedSupportedAppProtocol(old(state), old(ctx), e))
    {
      hide Kept, Conforms;
      if !e.Message? { return; }
      if !e.request.SupportedAppProtocolReq? {
        Stop();
        return;
      }
      var chosen := Negotiate(e.request.protocols, ctx.config.customProtocol);
      if chosen.None? {
        Respond(Bare(NegotiationFailed));
        return;
      }
      Respond(Reply(NegotiationOk, ProtocolBody(chosen.value.schema)));
      state := SessionSetup;
    }

    method OnSessionSetup(e: Event)
      requires state.SessionSetup? && Idle()
      modifies this
      ensures log == old(log) && Did(FeedSessionSetup(old(state), old(ctx), e))
    {
      hide Kept, Conforms, AcParametersOnEntry, SequenceError, NewSession;
      if !e.Message? { return; }
      if !e.request.SessionSetupReq? {
        RejectSequence(e);
        return;
      }
      var sid := e.request.sid;
      var newSession := false;
      if sid == 0 || ctx.cert.None? || ctx.pauseCtx.None? {
        newSession := true;
      } else if ctx.pauseCtx.value.digest == Digest(ctx.cert.value, sid) {
        var paused := ctx.pauseCtx.value;
        ctx := ctx.(session := NewSession(paused.id).(selected := paused.selected));
        news := news + [Joined(ctx.cert.value, sid, paused.id, paused.selected)];
      } else {
        newSession := true;
      }
      if newSession {
        ctx := ctx.(session := NewSession(e.newId));
        news := news + [Created(ctx.cert, e.newId)];
        if ctx.cert.Some? {
          ctx := ctx.(pauseCtx := Some(PauseContext(Digest(ctx.cert.value, e.newId), e.newId, NothingSelected)));
        }
        Respond(Bare(OkNewSession));
        state := AuthorizationSetup;
        return;
      }
      Respond(Bare(OkOldSession));
      if ctx.session.selected.IsAc() {
        state := AcParametersOnEntry(ctx);
      } else if ctx.session.selected.IsDc() {
        state := DcParameters;
      }
    }

    method OnAuthorizationSetup(e: Event)
      requires state.AuthorizationSetup? && Idle()
      modifies this
      ensures log == old(log) && Did(FeedAuthorizationSetup(old(state), old(ctx), e))
    {
      hide Kept, Conforms;
      if !e.Message? { return; }
      if !e.request.AuthorizationSetupReq? {
        RejectOrStop(e);
        return;
      }
      if e.request.sid != ctx.session.id {
        Respond(Bare(FailedUnknownSession));
        Stop();
        return;
      }
      var offering := OfferAuthorization(ctx.session, ctx.config.auth);
      ctx := ctx.(session := offering);
      Respond(Reply(Ok, OfferedAuthBody(offering.offered.auth)));
      Signalled(RequireAuthEim);
      state := Authorization(Pending, true, false);
    }

    method OnAuthorizationRequest(e: Event, now: nat)
      requires state.Authorization? && e.Message? && e.request.AuthorizationReq? && Idle()
      modifies this
      ensures log == old(log) && Did(AnswerAuthorization(old(state), old(ctx), e, now))
    {
      hide Kept, Conforms, StartTimer, StopTimer, AuthorizationReply;
      AuthorizationIgnoresTimers(ctx, e.request.sid, e.request.service, state.status, state.authLate);
      if state.authFirst {
        StartTimeout(OngoingTimer, now + TIMEOUT_EIM_ONGOING);
        state := state.(authFirst := false);
      }
      var reply := AuthorizationReply(ctx, e.request.sid, e.request.service, state.status, state.authLate);
      Respond(reply);
      if reply.code.IsFailed() {
        Stop();
        return;
      }
      if state.status == Accepted {
        StopAfterStart(old(ctx).timers, OngoingTimer, now + TIMEOUT_EIM_ONGOING);
        StopTimeout(OngoingTimer);
        state := ServiceDiscovery;
      }
    }

    method OnAuthorization(e: Event, now: nat)
      requires state.Authorization? && Idle()
      modifies this
      ensures log == old(log) && Did(FeedAuthorization(old(state), old(ctx), e, now))
    {
      hide Kept, Conforms;
      hide AnswerAuthorization;
      if e.Control? {
        if e.control.AuthorizationResponse? {
          state := state.(status := if e.control.authorized then Accepted else Rejected);
        }
        return;
      }
      if e.Expired? {
        if e.timer == OngoingTimer {
          state := state.(authLate := true);
        }
        return;
      }
      if e.request.AuthorizationReq? {
        OnAuthorizationRequest(e, now);
      } else {
        RejectOrStop(e);
      }
    }

    // ----------------------------------------------------------- service negotiation

    method OnServiceDiscovery(e: Event)
      requires state.ServiceDiscovery? && Idle()
      modifies this
      ensures log == old(log) && Did(FeedServiceDiscovery(old(state), old(ctx), e))
    {
      hide Kept, Conforms;
      hide Discover;
      if !e.Message? { return; }
      if !e.request.ServiceDiscoveryReq? {
        RejectOrStop(e);
        return;
      }
      if e.request.sid != ctx.session.id {
        Respond(Bare(FailedUnknownSession));
        Stop();
        return;
      }
      var found := DiscoverServices(ctx.session, ctx.config, e.request.supported);
      ctx := ctx.(session := found);
      Respond(Reply(Ok, DiscoveryBody(found.offered.energy, found.offered.vas)));
      state := ServiceDetail;
    }

    /** The answer of the callback replaces two lists of the configuration, or is handed on. */
    method AbsorbCallback(wanted: uint16, reply: Option<seq<VasSet>>) returns (custom: Option<seq<VasSet>>)
      modifies this`ctx
      ensures ctx == old(ctx).(config := AbsorbReply(old(ctx).config, wanted, reply))
      ensures custom == CustomReply(wanted, reply)
    {
      custom := None;
      if !IsEnergyService(wanted) {
        custom := reply;
        if custom.Some? && wanted == INTERNET {
          ctx := ctx.(config := ctx.config.(internet := PortsOf(custom.value)));
          custom := None;
        } else if custom.Some? && wanted == PARKING_STATUS {
          ctx := ctx.(config := ctx.config.(parking := |custom.value|));
          custom := None;
        }
      }
    }

    method OnDetailRequest(e: Event)
      requires e.Message? && e.request.ServiceDetailReq?
      requires (state.ServiceDetail? || state.ServiceSelection?) && Idle()
      modifies this
      ensures log == old(log) && Did(AnswerDetail(old(state), old(ctx), e))
    {
      hide Kept, Conforms, Detail, AbsorbReply, CustomReply;
      var wanted := e.request.wanted;
      var custom := AbsorbCallback(wanted, e.reply);
      if e.request.sid != ctx.session.id {
        Respond(Bare(FailedUnknownSession));
        Stop();
        return;
      }
      var r := DetailService(ctx.session, ctx.config, wanted, custom);
      ctx := ctx.(session := r.session);
      if r.code.IsFailed() {
        Respond(Bare(r.code));
        Stop();
        return;
      }
      Respond(Reply(r.code, DetailBody(wanted, r.sets)));
      state := ServiceSelection;
    }

    method OnServiceDetail(e: Event)
      requires state.ServiceDetail? && Idle()
      modifies this
      ensures log == old(log) && Did(FeedServiceDetail(old(state), old(ctx), e))
    {
      hide Kept, Conforms;
      hide AnswerDetail;
      if !e.Message? { return; }
      if e.request.ServiceDetailReq? {
        OnDetailRequest(e);
      } else {
        RejectOrStop(e);
      }
    }

    method OnServiceSelection(e: Event)
      requires state.ServiceSelection? && Idle()
      modifies this
      ensures log == old(log) && Did(FeedServiceSelection(old(state), old(ctx), e))
    {
      hide Kept, Conforms;
      hide AnswerDetail, SelectServices;
      if !e.Message? { return; }
      if e.request.ServiceDetailReq? {
        OnDetailRequest(e);
      } else if e.request.ServiceSelectionReq? {
        if e.request.sid != ctx.session.id {
          Respond(Bare(FailedUnknownSession));
          Stop();
          return;
        }
        var session, code := SelectRequested(ctx.session, e.request.energy, e.request.setId, e.request.vas);
        ctx := ctx.(session := session);
        Respond(Bare(code));
        if code.IsFailed() {
          Stop();
          return;
        }
        if ctx.session.selected.IsAc() {
          state := AcParametersOnEntry(ctx);
        } else if ctx.session.selected.IsDc() {
          state := DcParameters;
        } else {
          Stop();
        }
      } else {
        RejectOrStop(e);
      }
    }

    // ------------------------------------------------------------- before charging

    method OnAcParameters(e: Event)
      requires state.AcParameters? && Idle()
      modifies this
      ensures log == old(log) && Did(FeedAcParameters(old(state), old(ctx), e))
    {
      hide Kept, Conforms;
      hide AcParametersReply;
      if e.Control? {
        if e.control.UpdateAcPresent? {
          state := AcParameters(e.control.present);
        }
        return;
      }
      if e.Expired? { return; }
      if !e.request.AcParametersReq? {
        RejectOrStop(e);
        return;
      }
      var reply := AcParametersReply(ctx, e.request.sid, e.request.acMode, state.present);
      Respond(reply);
      if reply.code.IsFailed() {
        Stop();
        return;
      }
      state := ScheduleExchange(NO_DYNAMIC, true, false);
    }

    method OnDcParameters(e: Event)
      requires state.DcParameters? && Idle()
      modifies this
      ensures log == old(log) && Did(FeedDcParameters(old(state), old(ctx), e))
    {
      hide Kept, Conforms;
      hide DcParametersReply;
      if !e.Message? { return; }
      if !e.request.DcParametersReq? {
        RejectOrStop(e);
        return;
      }
      var reply := DcParametersReply(ctx, e.request.sid, e.request.dcMode);
      Respond(reply);
      if reply.code.IsFailed() {
        Stop();
        return;
      }
      state := ScheduleExchange(NO_DYNAMIC, true, false);
    }

    method OnScheduleRequest(e: Event, now: nat)
      requires state.ScheduleExchange? && e.Message? && e.request.ScheduleExchangeReq? && Idle()
      modifies this
      ensures log == old(log) && Did(AnswerSchedule(old(state), old(ctx), e, now))
    {
      hide Kept, Conforms, StartTimer, StopTimer, ScheduleReply;
      ScheduleIgnoresTimers(ctx, e.request.sid, e.request.mode, state.seDynamic, state.seLate);
      if state.seFirst {
        StartTimeout(OngoingTimer, now + TIMEOUT_ONGOING);
        state := state.(seFirst := false);
      }
      var reply := ScheduleReply(ctx, e.request.sid, e.request.mode, state.seDynamic, state.seLate);
      Respond(reply);
      if reply.code.IsFailed() {
        Stop();
        return;
      }
      StopAfterStart(old(ctx).timers, OngoingTimer, now + TIMEOUT_ONGOING);
      StopTimeout(OngoingTimer);
      if ctx.session.selected.IsAc() {
        state := PowerDelivery(0.0, false, None);
      } else if ctx.session.selected.IsDc() {
        state := CableCheck(false, false);
      } else {
        Stop();
      }
    }

    method OnScheduleExchange(e: Event, now: nat)
      requires state.ScheduleExchange? && Idle()
      modifies this
      ensures log == old(log) && Did(FeedScheduleExchange(old(state), old(ctx), e, now))
    {
      hide Kept, Conforms;
      hide AnswerSchedule;
      if e.Control? {
        if e.control.UpdateDynamic? {
          state := state.(seDynamic := e.control.dynamic);
        }
        return;
      }
      if e.Expired? {
        if e.timer == OngoingTimer {
          state := state.(seLate := true);
        }
        return;
      }
      if e.request.ScheduleExchangeReq? {
        OnScheduleRequest(e, now);
      } else {
        RejectOrStop(e);
      }
    }

    method OnCableCheck(e: Event)
      requires state.CableCheck? && Idle()
      modifies this
      ensures log == old(log) && Did(FeedCableCheck(old(state), old(ctx), e))
    {
      hide Kept, Conforms;
      if e.Control? {
        if e.control.CableCheckFinished? {
          state := state.(done := e.control.ok);
        }
        return;
      }
      if e.Expired? { return; }
      if !e.request.CableCheckReq? {
        RejectOrStop(e);
        return;
      }
      if !state.initiated {
        Signalled(StartCableCheck);
        state := state.(initiated := true);
      }
      if e.request.sid != ctx.session.id {
        Respond(Bare(FailedUnknownSession));
        Stop();
        return;
      }
      if state.done {
        Respond(Reply(Ok, ProcessingBody(Finished)));
        state := PreCharge(false, 0.0);
      } else {
        Respond(Reply(Ok, ProcessingBody(Ongoing)));
      }
    }

    method OnPreCharge(e: Event)
      requires state.PreCharge? && Idle()
      modifies this
      ensures log == old(log) && Did(FeedPreCharge(old(state), old(ctx), e))
    {
      hide Kept, Conforms;
      hide VoltageReply;
      if e.Control? {
        if e.control.PresentVoltageCurrent? {
          state := state.(preVoltage := e.control.voltage);
        }
        return;
      }
      if e.Expired? { return; }
      if !e.request.PreChargeReq? {
        RejectOrStop(e);
        return;
      }
      if !state.begun {
        Signalled(PreChargeStarted);
        state := state.(begun := true);
      }
      var reply := VoltageReply(ctx, e.request.sid, state.preVoltage);
      Respond(reply);
      if reply.code.IsFailed() {
        Stop();
        return;
      }
      state := PowerDelivery(0.0, false, None);
    }

    method OnContactor(e: Event)
      requires state.PowerDelivery? && IsContactorReport(e) && Idle()
      modifies this
      ensures log == old(log) && Did(FeedContactor(old(state), old(ctx), e))
    {
      hide Kept, Conforms, StartTimer, StopTimer;
      state := state.(closed := true);
      StopTimeout(TimeoutType.Contactor);
      if state.parked.None? { return; }
      var reply := PowerDeliveryReply(ctx, state.parked.value.sid, state.parked.value.progress, false);
      Respond(reply);
      if reply.code.IsFailed() {
        Stop();
        return;
      }
      state := AcLoopOnEntry(ctx);
    }

    method OnStart(e: Event, now: nat)
      requires state.PowerDelivery? && e.Message? && e.request.PowerDeliveryReq? && Idle()
      modifies this
      ensures log == old(log) && Did(FeedStart(old(state), old(ctx), e, now))
    {
      hide Kept, Conforms, StartTimer;
      var progress := e.request.progress;
      if progress == Start {
        Signalled(SetupFinished);
      }
      if ctx.session.selected.IsAc() && !state.closed && progress == Start {
        state := state.(parked := Some(Parked(e.request.sid, progress)));
        Signalled(AcCloseContactor);
        StartTimeout(TimeoutType.Contactor, now + TIMEOUT_CONTACTOR);
        return;
      }
      var reply := PowerDeliveryReply(ctx, e.request.sid, progress, false);
      Respond(reply);
      if reply.code.IsFailed() {
        Stop();
        return;
      }
      if ctx.session.selected.IsAc() {
        state := AcLoopOnEntry(ctx);
      } else if ctx.session.selected.IsDc() {
        state := DcLoopOnEntry(ctx);
      } else {
        Stop();
      }
    }

    method OnPowerDelivery(e: Event, now: nat)
      requires state.PowerDelivery? && Idle()
      modifies this
      ensures log == old(log) && Did(FeedPowerDelivery(old(state), old(ctx), e, now))
    {
      hide Kept, Conforms;
      hide VoltageReply, FeedContactor, FeedStart;
      if e.Control? {
        if e.control.PresentVoltageCurrent? {
          state := state.(pdVoltage := e.control.voltage);
        } else if e.control.ClosedContactor? {
          OnContactor(e);
        }
        return;
      }
      if e.Expired? {
        if e.timer == TimeoutType.Contactor {
          var p := state.parked.GetOr(Parked(0, Start));
          Respond(PowerDeliveryReply(ctx, p.sid, p.progress, true));
          Stop();
        }
        return;
      }
      if e.request.PreChargeReq? {
        var reply := VoltageReply(ctx, e.request.sid, state.pdVoltage);
        Respond(reply);
        if reply.code.IsFailed() {
          Stop();
        }
        return;
      }
      if !e.request.PowerDeliveryReq? {
        RejectSequence(e);
        return;
      }
      OnStart(e, now);
    }

    // ------------------------------------------------------------ charging and after

    method OnAcLoop(e: Event)
      requires state.AcLoop? && Idle()
      modifies this
      ensures log == old(log) && Did(FeedAcLoop(old(state), old(ctx), e))
    {
      hide Kept, Conforms;
      hide AcLoopReply, PowerDeliveryReply;
      if e.Control? {
        if e.control.StopCharging? {
          state := state.(acStop := e.control.stop);
        } else if e.control.PauseCharging? {
          state := state.(acPause := e.control.pause);
        } else if e.control.UpdateDynamic? {
          state := state.(acDynamic := e.control.dynamic);
        } else if e.control.UpdateAcTarget? {
          state := state.(acTarget := e.control.target);
        } else if e.control.UpdateAcPresent? {
          state := state.(acPresent := e.control.present);
        }
        return;
      }
      if e.Expired? { return; }
      if e.request.PowerDeliveryReq? {
        var reply := PowerDeliveryReply(ctx, e.request.sid, e.request.progress, false);
        Respond(reply);
        if reply.code.IsFailed() {
          Stop();
          return;
        }
        if e.request.progress == StopCharge {
          Signalled(ChargeLoopFinished);
          Signalled(AcOpenContactor);
          state := SessionStop;
        }
      } else if e.request.AcLoopReq? {
        if state.acFirst {
          Signalled(ChargeLoopStarted);
        }
        var reply := AcLoopReply(ctx, state, e.request.sid, e.request.acLoop);
        state := state.(acFirst := false);
        Respond(reply);
        if reply.code.IsFailed() {
          Stop();
        }
      } else {
        RejectSequence(e);
      }
    }

    method OnDcLoop(e: Event)
      requires state.DcLoop? && Idle()
      modifies this
      ensures log == old(log) && Did(FeedDcLoop(old(state), old(ctx), e))
    {
      hide Kept, Conforms;
      hide DcLoopReply, PowerDeliveryReply;
      if e.Control? {
        if e.control.PresentVoltageCurrent? {
          state := state.(dcVoltage := e.control.voltage, dcCurrent := e.control.current);
        } else if e.control.StopCharging? {
          state := state.(dcStop := e.control.stop);
        } else if e.control.PauseCharging? {
          state := state.(dcPause := e.control.pause);
        } else if e.control.UpdateDynamic? {
          state := state.(dcDynamic := e.control.dynamic);
        }
        return;
      }
      if e.Expired? { return; }
      if e.request.PowerDeliveryReq? {
        var reply := PowerDeliveryReply(ctx, e.request.sid, e.request.progress, false);
        Respond(reply);
        if reply.code.IsFailed() {
          Stop();
          return;
        }
        if e.request.progress == StopCharge {
          Signalled(ChargeLoopFinished);
          Signalled(DcOpenContactor);
          state := Welding(0.0);
        } else {
          state := state.(dcFirst := true);
        }
      } else if e.request.DcLoopReq? {
        if state.dcFirst {
          Signalled(ChargeLoopStarted);
        }
        var reply := DcLoopReply(ctx, state, e.request.sid, e.request.dcLoop);
        state := state.(dcFirst := false);
        Respond(reply);
        if reply.code.IsFailed() {
          Stop();
        }
      } else {
        RejectSequence(e);
      }
    }

    /** A stop request after charging; a pause or an end takes effect whatever the response says. */
    method OnStopRequest(e: Event)
      requires (state.Welding? || state.SessionStop?) && e.Message? && e.request.SessionStopReq? && Idle()
      modifies this
      ensures log == old(log) && Did(EndSession(old(state), old(ctx), e))
    {
      hide Kept, Conforms, StopCode;
      Respond(Bare(StopCode(ctx.session, e.request.sid, e.request.ending)));
      if e.request.ending == Pause {
        ctx := ctx.(paused := true);
        news := news + [Paused(ctx.cert, ctx.session.id, ctx.session.selected)];
        if ctx.pauseCtx.Some? {
          ctx := ctx.(pauseCtx := Some(ctx.pauseCtx.value.(selected := ctx.session.selected)));
        }
      } else if e.request.ending == Terminate {
        Stop();
        ctx := ctx.(pauseCtx := None);
        news := news + [Terminated(ctx.session.id)];
      }
    }

    method OnWelding(e: Event)
      requires state.Welding? && Idle()
      modifies this
      ensures log == old(log) && Did(FeedWelding(old(state), old(ctx), e))
    {
      hide Kept, Conforms;
      hide VoltageReply, EndSession;
      if e.Control? {
        if e.control.PresentVoltageCurrent? {
          state := Welding(e.control.voltage);
        }
        return;
      }
      if e.Expired? { return; }
      if e.request.WeldingReq? {
        var reply := VoltageReply(ctx, e.request.sid, state.weldVoltage);
        Respond(reply);
        if reply.code.IsFailed() {
          Stop();
          return;
        }
        if e.request.processing == Ongoing { return; }
        state := SessionStop;
      } else if e.request.SessionStopReq? {
        OnStopRequest(e);
      } else {
        RejectSequence(e);
      }
    }

    method OnSessionStop(e: Event)
      requires state.SessionStop? && Idle()
      modifies this
      ensures log == old(log) && Did(FeedSessionStop(old(state), old(ctx), e))
    {
      hide Kept, Conforms;
      hide EndSession;
      if !e.Message? { return; }
      if e.request.SessionStopReq? {
        OnStopRequest(e);
      } else {
        RejectSequence(e);
      }
    }

    // ------------------------------------------------------------------- one event

    method DispatchSetup(e: Event, now: nat)
      requires Level(state) < PARAMETERS && Idle()
      modifies this
      ensures log == old(log) && Did(FeedSetup(old(state), old(ctx), e, now))
    {
      hide FeedSupportedAppProtocol, FeedSessionSetup, FeedAuthorizationSetup, FeedAuthorization,
        FeedServiceDiscovery, FeedServiceDetail, FeedServiceSelection, Kept, Conforms;
      match state
      case SupportedAppProtocol => OnSupportedAppProtocol(e);
      case SessionSetup => OnSessionSetup(e);
      case AuthorizationSetup => OnAuthorizationSetup(e);
      case Authorization(_, _, _) => OnAuthorization(e, now);
      case ServiceDiscovery => OnServiceDiscovery(e);
      case ServiceDetail => OnServiceDetail(e);
      case ServiceSelection => OnServiceSelection(e);
    }

    method DispatchCharging(e: Event, now: nat)
      requires Level(state) >= PARAMETERS && Idle()
      modifies this
      ensures log == old(log) && Did(FeedCharging(old(state), old(ctx), e, now))
    {
      hide FeedAcParameters, FeedDcParameters, FeedScheduleExchange, FeedCableCheck, FeedPreCharge,
        FeedPowerDelivery, FeedAcLoop, FeedDcLoop, FeedWelding, FeedSessionStop, Kept, Conforms;
      match state
      case AcParameters(_) => OnAcParameters(e);
      case DcParameters => OnDcParameters(e);
      case ScheduleExchange(_, _, _) => OnScheduleExchange(e, now);
      case CableCheck(_, _) => OnCableCheck(e);
      case PreCharge(_, _) => OnPreCharge(e);
      case PowerDelivery(_, _, _) => OnPowerDelivery(e, now);
      case AcLoop(_, _, _, _, _, _) => OnAcLoop(e);
      case DcLoop(_, _, _, _, _, _) => OnDcLoop(e);
      case Welding(_) => OnWelding(e);
      case SessionStop => OnSessionStop(e);
    }

    /** `FSM::feed`: the current state takes the event. */
    method Dispatch(e: Event, now: nat)
      requires Idle()
      modifies this
      ensures log == old(log) && Did(Feed(old(state), old(ctx), e, now))
    {
      hide FeedSetup, FeedCharging, Kept, Conforms;
      if Level(state) < PARAMETERS {
        DispatchSetup(e, now);
      } else {
        DispatchCharging(e, now);
      }
    }

    /** What `poll` keeps of a control event before the state sees it. */
    method Cache(e: Event)
      modifies this`ctx
      ensures ctx == Absorb(old(ctx), e)
    {
      if !e.Control? { return; }
      if e.control.UpdateDcLimits? {
        ctx := ctx.(config := ctx.config.(dcLimits := e.control.dc));
      } else if e.control.EnergyServices? {
        ctx := ctx.(config := ctx.config.(energy := e.control.energy));
      } else if e.control.SupportedVas? {
        ctx := ctx.(config := ctx.config.(vas := e.control.vas));
      } else if e.control.UpdateAcLimits? {
        ctx := ctx.(config := ctx.config.(acLimits := e.control.ac));
      } else if e.control.UpdateDynamic? {
        ctx := ctx.(dynamicCache := Some(e.control.dynamic));
      } else if e.control.UpdateAcTarget? {
        ctx := ctx.(targetCache := Some(e.control.target));
      } else if e.control.UpdateAcPresent? {
        ctx := ctx.(presentCache := Some(e.control.present));
      }
    }

    /** One event as `poll` takes it: whether the state was left, which is what the source calls
        handled, and the response. */
    method Take(i: Input) returns (handled: bool, sent: Option<Reply>)
      requires Idle()
      modifies this
      ensures View() == Step(old(View()), i)
      ensures handled == (Id(state) != Id(old(state)))
      ensures |log.responses| == |old(log.responses)| + One(sent.Some?)
      ensures Idle()
    {
      hide Feed, Absorb, Recorded, Id, StopTimer;
      var before := Id(state);
      Cache(i.event);
      Dispatch(i.event, i.now);
      handled := Id(state) != before;
      RecordsResponse(log, before, i.event, Out(state, ctx, response, signals, news));
      log := Recorded(log, before, i.event, Out(state, ctx, response, signals, news));
      sent := response;
      response := None;
      signals, news := [], [];
      if i.event.Expired? {
        StopTimeout(i.event.timer);
      }
    }
  }

  lemma RecordsResponse(log: History, at: StateId, e: Event, out: Out)
    ensures |Recorded(log, at, e, out).responses| == |log.responses| + One(out.sent.Some?)
  {
  }

  lemma StopAfterStart(timers: map<TimeoutType, nat>, t: TimeoutType, deadline: nat)
    ensures StopTimer(StartTimer(timers, t, deadline), t) == StopTimer(timers, t)
  {
  }

  lemma ScheduleIgnoresTimers(c: Context, sid: SessionId, mode: ControlMode, d: DynamicParameters, late: bool)
    ensures forall timers :: ScheduleReply(c.(timers := timers), sid, mode, d, late) == ScheduleReply(c, sid, mode, d, late)
  {
  }

  lemma AuthorizationIgnoresTimers(c: Context, sid: SessionId, service: Types.Authorization, status: AuthStatus, late: bool)
    ensures forall timers ::
              AuthorizationReply(c.(timers := timers), sid, service, status, late) == AuthorizationReply(c, sid, service, status, late)
  {
  }
}
