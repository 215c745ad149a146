/** What the sequence timer and a stop mean to the state machine: nothing. */
module Twins {
  import opened Types
  import opened Negotiation
  import opened Machine

  /** Two tables that agree on every timer but the sequence timer. */
  predicate SameTimers(a: map<TimeoutType, nat>, b: map<TimeoutType, nat>) {
    StopTimer(a, Sequence) == StopTimer(b, Sequence)
  }

  /** Two contexts that differ in the sequence timer and in being stopped at most. */
  predicate SameContext(c: Context, d: Context) {
    && c.session == d.session && c.config == d.config && c.cert == d.cert && c.pauseCtx == d.pauseCtx && c.paused == d.paused
    && c.dynamicCache == d.dynamicCache && c.targetCache == d.targetCache && c.presentCache == d.presentCache
    && SameTimers(c.timers, d.timers)
  }

  predicate SameOut(a: Out, b: Out) {
    a.state == b.state && SameContext(a.ctx, b.ctx) && a.sent == b.sent && a.signals == b.signals && a.news == b.news
  }

  predicate AreTwins(m: Machine, n: Machine) {
    m.state == n.state && m.log == n.log && SameContext(m.ctx, n.ctx)
  }

  lemma TimersStay(a: map<TimeoutType, nat>, b: map<TimeoutType, nat>, t: TimeoutType, deadline: nat)
    requires SameTimers(a, b) && t != Sequence
    ensures SameTimers(StartTimer(a, t, deadline), StartTimer(b, t, deadline))
    ensures SameTimers(StopTimer(a, t), StopTimer(b, t))
  {
    var x, y := StopTimer(a, Sequence), StopTimer(b, Sequence);
    assert t in a <==> t in x;
    assert t in b <==> t in y;
    assert StopTimer(StopTimer(a, t), Sequence) == StopTimer(x, t);
    assert StopTimer(StopTimer(b, t), Sequence) == StopTimer(y, t);
    assert StopTimer(a[t := deadline], Sequence) == x[t := deadline];
    assert StopTimer(b[t := deadline], Sequence) == y[t := deadline];
  }

  // ------------------------------------------------------------------------ replies

  /** No reply depends on the sequence timer or on being stopped. */
  lemma SetupReplies(c: Context, d: Context)
    requires SameContext(c, d)
    ensures forall sid, service, status, late ::
              AuthorizationReply(c, sid, service, status, late) == AuthorizationReply(d, sid, service, status, late)
    ensures forall sid, mode, dynamic, late ::
              ScheduleReply(c, sid, mode, dynamic, late) == ScheduleReply(d, sid, mode, dynamic, late)
    ensures forall sid, mode :: DcParametersReply(c, sid, mode) == DcParametersReply(d, sid, mode)
    ensures forall sid, mode, present :: AcParametersReply(c, sid, mode, present) == AcParametersReply(d, sid, mode, present)
  {
    hide SameTimers, DerGate;
  }

  lemma ChargingReplies(c: Context, d: Context)
    requires SameContext(c, d)
    ensures forall sid, progress, failed ::
              PowerDeliveryReply(c, sid, progress, failed) == PowerDeliveryReply(d, sid, progress, failed)
    ensures forall sid, voltage :: VoltageReply(c, sid, voltage) == VoltageReply(d, sid, voltage)
    ensures forall st: State, sid, mode | st.AcLoop? :: AcLoopReply(c, st, sid, mode) == AcLoopReply(d, st, sid, mode)
    ensures forall st: State, sid, mode | st.DcLoop? :: DcLoopReply(c, st, sid, mode) == DcLoopReply(d, st, sid, mode)
  {
    hide SameTimers, DerGate;
  }

  // --------------------------------------------------------------- what any state does

  /* Each function of Machine that makes an `Out` gives the same one for two such contexts. */

  lemma IgnoreTwins(st: State, c: Context, d: Context, e: Event)
    requires SameContext(c, d) && !e.Message? && IsIdle(st, e)
    ensures SameOut(Ignore(st, c, e), Ignore(st, d, e))
  {
    hide Kept, Conforms, SameTimers, IsIdle;
  }

  lemma RejectTwins(st: State, c: Context, d: Context, e: Event, r: Reply)
    requires SameContext(c, d) && IsIdle(st, e) && !r.body.DetailBody?
    requires IsForeign(e, c.session.id) ==> r.code.IsFailed()
    ensures SameOut(Reject(st, c, e, r), Reject(st, d, e, r))
  {
    hide Kept, Conforms, SameTimers, IsIdle, Code.IsFailed, IsForeign;
  }

  lemma StayTwins(st: State, c: Context, d: Context, e: Event, r: Reply)
    requires SameContext(c, d) && IsIdle(st, e) && !r.body.DetailBody?
    requires IsForeign(e, c.session.id) ==> r.code.IsFailed()
    ensures SameOut(Stay(st, c, e, r), Stay(st, d, e, r))
  {
    hide Kept, Conforms, SameTimers, IsIdle, Code.IsFailed, IsForeign;
  }

  lemma SequenceErrorTwins(st: State, c: Context, d: Context, e: Event)
    requires SameContext(c, d) && e.Message?
    ensures SameOut(SequenceError(st, c, e), SequenceError(st, d, e))
  {
    hide Kept, Conforms, SameTimers, Reject;
    if HasSessionId(e.request) {
      RejectTwins(st, c, d, e, Bare(FailedSequence));
    }
  }

  lemma UnexpectedTwins(st: State, c: Context, d: Context, e: Event)
    requires SameContext(c, d) && e.Message?
    ensures SameOut(Unexpected(st, c, e), Unexpected(st, d, e))
  {
    hide Kept, Conforms, SameTimers, SameOut, Reject, SequenceError;
    SequenceErrorTwins(st, c, d, e);
    if e.request.SessionStopReq? {
      RejectTwins(st, c, d, e, Bare(StopCode(c.session, e.request.sid, e.request.ending)));
    }
  }

  // ------------------------------------------------------------------ session setup

  lemma SupportedAppProtocolTwins(st: State, c: Context, d: Context, e: Event)
    requires SameContext(c, d) && st.SupportedAppProtocol?
    ensures SameOut(FeedSupportedAppProtocol(st, c, e), FeedSupportedAppProtocol(st, d, e))
  {
    hide Kept, Conforms, SameTimers, Ignore, Negotiated;
    if !e.Message? && IsIdle(st, e) {
      IgnoreTwins(st, c, d, e);
    }
  }

  lemma JoinAcTwins(st: State, c: Context, d: Context, e: Event)
    requires SameContext(c, d) && st.SessionSetup? && e.Message? && e.request.SessionSetupReq?
    requires Resumable(c, e.request.sid).Some? && c.pauseCtx.value.selected.IsAc()
    ensures SameOut(JoinAc(st, c, e), JoinAc(st, d, e))
  {
    hide Kept, Conforms, SameTimers, Selected.IsAc, Selected.IsDc;
  }

  lemma JoinDcTwins(st: State, c: Context, d: Context, e: Event)
    requires SameContext(c, d) && st.SessionSetup? && e.Message? && e.request.SessionSetupReq?
    requires Resumable(c, e.request.sid).Some? && c.pauseCtx.value.selected.IsDc()
    ensures SameOut(JoinDc(st, c, e), JoinDc(st, d, e))
  {
    hide Kept, Conforms, SameTimers, Selected.IsAc, Selected.IsDc;
  }

  lemma JoinIdleTwins(st: State, c: Context, d: Context, e: Event)
    requires SameContext(c, d) && st.SessionSetup? && e.Message? && e.request.SessionSetupReq?
    requires Resumable(c, e.request.sid).Some?
    ensures SameOut(JoinIdle(st, c, e), JoinIdle(st, d, e))
  {
    hide Kept, Conforms, SameTimers, Selected.IsAc, Selected.IsDc;
  }

  lemma ResumeSessionTwins(st: State, c: Context, d: Context, e: Event)
    requires SameContext(c, d) && st.SessionSetup? && e.Message? && e.request.SessionSetupReq?
    requires Resumable(c, e.request.sid).Some?
    ensures SameOut(ResumeSession(st, c, e), ResumeSession(st, d, e))
  {
    hide Kept, Conforms, SameTimers, SameOut, JoinAc, JoinDc, JoinIdle;
    if c.pauseCtx.value.selected.IsAc() {
      JoinAcTwins(st, c, d, e);
    } else if c.pauseCtx.value.selected.IsDc() {
      JoinDcTwins(st, c, d, e);
    } else {
      JoinIdleTwins(st, c, d, e);
    }
  }

  lemma CreateSessionTwins(st: State, c: Context, d: Context, e: Event)
    requires SameContext(c, d) && st.SessionSetup? && e.Message? && e.request.SessionSetupReq?
    ensures SameOut(CreateSession(st, c, e), CreateSession(st, d, e))
  {
    hide Kept, Conforms, SameTimers;
  }

  lemma SessionSetupTwins(st: State, c: Context, d: Context, e: Event)
    requires SameContext(c, d) && st.SessionSetup?
    ensures SameOut(FeedSessionSetup(st, c, e), FeedSessionSetup(st, d, e))
  {
    hide Kept, Conforms, SameTimers, Ignore, SequenceError, CreateSession, ResumeSession;
    if !e.Message? && IsIdle(st, e) {
      IgnoreTwins(st, c, d, e);
    } else if e.Message? {
      SequenceErrorTwins(st, c, d, e);
      if e.request.SessionSetupReq? {
        CreateSessionTwins(st, c, d, e);
        if Resumable(c, e.request.sid).Some? {
          ResumeSessionTwins(st, c, d, e);
        }
      }
    }
  }

  lemma AuthorizationSetupTwins(st: State, c: Context, d: Context, e: Event)
    requires SameContext(c, d) && st.AuthorizationSetup?
    ensures SameOut(FeedAuthorizationSetup(st, c, e), FeedAuthorizationSetup(st, d, e))
  {
    hide Kept, Conforms, SameTimers, Ignore, Unexpected, Reject;
    if !e.Message? && IsIdle(st, e) {
      IgnoreTwins(st, c, d, e);
    } else if e.Message? {
      UnexpectedTwins(st, c, d, e);
      RejectTwins(st, c, d, e, Bare(FailedUnknownSession));
    }
  }

  lemma LeaveAuthorizationTwins(st: State, c: Context, d: Context, e: Event, reply: Reply)
    requires SameContext(c, d) && st.Authorization? && e.Message? && e.request.AuthorizationReq?
    requires !reply.body.DetailBody? && st.status == Accepted && !st.authLate && e.request.sid == c.session.id
    ensures SameOut(LeaveAuthorization(st, c, e, reply), LeaveAuthorization(st, d, e, reply))
  {
    hide Kept, Conforms, SameTimers, StopTimer;
    TimersStay(c.timers, d.timers, OngoingTimer, 0);
  }

  lemma RefuseAuthorizationTwins(st: State, c: Context, d: Context, e: Event, reply: Reply, now: nat)
    requires SameContext(c, d) && st.Authorization? && e.Message? && e.request.AuthorizationReq?
    requires !reply.body.DetailBody? && reply.code.IsFailed()
    ensures SameOut(RefuseAuthorization(st, c, e, reply, now), RefuseAuthorization(st, d, e, reply, now))
  {
    hide Kept, Conforms, SameTimers, StartTimer, Code.IsFailed;
    TimersStay(c.timers, d.timers, OngoingTimer, now + TIMEOUT_EIM_ONGOING);
  }

  lemma WaitAuthorizationTwins(st: State, c: Context, d: Context, e: Event, reply: Reply, now: nat)
    requires SameContext(c, d) && st.Authorization? && e.Message? && e.request.AuthorizationReq?
    requires !reply.body.DetailBody? && e.request.sid == c.session.id
    ensures SameOut(WaitAuthorization(st, c, e, reply, now), WaitAuthorization(st, d, e, reply, now))
  {
    hide Kept, Conforms, SameTimers, StartTimer;
    TimersStay(c.timers, d.timers, OngoingTimer, now + TIMEOUT_EIM_ONGOING);
  }

  lemma AnswerAuthorizationTwins(st: State, c: Context, d: Context, e: Event, now: nat)
    requires SameContext(c, d) && st.Authorization? && e.Message? && e.request.AuthorizationReq?
    ensures SameOut(AnswerAuthorization(st, c, e, now), AnswerAuthorization(st, d, e, now))
  {
    hide Kept, Conforms, SameTimers, SameOut, AuthorizationReply, LeaveAuthorization, RefuseAuthorization, WaitAuthorization;
    SetupReplies(c, d);
    var r := AuthorizationReply(c, e.request.sid, e.request.service, st.status, st.authLate);
    if r.code.IsFailed() {
      RefuseAuthorizationTwins(st, c, d, e, r, now);
    } else if st.status == Accepted {
      LeaveAuthorizationTwins(st, c, d, e, r);
    } else {
      WaitAuthorizationTwins(st, c, d, e, r, now);
    }
  }

  lemma AuthorizationTwins(st: State, c: Context, d: Context, e: Event, now: nat)
    requires SameContext(c, d) && st.Authorization?
    ensures SameOut(FeedAuthorization(st, c, e, now), FeedAuthorization(st, d, e, now))
  {
    hide Kept, Conforms, SameTimers, Ignore, Unexpected, AnswerAuthorization;
    if !e.Message? && IsIdle(st, e) {
      IgnoreTwins(st, c, d, e);
    } else if e.Message? {
      UnexpectedTwins(st, c, d, e);
      if e.request.AuthorizationReq? {
        AnswerAuthorizationTwins(st, c, d, e, now);
      }
    }
  }

  lemma ServiceDiscoveryTwins(st: State, c: Context, d: Context, e: Event)
    requires SameContext(c, d) && st.ServiceDiscovery?
    ensures SameOut(FeedServiceDiscovery(st, c, e), FeedServiceDiscovery(st, d, e))
  {
    hide Kept, Conforms, SameTimers, Ignore, Unexpected, Reject, Discover;
    if !e.Message? && IsIdle(st, e) {
      IgnoreTwins(st, c, d, e);
    } else if e.Message? {
      UnexpectedTwins(st, c, d, e);
      RejectTwins(st, c, d, e, Bare(FailedUnknownSession));
    }
  }

  lemma SendDetailTwins(st: State, c: Context, d: Context, e: Event, config: SessionConfig, session: Session, reply: Reply)
    requires SameContext(c, d) && (st.ServiceDetail? || st.ServiceSelection?) && e.Message?
    requires e.request.ServiceDetailReq? && SameEquipment(config, c.config) && session.id == c.session.id
    requires session.selected == c.session.selected && e.request.sid == c.session.id
    ensures SameOut(SendDetail(st, c, e, config, session, reply), SendDetail(st, d, e, config, session, reply))
  {
    hide Kept, Conforms, SameTimers, SameEquipment;
  }

  lemma RefuseDetailTwins(st: State, c: Context, d: Context, e: Event, config: SessionConfig, session: Session, code: Code)
    requires SameContext(c, d) && (st.ServiceDetail? || st.ServiceSelection?) && e.Message?
    requires e.request.ServiceDetailReq? && SameEquipment(config, c.config) && session.id == c.session.id
    requires session.selected == c.session.selected
    requires e.request.sid != c.session.id ==> session == c.session && code.IsFailed()
    ensures SameOut(RefuseDetail(st, c, e, config, session, code), RefuseDetail(st, d, e, config, session, code))
  {
    hide Kept, Conforms, SameTimers, SameEquipment, Code.IsFailed;
  }

  lemma AnswerDetailTwins(st: State, c: Context, d: Context, e: Event)
    requires SameContext(c, d) && (st.ServiceDetail? || st.ServiceSelection?) && e.Message?
    requires e.request.ServiceDetailReq?
    ensures SameOut(AnswerDetail(st, c, e), AnswerDetail(st, d, e))
  {
    hide Kept, Conforms, SameTimers, SameOut, Detail, AbsorbReply, CustomReply, SendDetail, RefuseDetail;
    var wanted := e.request.wanted;
    var config := AbsorbReply(c.config, wanted, e.reply);
    if e.request.sid != c.session.id {
      RefuseDetailTwins(st, c, d, e, config, c.session, FailedUnknownSession);
    } else {
      var r := Detail(c.session, config, wanted, CustomReply(wanted, e.reply));
      if r.code.IsFailed() {
        RefuseDetailTwins(st, c, d, e, config, r.session, r.code);
      } else {
        SendDetailTwins(st, c, d, e, config, r.session, Reply(r.code, DetailBody(wanted, r.sets)));
      }
    }
  }

  lemma ServiceDetailTwins(st: State, c: Context, d: Context, e: Event)
    requires SameContext(c, d) && st.ServiceDetail?
    ensures SameOut(FeedServiceDetail(st, c, e), FeedServiceDetail(st, d, e))
  {
    hide Kept, Conforms, SameTimers, Ignore, Unexpected, AnswerDetail;
    if !e.Message? && IsIdle(st, e) {
      IgnoreTwins(st, c, d, e);
    } else if e.Message? {
      UnexpectedTwins(st, c, d, e);
      if e.request.ServiceDetailReq? {
        AnswerDetailTwins(st, c, d, e);
      }
    }
  }

  lemma EnterAcParametersTwins(st: State, c: Context, d: Context, e: Event, session: Session, code: Code)
    requires SameContext(c, d) && st.ServiceSelection? && e.Message? && e.request.ServiceSelectionReq?
    requires e.request.sid == c.session.id && session.id == c.session.id && session.selected.IsAc()
    ensures SameOut(EnterAcParameters(st, c, e, session, code), EnterAcParameters(st, d, e, session, code))
  {
    hide Kept, Conforms, SameTimers, Selected.IsAc, Selected.IsDc;
  }

  lemma EnterDcParametersTwins(st: State, c: Context, d: Context, e: Event, session: Session, code: Code)
    requires SameContext(c, d) && st.ServiceSelection? && e.Message? && e.request.ServiceSelectionReq?
    requires e.request.sid == c.session.id && session.id == c.session.id && session.selected.IsDc()
    ensures SameOut(EnterDcParameters(st, c, e, session, code), EnterDcParameters(st, d, e, session, code))
  {
    hide Kept, Conforms, SameTimers, Selected.IsAc, Selected.IsDc;
  }

  lemma RefuseSelectionTwins(st: State, c: Context, d: Context, e: Event, session: Session, code: Code)
    requires SameContext(c, d) && st.ServiceSelection? && e.Message? && e.request.ServiceSelectionReq?
    requires e.request.sid == c.session.id && session.id == c.session.id
    ensures SameOut(RefuseSelection(st, c, e, session, code), RefuseSelection(st, d, e, session, code))
  {
    hide Kept, Conforms, SameTimers, Selected.IsAc, Selected.IsDc;
  }

  lemma AnswerSelectionTwins(st: State, c: Context, d: Context, e: Event)
    requires SameContext(c, d) && st.ServiceSelection? && e.Message? && e.request.ServiceSelectionReq?
    ensures SameOut(AnswerSelection(st, c, e), AnswerSelection(st, d, e))
  {
    hide Kept, Conforms, SameTimers, SameOut, SelectServices, Reject, EnterAcParameters, EnterDcParameters, RefuseSelection;
    if e.request.sid != c.session.id {
      RejectTwins(st, c, d, e, Bare(FailedUnknownSession));
    } else {
      var (session, code) := SelectServices(c.session, e.request.energy, e.request.setId, e.request.vas);
      if !code.IsFailed() && session.selected.IsAc() {
        EnterAcParametersTwins(st, c, d, e, session, code);
      } else if !code.IsFailed() && session.selected.IsDc() {
        EnterDcParametersTwins(st, c, d, e, session, code);
      } else {
        RefuseSelectionTwins(st, c, d, e, session, code);
      }
    }
  }

  lemma ServiceSelectionTwins(st: State, c: Context, d: Context, e: Event)
    requires SameContext(c, d) && st.ServiceSelection?
    ensures SameOut(FeedServiceSelection(st, c, e), FeedServiceSelection(st, d, e))
  {
    hide Kept, Conforms, SameTimers, Ignore, Unexpected, AnswerDetail, AnswerSelection;
    if !e.Message? && IsIdle(st, e) {
      IgnoreTwins(st, c, d, e);
    } else if e.Message? {
      UnexpectedTwins(st, c, d, e);
      if e.request.ServiceDetailReq? {
        AnswerDetailTwins(st, c, d, e);
      } else if e.request.ServiceSelectionReq? {
        AnswerSelectionTwins(st, c, d, e);
      }
    }
  }

  // ------------------------------------------------------------------ before charging

  lemma AnswerAcParametersTwins(st: State, c: Context, d: Context, e: Event)
    requires SameContext(c, d) && st.AcParameters? && e.Message? && e.request.AcParametersReq?
    ensures SameOut(AnswerAcParameters(st, c, e), AnswerAcParameters(st, d, e))
  {
    hide Kept, Conforms, SameTimers, Reject, AcParametersReply;
    SetupReplies(c, d);
    var r := AcParametersReply(c, e.request.sid, e.request.acMode, st.present);
    if r.code.IsFailed() {
      RejectTwins(st, c, d, e, r);
    }
  }

  lemma AcParametersTwins(st: State, c: Context, d: Context, e: Event)
    requires SameContext(c, d) && st.AcParameters?
    ensures SameOut(FeedAcParameters(st, c, e), FeedAcParameters(st, d, e))
  {
    hide Kept, Conforms, SameTimers, Ignore, Unexpected, AnswerAcParameters;
    if !e.Message? && IsIdle(st, e) {
      IgnoreTwins(st, c, d, e);
    } else if e.Message? {
      UnexpectedTwins(st, c, d, e);
      if e.request.AcParametersReq? {
        AnswerAcParametersTwins(st, c, d, e);
      }
    }
  }

  lemma DcParametersTwins(st: State, c: Context, d: Context, e: Event)
    requires SameContext(c, d) && st.DcParameters?
    ensures SameOut(FeedDcParameters(st, c, e), FeedDcParameters(st, d, e))
  {
    hide Kept, Conforms, SameTimers, Ignore, Unexpected, Reject, DcParametersReply;
    if !e.Message? && IsIdle(st, e) {
      IgnoreTwins(st, c, d, e);
    } else if e.Message? {
      UnexpectedTwins(st, c, d, e);
      if e.request.DcParametersReq? {
        SetupReplies(c, d);
        var r := DcParametersReply(c, e.request.sid, e.request.dcMode);
        if r.code.IsFailed() {
          RejectTwins(st, c, d, e, r);
        }
      }
    }
  }

  lemma RefuseScheduleTwins(st: State, c: Context, d: Context, e: Event, reply: Reply, now: nat)
    requires SameContext(c, d) && st.ScheduleExchange? && e.Message? && e.request.ScheduleExchangeReq?
    requires !reply.body.DetailBody? && reply.code.IsFailed()
    ensures SameOut(RefuseSchedule(st, c, e, reply, now), RefuseSchedule(st, d, e, reply, now))
  {
    hide Kept, Conforms, SameTimers, StartTimer, Code.IsFailed;
    TimersStay(c.timers, d.timers, OngoingTimer, now + TIMEOUT_ONGOING);
  }

  lemma ProceedAcTwins(st: State, c: Context, d: Context, e: Event, reply: Reply)
    requires SameContext(c, d) && st.ScheduleExchange? && e.Message? && e.request.ScheduleExchangeReq?
    requires !reply.body.DetailBody? && !st.seLate && c.session.selected.IsAc() && e.request.sid == c.session.id
    ensures SameOut(ProceedAc(st, c, e, reply), ProceedAc(st, d, e, reply))
  {
    hide Kept, Conforms, SameTimers, StopTimer, Selected.IsAc, Selected.IsDc;
    TimersStay(c.timers, d.timers, OngoingTimer, 0);
  }

  lemma ProceedDcTwins(st: State, c: Context, d: Context, e: Event, reply: Reply)
    requires SameContext(c, d) && st.ScheduleExchange? && e.Message? && e.request.ScheduleExchangeReq?
    requires !reply.body.DetailBody? && !st.seLate && c.session.selected.IsDc() && e.request.sid == c.session.id
    ensures SameOut(ProceedDc(st, c, e, reply), ProceedDc(st, d, e, reply))
  {
    hide Kept, Conforms, SameTimers, StopTimer, Selected.IsAc, Selected.IsDc;
    TimersStay(c.timers, d.timers, OngoingTimer, 0);
  }

  lemma ProceedNowhereTwins(st: State, c: Context, d: Context, e: Event, reply: Reply)
    requires SameContext(c, d) && st.ScheduleExchange? && e.Message? && e.request.ScheduleExchangeReq?
    requires !reply.body.DetailBody? && e.request.sid == c.session.id
    ensures SameOut(ProceedNowhere(st, c, e, reply), ProceedNowhere(st, d, e, reply))
  {
    hide Kept, Conforms, SameTimers, StopTimer, Selected.IsAc, Selected.IsDc;
    TimersStay(c.timers, d.timers, OngoingTimer, 0);
  }

  lemma AnswerScheduleTwins(st: State, c: Context, d: Context, e: Event, now: nat)
    requires SameContext(c, d) && st.ScheduleExchange? && e.Message? && e.request.ScheduleExchangeReq?
    ensures SameOut(AnswerSchedule(st, c, e, now), AnswerSchedule(st, d, e, now))
  {
    hide Kept, Conforms, SameTimers, SameOut, RefuseSchedule, ProceedAc, ProceedDc, ProceedNowhere, ScheduleReply;
    SetupReplies(c, d);
    var r := ScheduleReply(c, e.request.sid, e.request.mode, st.seDynamic, st.seLate);
    if r.code.IsFailed() {
      RefuseScheduleTwins(st, c, d, e, r, now);
    } else if c.session.selected.IsAc() {
      ProceedAcTwins(st, c, d, e, r);
    } else if c.session.selected.IsDc() {
      ProceedDcTwins(st, c, d, e, r);
    } else {
      ProceedNowhereTwins(st, c, d, e, r);
    }
  }

  lemma ScheduleExchangeTwins(st: State, c: Context, d: Context, e: Event, now: nat)
    requires SameContext(c, d) && st.ScheduleExchange?
    ensures SameOut(FeedScheduleExchange(st, c, e, now), FeedScheduleExchange(st, d, e, now))
  {
    hide Kept, Conforms, SameTimers, Ignore, Unexpected, AnswerSchedule;
    if !e.Message? && IsIdle(st, e) {
      IgnoreTwins(st, c, d, e);
    } else if e.Message? {
      UnexpectedTwins(st, c, d, e);
      if e.request.ScheduleExchangeReq? {
        AnswerScheduleTwins(st, c, d, e, now);
      }
    }
  }

  lemma CableCheckTwins(st: State, c: Context, d: Context, e: Event)
    requires SameContext(c, d) && st.CableCheck?
    ensures SameOut(FeedCableCheck(st, c, e), FeedCableCheck(st, d, e))
  {
    hide Kept, Conforms, SameTimers, Ignore, Unexpected;
    if !e.Message? && IsIdle(st, e) {
      IgnoreTwins(st, c, d, e);
    } else if e.Message? {
      UnexpectedTwins(st, c, d, e);
    }
  }

  lemma AnswerPreChargeTwins(st: State, c: Context, d: Context, e: Event)
    requires SameContext(c, d) && st.PreCharge? && e.Message? && e.request.PreChargeReq?
    ensures SameOut(AnswerPreCharge(st, c, e), AnswerPreCharge(st, d, e))
  {
    hide Kept, Conforms, SameTimers, VoltageReply;
    ChargingReplies(c, d);
  }

  lemma PreChargeTwins(st: State, c: Context, d: Context, e: Event)
    requires SameContext(c, d) && st.PreCharge?
    ensures SameOut(FeedPreCharge(st, c, e), FeedPreCharge(st, d, e))
  {
    hide Kept, Conforms, SameTimers, Ignore, Unexpected, AnswerPreCharge;
    if !e.Message? && IsIdle(st, e) {
      IgnoreTwins(st, c, d, e);
    } else if e.Message? {
      UnexpectedTwins(st, c, d, e);
      if e.request.PreChargeReq? {
        AnswerPreChargeTwins(st, c, d, e);
      }
    }
  }

  lemma CloseContactorTwins(st: State, c: Context, d: Context, e: Event)
    requires SameContext(c, d) && st.PowerDelivery? && IsContactorReport(e)
    requires st.parked.Some? ==> st.parked.value.sid != c.session.id
    ensures SameOut(CloseContactor(st, c, e), CloseContactor(st, d, e))
  {
    hide Kept, Conforms, SameTimers, StopTimer;
    TimersStay(c.timers, d.timers, TimeoutType.Contactor, 0);
  }

  lemma StartParkedTwins(st: State, c: Context, d: Context, e: Event)
    requires SameContext(c, d) && st.PowerDelivery? && st.parked.Some? && st.parked.value.sid == c.session.id
    requires IsContactorReport(e)
    ensures SameOut(StartParked(st, c, e), StartParked(st, d, e))
  {
    hide Kept, Conforms, SameTimers, PowerDeliveryReply, StopTimer;
    ChargingReplies(c, d);
    TimersStay(c.timers, d.timers, TimeoutType.Contactor, 0);
  }

  lemma ContactorTwins(st: State, c: Context, d: Context, e: Event)
    requires SameContext(c, d) && st.PowerDelivery? && IsContactorReport(e)
    ensures SameOut(FeedContactor(st, c, e), FeedContactor(st, d, e))
  {
    hide Kept, Conforms, SameTimers, CloseContactor, StartParked, SameOut;
    if st.parked.Some? && st.parked.value.sid == c.session.id {
      StartParkedTwins(st, c, d, e);
    } else {
      CloseContactorTwins(st, c, d, e);
    }
  }

  lemma JudgeStartTwins(st: State, c: Context, d: Context, e: Event)
    requires SameContext(c, d) && st.PowerDelivery? && e.Message? && e.request.PowerDeliveryReq?
    requires c.session.selected.IsAc() ==> st.closed || e.request.progress != Start
    ensures SameOut(JudgeStart(st, c, e), JudgeStart(st, d, e))
  {
    hide Kept, Conforms, SameTimers, PowerDeliveryReply, Code.IsFailed, Selected.IsAc, Selected.IsDc;
    ChargingReplies(c, d);
  }

  lemma StartTwins(st: State, c: Context, d: Context, e: Event, now: nat)
    requires SameContext(c, d) && st.PowerDelivery? && e.Message? && e.request.PowerDeliveryReq?
    ensures SameOut(FeedStart(st, c, e, now), FeedStart(st, d, e, now))
  {
    hide Kept, Conforms, SameTimers, JudgeStart, StartTimer;
    TimersStay(c.timers, d.timers, TimeoutType.Contactor, now + TIMEOUT_CONTACTOR);
    if !(c.session.selected.IsAc() && !st.closed && e.request.progress == Start) {
      JudgeStartTwins(st, c, d, e);
    }
  }

  lemma AnswerLatePreChargeTwins(st: State, c: Context, d: Context, e: Event)
    requires SameContext(c, d) && st.PowerDelivery? && e.Message? && e.request.PreChargeReq?
    ensures SameOut(AnswerLatePreCharge(st, c, e), AnswerLatePreCharge(st, d, e))
  {
    hide Kept, Conforms, SameTimers, Reject, Stay, VoltageReply;
    ChargingReplies(c, d);
    var r := VoltageReply(c, e.request.sid, st.pdVoltage);
    if r.code.IsFailed() {
      RejectTwins(st, c, d, e, r);
    } else {
      StayTwins(st, c, d, e, r);
    }
  }

  lemma ExpireContactorTwins(st: State, c: Context, d: Context, e: Event)
    requires SameContext(c, d) && st.PowerDelivery? && e == Expired(Contactor)
    ensures SameOut(ExpireContactor(st, c, e), ExpireContactor(st, d, e))
  {
    hide Kept, Conforms, SameTimers, PowerDeliveryReply, Reject;
    ChargingReplies(c, d);
    var p := st.parked.GetOr(Parked(0, Start));
    RejectTwins(st, c, d, e, PowerDeliveryReply(c, p.sid, p.progress, true));
  }

  lemma PowerDeliveryTwins(st: State, c: Context, d: Context, e: Event, now: nat)
    requires SameContext(c, d) && st.PowerDelivery?
    ensures SameOut(FeedPowerDelivery(st, c, e, now), FeedPowerDelivery(st, d, e, now))
  {
    hide Kept, Conforms, SameTimers, Ignore, SequenceError, FeedContactor, FeedStart, AnswerLatePreCharge, ExpireContactor;
    if e.Message? {
      SequenceErrorTwins(st, c, d, e);
      if e.request.PreChargeReq? {
        AnswerLatePreChargeTwins(st, c, d, e);
      } else if e.request.PowerDeliveryReq? {
        StartTwins(st, c, d, e, now);
      }
    } else if IsContactorReport(e) {
      ContactorTwins(st, c, d, e);
    } else {
      IgnoreTwins(st, c, d, e);
      if e == Expired(Contactor) {
        ExpireContactorTwins(st, c, d, e);
      }
    }
  }

  // ------------------------------------------------------------ charging and after

  lemma StopAcLoopTwins(st: State, c: Context, d: Context, e: Event)
    requires SameContext(c, d) && st.AcLoop? && e.Message? && e.request.PowerDeliveryReq?
    ensures SameOut(StopAcLoop(st, c, e), StopAcLoop(st, d, e))
  {
    hide Kept, Conforms, SameTimers, Reject, Stay, PowerDeliveryReply;
    ChargingReplies(c, d);
    var r := PowerDeliveryReply(c, e.request.sid, e.request.progress, false);
    if r.code.IsFailed() {
      RejectTwins(st, c, d, e, r);
    } else {
      StayTwins(st, c, d, e, r);
    }
  }

  lemma AnswerAcLoopTwins(st: State, c: Context, d: Context, e: Event)
    requires SameContext(c, d) && st.AcLoop? && e.Message? && e.request.AcLoopReq?
    ensures SameOut(AnswerAcLoop(st, c, e), AnswerAcLoop(st, d, e))
  {
    hide Kept, Conforms, SameTimers, AcLoopReply;
    ChargingReplies(c, d);
  }

  lemma AcLoopTwins(st: State, c: Context, d: Context, e: Event)
    requires SameContext(c, d) && st.AcLoop?
    ensures SameOut(FeedAcLoop(st, c, e), FeedAcLoop(st, d, e))
  {
    hide Kept, Conforms, SameTimers, Ignore, SequenceError, StopAcLoop, AnswerAcLoop, ControlAcLoop;
    if e.Message? {
      SequenceErrorTwins(st, c, d, e);
      if e.request.PowerDeliveryReq? {
        StopAcLoopTwins(st, c, d, e);
      } else if e.request.AcLoopReq? {
        AnswerAcLoopTwins(st, c, d, e);
      }
    } else if e.Expired? {
      IgnoreTwins(st, c, d, e);
    }
  }

  lemma StopDcLoopTwins(st: State, c: Context, d: Context, e: Event)
    requires SameContext(c, d) && st.DcLoop? && e.Message? && e.request.PowerDeliveryReq?
    ensures SameOut(StopDcLoop(st, c, e), StopDcLoop(st, d, e))
  {
    hide Kept, Conforms, SameTimers, Reject, PowerDeliveryReply;
    ChargingReplies(c, d);
    var r := PowerDeliveryReply(c, e.request.sid, e.request.progress, false);
    if r.code.IsFailed() {
      RejectTwins(st, c, d, e, r);
    }
  }

  lemma AnswerDcLoopTwins(st: State, c: Context, d: Context, e: Event)
    requires SameContext(c, d) && st.DcLoop? && e.Message? && e.request.DcLoopReq?
    ensures SameOut(AnswerDcLoop(st, c, e), AnswerDcLoop(st, d, e))
  {
    hide Kept, Conforms, SameTimers, DcLoopReply;
    ChargingReplies(c, d);
  }

  lemma DcLoopTwins(st: State, c: Context, d: Context, e: Event)
    requires SameContext(c, d) && st.DcLoop?
    ensures SameOut(FeedDcLoop(st, c, e), FeedDcLoop(st, d, e))
  {
    hide Kept, Conforms, SameTimers, Ignore, SequenceError, StopDcLoop, AnswerDcLoop, ControlDcLoop;
    if e.Message? {
      SequenceErrorTwins(st, c, d, e);
      if e.request.PowerDeliveryReq? {
        StopDcLoopTwins(st, c, d, e);
      } else if e.request.DcLoopReq? {
        AnswerDcLoopTwins(st, c, d, e);
      }
    } else if e.Expired? {
      IgnoreTwins(st, c, d, e);
    }
  }

  lemma EndSessionTwins(st: State, c: Context, d: Context, e: Event)
    requires SameContext(c, d) && (st.Welding? || st.SessionStop?) && e.Message? && e.request.SessionStopReq?
    ensures SameOut(EndSession(st, c, e), EndSession(st, d, e))
  {
    hide Kept, Conforms, SameTimers, Stay;
    if e.request.ending == ServiceRenegotiation {
      StayTwins(st, c, d, e, Bare(StopCode(c.session, e.request.sid, e.request.ending)));
    }
  }

  lemma AnswerWeldingTwins(st: State, c: Context, d: Context, e: Event)
    requires SameContext(c, d) && st.Welding? && e.Message? && e.request.WeldingReq?
    ensures SameOut(AnswerWelding(st, c, e), AnswerWelding(st, d, e))
  {
    hide Kept, Conforms, SameTimers, Reject, Stay, VoltageReply;
    ChargingReplies(c, d);
    var r := VoltageReply(c, e.request.sid, st.weldVoltage);
    if r.code.IsFailed() {
      RejectTwins(st, c, d, e, r);
    } else {
      StayTwins(st, c, d, e, r);
    }
  }

  lemma WeldingTwins(st: State, c: Context, d: Context, e: Event)
    requires SameContext(c, d) && st.Welding?
    ensures SameOut(FeedWelding(st, c, e), FeedWelding(st, d, e))
  {
    hide Kept, Conforms, SameTimers, Ignore, SequenceError, AnswerWelding, EndSession;
    if !e.Message? && IsIdle(st, e) {
      IgnoreTwins(st, c, d, e);
    } else if e.Message? {
      SequenceErrorTwins(st, c, d, e);
      if e.request.WeldingReq? {
        AnswerWeldingTwins(st, c, d, e);
      } else if e.request.SessionStopReq? {
        EndSessionTwins(st, c, d, e);
      }
    }
  }

  lemma SessionStopTwins(st: State, c: Context, d: Context, e: Event)
    requires SameContext(c, d) && st.SessionStop?
    ensures SameOut(FeedSessionStop(st, c, e), FeedSessionStop(st, d, e))
  {
    hide Kept, Conforms, SameTimers, Ignore, SequenceError, EndSession;
    if !e.Message? && IsIdle(st, e) {
      IgnoreTwins(st, c, d, e);
    } else if e.Message? {
      SequenceErrorTwins(st, c, d, e);
      if e.request.SessionStopReq? {
        EndSessionTwins(st, c, d, e);
      }
    }
  }

  // ------------------------------------------------------------------- steps and runs

  lemma SetupTwins(st: State, c: Context, d: Context, e: Event, now: nat)
    requires Level(st) < PARAMETERS && SameContext(c, d)
    ensures SameOut(FeedSetup(st, c, e, now), FeedSetup(st, d, e, now))
  {
    hide SameContext, SameOut, Kept, Conforms, FeedSupportedAppProtocol, FeedSessionSetup, FeedAuthorizationSetup,
      FeedAuthorization, FeedServiceDiscovery, FeedServiceDetail, FeedServiceSelection;
    match st
    case SupportedAppProtocol => SupportedAppProtocolTwins(st, c, d, e);
    case SessionSetup => SessionSetupTwins(st, c, d, e);
    case AuthorizationSetup => AuthorizationSetupTwins(st, c, d, e);
    case Authorization(_, _, _) => AuthorizationTwins(st, c, d, e, now);
    case ServiceDiscovery => ServiceDiscoveryTwins(st, c, d, e);
    case ServiceDetail => ServiceDetailTwins(st, c, d, e);
    case ServiceSelection => ServiceSelectionTwins(st, c, d, e);
  }

  lemma ChargingTwins(st: State, c: Context, d: Context, e: Event, now: nat)
    requires Level(st) >= PARAMETERS && SameContext(c, d)
    ensures SameOut(FeedCharging(st, c, e, now), FeedCharging(st, d, e, now))
  {
    hide SameContext, SameOut, Kept, Conforms, FeedAcParameters, FeedDcParameters, FeedScheduleExchange, FeedCableCheck,
      FeedPreCharge, FeedPowerDelivery, FeedAcLoop, FeedDcLoop, FeedWelding, FeedSessionStop;
    match st
    case AcParameters(_) => AcParametersTwins(st, c, d, e);
    case DcParameters => DcParametersTwins(st, c, d, e);
    case ScheduleExchange(_, _, _) => ScheduleExchangeTwins(st, c, d, e, now);
    case CableCheck(_, _) => CableCheckTwins(st, c, d, e);
    case PreCharge(_, _) => PreChargeTwins(st, c, d, e);
    case PowerDelivery(_, _, _) => PowerDeliveryTwins(st, c, d, e, now);
    case AcLoop(_, _, _, _, _, _) => AcLoopTwins(st, c, d, e);
    case DcLoop(_, _, _, _, _, _) => DcLoopTwins(st, c, d, e);
    case Welding(_) => WeldingTwins(st, c, d, e);
    case SessionStop => SessionStopTwins(st, c, d, e);
  }

  /** What a state makes of an event does not depend on the sequence timer or on a stop. */
  predicate FedAlike(st: State, c: Context, d: Context, e: Event, now: nat) {
    hide *;
    SameOut(Feed(st, c, e, now), Feed(st, d, e, now))
  }

  lemma FeedTwins(st: State, c: Context, d: Context, e: Event, now: nat)
    requires SameContext(c, d)
    ensures FedAlike(st, c, d, e, now)
  {
    hide SameContext, SameOut, Kept, Conforms, FeedSetup, FeedCharging;
    if Level(st) < PARAMETERS {
      SetupTwins(st, c, d, e, now);
    } else {
      ChargingTwins(st, c, d, e, now);
    }
  }

  lemma AbsorbTwins(c: Context, d: Context, e: Event)
    requires SameContext(c, d)
    ensures SameContext(Absorb(c, e), Absorb(d, e))
  {
    hide SameTimers;
    if e.Control? {
      match e.control
      case UpdateDcLimits(_) =>
      case EnergyServices(_) =>
      case SupportedVas(_) =>
      case UpdateAcLimits(_) =>
      case UpdateDynamic(_) =>
      case UpdateAcTarget(_) =>
      case UpdateAcPresent(_) =>
      case _ =>
    }
  }

  lemma ReceiveTwins(m: Machine, n: Machine, e: Event)
    requires AreTwins(m, n)
    ensures AreTwins(Receive(m, e), Receive(n, e))
  {
    hide SameContext, Absorb;
    AbsorbTwins(m.ctx, n.ctx, e);
  }

  lemma SettleTwins(m: Machine, n: Machine, e: Event)
    requires AreTwins(m, n) && e != Expired(Sequence)
    ensures AreTwins(Settle(m, e), Settle(n, e))
  {
    hide SameTimers, StopTimer;
    if e.Expired? {
      TimersStay(m.ctx.timers, n.ctx.timers, e.timer, 0);
    }
  }

  lemma StepTwins(m: Machine, n: Machine, i: Input)
    requires AreTwins(m, n) && i.event != Expired(Sequence)
    ensures AreTwins(Step(m, i), Step(n, i))
  {
    hide Feed, Receive, Settle, SameTimers;
    ReceiveTwins(m, n, i.event);
    var a, b := Receive(m, i.event), Receive(n, i.event);
    FeedTwins(a.state, a.ctx, b.ctx, i.event, i.now);
    SettleTwins(Fed(a, i), Fed(b, i), i.event);
  }

  /** Two machines that differ in the sequence timer and in being stopped stay so on every run. */
  lemma {:induction false} RunTwins(m: Machine, n: Machine, inputs: seq<Input>)
    requires AreTwins(m, n) && forall i <- inputs :: i.event != Expired(Sequence)
    ensures AreTwins(Run(m, inputs), Run(n, inputs))
  {
    hide Step, AreTwins;
    if inputs != [] {
      RunTwins(m, n, inputs[..|inputs| - 1]);
      StepTwins(Run(m, inputs[..|inputs| - 1]), Run(n, inputs[..|inputs| - 1]), inputs[|inputs| - 1]);
    }
  }
}
