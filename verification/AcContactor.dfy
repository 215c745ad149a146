/** How an AC session gets into its charge loop, and whether the contactor was reported before. */
module AcContactor {
  import opened Common
  import opened Types
  import opened Machine
  import opened Frame
  import opened Safety
  import opened Timers

  /** Which events take an AC session from `PowerDelivery` into its charge loop. */
  predicate StartsAc(st: State, own: SessionId, e: Event) {
    && st.PowerDelivery?
    && if e.Message? then
         e.request.PowerDeliveryReq? && e.request.sid == own && (st.closed || e.request.progress != Start)
       else
         IsContactorReport(e) && st.parked.Some? && st.parked.value.sid == own
  }

  lemma {:induction false} AcStartFed(st: State, c: Context, e: Event, now: nat)
    requires st.PowerDelivery? && c.session.selected.IsAc()
    ensures FeedPowerDelivery(st, c, e, now).state.AcLoop? <==> StartsAc(st, c.session.id, e)
  {
    hide Kept, Conforms, VoltageReply, StartTimer, StopTimer;
  }

  lemma {:induction false} AcStartExact(m: Machine, i: Input)
    requires m.state.PowerDelivery? && m.ctx.session.selected.IsAc()
    ensures Step(m, i).state.AcLoop? <==> StartsAc(m.state, m.ctx.session.id, i.event)
  {
    hide Feed, FeedPowerDelivery, Kept, Conforms, Recorded, Absorb;
    ReceiveKeeps(m, i.event);
    var c := Receive(m, i.event).ctx;
    FeedOfCharging(m.state, c, i.event, i.now);
    AcStartFed(m.state, c, i.event, i.now);
  }

  // ------------------------------------------------------- what had been reported

  /** The contactor was reported closed to `PowerDelivery`. */
  predicate ClosedReported(log: History) {
    Delivery(AtPowerDelivery, Control(ClosedContactor(true))) in log.events
  }

  lemma {:induction false} ClosedGrows(m: Machine, i: Input)
    ensures ClosedReported(Step(m, i).log) <==>
            ClosedReported(m.log) || (m.state.PowerDelivery? && i.event == Control(ClosedContactor(true)))
  {
    hide Step, Outcome, Admits, Guarded, Moves, Signals, Tells;
    StepIsOutcome(m, i);
  }

  /** After a report no start of the session itself waits any more. */
  predicate NoneWaits(m: Machine) {
    m.state.PowerDelivery? && m.state.closed && m.state.parked.Some? ==> m.state.parked.value.sid != m.ctx.session.id
  }

  lemma {:induction false} NoneWaitsStep(m: Machine, i: Input)
    requires NoneWaits(m)
    ensures NoneWaits(Step(m, i))
  {
    hide Step, Outcome, Admits, Guarded, Signals, Tells, Recorded, Edge;
    StepIsOutcome(m, i);
    StepCarries(m, i);
  }

  lemma {:induction false} NoneWaitsRun(
      config: SessionConfig, cert: Option<CertHash>, p: Option<PauseContext>, inputs: seq<Input>)
    ensures NoneWaits(Run(Init(config, cert, p), inputs))
  {
    hide Step;
    if inputs != [] {
      NoneWaitsRun(config, cert, p, inputs[..|inputs| - 1]);
      NoneWaitsStep(Run(Init(config, cert, p), inputs[..|inputs| - 1]), inputs[|inputs| - 1]);
    }
  }

  /** What is on record when the charge loop starts. Any report: unless the request that starts it asks
      for something else than to start, before any report. A report that the contactor is closed: if the
      contactor event itself starts the loop, it is the only report, and has to say so; otherwise one of
      the reports before has to, all of which came while no start of the session waited. */
  predicate ReportedExactly(m: Machine, i: Input, n: Machine) {
    m.state.PowerDelivery? ==>
      && (ContactorReported(n.log) <==> m.state.closed || !IsSkip(i.event))
      && (ClosedReported(n.log) <==>
            if m.state.closed then ClosedReported(m.log) else i.event == Control(ClosedContactor(true)))
      && (IsContactorReport(i.event) ==> !ContactorReported(m.log))
  }

  lemma {:induction false} ContactorReportedExactly(
      config: SessionConfig, cert: Option<CertHash>, p: Option<PauseContext>, inputs: seq<Input>, i: Input)
    requires Run(Init(config, cert, p), inputs).state.PowerDelivery?
    requires Step(Run(Init(config, cert, p), inputs), i).state.AcLoop?
    ensures var m := Run(Init(config, cert, p), inputs);
      ReportedExactly(m, i, Step(m, i))
  {
    hide Run, Step, OnBranch, DcReady, AuthorizedFirst, EndsOnce;
    var m := Run(Init(config, cert, p), inputs);
    SafeRun(config, cert, p, inputs);
    NoneWaitsRun(config, cert, p, inputs);
    AcLoopFrom(m, i);
    hide AcReady;
    Reported(m, i);
  }

  /** An AC charge loop belongs to an AC session. */
  lemma {:induction false} AcLoopFrom(m: Machine, i: Input)
    requires OnBranch(m) && m.state.PowerDelivery? && Step(m, i).state.AcLoop?
    ensures m.ctx.session.selected.IsAc()
  {
    hide Step;
    OnBranchStep(m, i);
    StepClimbs(m, i);
  }

  lemma {:induction false} Reported(m: Machine, i: Input)
    requires AcReady(m) && NoneWaits(m)
    requires m.state.PowerDelivery? && m.ctx.session.selected.IsAc() && Step(m, i).state.AcLoop?
    ensures ReportedExactly(m, i, Step(m, i))
  {
    hide Step, ContactorReported, ClosedReported, StartSkipped;
    AcStartExact(m, i);
    ReportsGrow(m, i);
    ClosedGrows(m, i);
    ClosedIsReport(m.log);
  }

  lemma ClosedIsReport(log: History)
    ensures ClosedReported(log) ==> ContactorReported(log)
  {
  }

  /** If the contactor is never reported open, a report is one that it is closed. */
  lemma {:induction false} NeverOpen(log: History)
    requires forall d <- log.events :: d.event != Control(ClosedContactor(false))
    ensures ContactorReported(log) <==> ClosedReported(log)
  {
    if ContactorReported(log) {
      var d :| d in log.events && d.at == AtPowerDelivery && IsContactorReport(d.event);
      assert d == Delivery(AtPowerDelivery, Control(ClosedContactor(true)));
    }
  }

  predicate OwnStartWaits(m: Machine) {
    m.state.PowerDelivery? && m.state.parked.Some? && m.state.parked.value.sid == m.ctx.session.id
  }

  function OpenReport(now: nat): Input {
    Input(Control(ClosedContactor(false)), now)
  }

  /** A contactor event starts the charge loop for a start that waits, whatever it says. */
  lemma {:induction false} OpenReportStarts(m: Machine, now: nat)
    requires OwnStartWaits(m) && m.ctx.session.selected.IsAc()
    ensures Step(m, OpenReport(now)).state.AcLoop?
  {
    hide Step;
    AcStartExact(m, OpenReport(now));
  }

  // ------------------------------------------------------- a timer that is left behind

  /** The charge loop is entered while CONTACTOR runs exactly if something else than a start is asked for
      while a start is still awaited. */
  predicate LeavesTimerExactly(m: Machine, i: Input, n: Machine) {
    TimeoutType.Contactor in n.ctx.timers <==> StartAwaited(m.log.events) && IsSkip(i.event)
  }

  lemma {:induction false} SkipLeavesTimer(
      config: SessionConfig, cert: Option<CertHash>, p: Option<PauseContext>, inputs: seq<Input>, i: Input)
    requires Run(Init(config, cert, p), inputs).state.PowerDelivery?
    requires Step(Run(Init(config, cert, p), inputs), i).state.AcLoop?
    ensures var m := Run(Init(config, cert, p), inputs);
      LeavesTimerExactly(m, i, Step(m, i))
  {
    hide Run, Step, DcReady, AuthorizedFirst, EndsOnce;
    var m := Run(Init(config, cert, p), inputs);
    SafeRun(config, cert, p, inputs);
    ContactorRuns(config, cert, p, inputs);
    AcLoopFrom(m, i);
    hide OnBranch;
    LeftBehind(m, i);
  }

  lemma {:induction false} LeftBehind(m: Machine, i: Input)
    requires AcReady(m) && ContactorAwaits(m)
    requires m.state.PowerDelivery? && m.ctx.session.selected.IsAc() && Step(m, i).state.AcLoop?
    ensures LeavesTimerExactly(m, i, Step(m, i))
  {
    hide Step, StartAwaited, StartSkipped;
    AcStartExact(m, i);
    StepMovesTimers(m, i);
    if m.state.closed {
      ReportEndsWaiting(m.log.events);
    }
  }

  // ------------------------------------------------------------------ concrete runs

  /** Five requests of a resumed AC session; the last one asks for standby. */
  function StandbyRun(id: SessionId): seq<Input> {
    [ HELLO,
      Ask(SessionSetupReq(id)),
      Ask(AcParametersReq(id, AcMode)),
      Ask(ScheduleExchangeReq(id, Scheduled)),
      Ask(PowerDeliveryReq(id, Standby)) ]
  }

  function Ask(r: Request): Input {
    Input(Message(r, 0, None), 0)
  }

  function PausedAs(cert: CertHash, id: SessionId, selected: Selected): Option<PauseContext> {
    Some(PauseContext(Digest(cert, id), id, selected))
  }

  const HELLO := Ask(SupportedAppProtocolReq([AppProtocol(ISO20_AC, 1, 1)]))

  lemma Begins(m: Machine)
    requires m.state.SupportedAppProtocol?
    ensures var n := Step(m, HELLO);
      n.state.SessionSetup? && n.ctx == m.ctx
  {
    hide Kept, Conforms, Step, Feed;
    MessageStep(m, HELLO);
    FeedOfSetup(m.state, m.ctx, HELLO.event, HELLO.now);
    var ps := [AppProtocol(ISO20_AC, 1, 1)];
    assert ps[..0] == [];
    assert Negotiated(ps, m.ctx.config.customProtocol).Some?;
  }

  /** A paused AC session of this id can be joined. */
  predicate CanResume(m: Machine, id: SessionId, selected: Selected) {
    && m.state.SessionSetup? && id != 0 && m.ctx.cert.Some? && selected.IsAc()
    && m.ctx.pauseCtx == PausedAs(m.ctx.cert.value, id, selected)
  }

  lemma Resumed(m: Machine, id: SessionId, selected: Selected)
    requires CanResume(m, id, selected)
    ensures var n := Step(m, Ask(SessionSetupReq(id)));
      n.state.AcParameters? && n.ctx.session.id == id && n.ctx.session.selected == selected
  {
    hide Kept, Conforms, Step, Feed;
    var i := Ask(SessionSetupReq(id));
    MessageStep(m, i);
    FeedOfSetup(m.state, m.ctx, i.event, i.now);
  }

  predicate AwaitsSchedule(st: State) {
    st.ScheduleExchange? && !st.seLate
  }

  lemma AgreedFed(st: State, c: Context)
    requires st.AcParameters? && c.session.selected.Energy() == AC
    ensures var out := FeedAcParameters(st, c, Ask(AcParametersReq(c.session.id, AcMode)).event);
      AwaitsSchedule(out.state) && out.ctx.session == c.session
  {
    hide Kept, Conforms, DerGate;
  }

  lemma Agreed(m: Machine)
    requires m.state.AcParameters? && m.ctx.session.selected.Energy() == AC
    ensures var n := Step(m, Ask(AcParametersReq(m.ctx.session.id, AcMode)));
      AwaitsSchedule(n.state) && n.ctx.session == m.ctx.session
  {
    hide Kept, Conforms, Step, Feed, FeedAcParameters;
    var i := Ask(AcParametersReq(m.ctx.session.id, AcMode));
    MessageStep(m, i);
    FeedOfPreparing(m.state, m.ctx, i.event, i.now);
    AgreedFed(m.state, m.ctx);
  }

  lemma ScheduleAnswered(st: State, c: Context, now: nat)
    requires st.ScheduleExchange? && !st.seLate && c.session.selected.Energy() == AC
    requires c.session.selected.Mode() == Some(Scheduled)
    ensures var out := FeedScheduleExchange(st, c, Ask(ScheduleExchangeReq(c.session.id, Scheduled)).event, now);
      out.state == PowerDelivery(0.0, false, None) && out.ctx.session == c.session
  {
    hide Kept, Conforms, StartTimer, StopTimer;
  }

  lemma ScheduleAgreed(m: Machine)
    requires AwaitsSchedule(m.state) && m.ctx.session.selected.Energy() == AC
    requires m.ctx.session.selected.Mode() == Some(Scheduled)
    ensures var n := Step(m, Ask(ScheduleExchangeReq(m.ctx.session.id, Scheduled)));
      n.state == PowerDelivery(0.0, false, None) && n.ctx.session == m.ctx.session
  {
    hide Kept, Conforms, Step, Feed, FeedScheduleExchange;
    var i := Ask(ScheduleExchangeReq(m.ctx.session.id, Scheduled));
    MessageStep(m, i);
    FeedOfPreparing(m.state, m.ctx, i.event, i.now);
    ScheduleAnswered(m.state, m.ctx, i.now);
  }

  lemma ParkedFed(st: State, c: Context, now: nat)
    requires st == PowerDelivery(0.0, false, None) && c.session.selected.Energy() == AC
    ensures var out := FeedPowerDelivery(st, c, Ask(PowerDeliveryReq(c.session.id, Start)).event, now);
      out.state == PowerDelivery(0.0, false, Some(Parked(c.session.id, Start))) && out.ctx.session == c.session
  {
    hide Kept, Conforms, StartTimer;
  }

  lemma StartParks(m: Machine)
    requires m.state == PowerDelivery(0.0, false, None) && m.ctx.session.selected.Energy() == AC
    ensures var n := Step(m, Ask(PowerDeliveryReq(m.ctx.session.id, Start)));
      n.state == PowerDelivery(0.0, false, Some(Parked(m.ctx.session.id, Start))) && n.ctx.session == m.ctx.session
  {
    hide Kept, Conforms, Step, Feed, FeedPowerDelivery;
    var i := Ask(PowerDeliveryReq(m.ctx.session.id, Start));
    MessageStep(m, i);
    FeedOfCharging(m.state, m.ctx, i.event, i.now);
    ParkedFed(m.state, m.ctx, i.now);
  }

  /** A session that can be resumed in scheduled AC. */
  predicate ResumableInAc(id: SessionId, selected: Selected) {
    id != 0 && selected.Energy() == AC && selected.Mode() == Some(Scheduled)
  }

  /** How many requests lead to power delivery. */
  const SETUP: nat := 4

  /** The first four requests lead a resumed AC session to power delivery. */
  lemma {:induction false} ToPowerDelivery(
      config: SessionConfig, cert: CertHash, id: SessionId, selected: Selected, inputs: seq<Input>)
    requires ResumableInAc(id, selected)
    requires Prefix(inputs, SETUP) == Prefix(StandbyRun(id), SETUP)
    ensures var m := RunTo(Init(config, Some(cert), PausedAs(cert, id, selected)), inputs, SETUP);
      m.state == PowerDelivery(0.0, false, None) && m.ctx.session.id == id && m.ctx.session.selected == selected
  {
    hide Step;
    var m0, r := Init(config, Some(cert), PausedAs(cert, id, selected)), StandbyRun(id);
    assert r[..1] == r[..0] + [r[0]] && r[..2] == r[..1] + [r[1]] && r[..3] == r[..2] + [r[2]] && r[..4] == r[..3] + [r[3]];
    forall k | 0 <= k < 4 {
      RunOneMore(m0, r[..k], r[k]);
    }
    Begins(m0);
    Resumed(Run(m0, r[..1]), id, selected);
    Agreed(Run(m0, r[..2]));
    ScheduleAgreed(Run(m0, r[..3]));
  }

  /** A standby request starts AC charging although no contactor was ever reported. */
  lemma {:induction false} StandbySkipsContactor(
      config: SessionConfig, cert: CertHash, id: SessionId, selected: Selected)
    requires ResumableInAc(id, selected)
    ensures var m := Run(Init(config, Some(cert), PausedAs(cert, id, selected)), StandbyRun(id));
      m.state.AcLoop? && !ContactorReported(m.log)
  {
    hide Step, Init, ContactorReported, ClosedReported;
    var m0, r := Init(config, Some(cert), PausedAs(cert, id, selected)), StandbyRun(id);
    ToPowerDelivery(config, cert, id, selected, r);
    assert r == r[..4] + [r[4]];
    RunOneMore(m0, r[..4], r[4]);
    hide Run;
    AcStartExact(Run(m0, r[..4]), r[4]);
    ContactorReportedExactly(config, Some(cert), PausedAs(cert, id, selected), r[..4], r[4]);
  }

  /** A resumed AC session asks to start, and the contactor is reported open. */
  function OpenRun(id: SessionId): seq<Input> {
    StandbyRun(id)[..4] + [Ask(PowerDeliveryReq(id, Start)), OpenReport(0)]
  }

  lemma OpenRunIs(id: SessionId)
    ensures var r := OpenRun(id);
      && |r| == 6 && Prefix(r, SETUP) == Prefix(StandbyRun(id), SETUP)
      && r[4] == Ask(PowerDeliveryReq(id, Start)) && r[5] == OpenReport(0)
  {
  }

  /** AC charging starts although the contactor was only ever reported open. */
  lemma {:induction false} OpenReportSuffices(
      config: SessionConfig, cert: CertHash, id: SessionId, selected: Selected)
    requires ResumableInAc(id, selected)
    ensures var m := Run(Init(config, Some(cert), PausedAs(cert, id, selected)), OpenRun(id));
      m.state.AcLoop? && !ClosedReported(m.log)
  {
    hide Step, Init, ContactorReported, ClosedReported, OpenRun, StandbyRun;
    var p := PausedAs(cert, id, selected);
    var m0, r := Init(config, Some(cert), p), OpenRun(id);
    OpenRunIs(id);
    ToPowerDelivery(config, cert, id, selected, r);
    assert r[..5] == r[..4] + [r[4]] && r == r[..5] + [r[5]];
    RunOneMore(m0, r[..4], r[4]);
    RunOneMore(m0, r[..5], r[5]);
    hide Run;
    StartParks(Run(m0, r[..4]));
    OpenReportStarts(Run(m0, r[..5]), 0);
    ContactorReportedExactly(config, Some(cert), p, r[..5], r[5]);
  }

  /** A resumed AC session asks to start, and for standby before the contactor is reported. */
  function SkipRun(id: SessionId): seq<Input> {
    StandbyRun(id)[..4] + [Ask(PowerDeliveryReq(id, Start)), Ask(PowerDeliveryReq(id, Standby))]
  }

  lemma SkipRunIs(id: SessionId)
    ensures var r := SkipRun(id);
      && |r| == 6 && Prefix(r, SETUP) == Prefix(StandbyRun(id), SETUP)
      && r[4] == Ask(PowerDeliveryReq(id, Start)) && r[5] == Ask(PowerDeliveryReq(id, Standby))
  {
  }

  /** AC charging while the timer of the contactor still runs. */
  lemma {:induction false} TimerLeftBehind(config: SessionConfig, cert: CertHash, id: SessionId, selected: Selected)
    requires ResumableInAc(id, selected)
    ensures var m := Run(Init(config, Some(cert), PausedAs(cert, id, selected)), SkipRun(id));
      m.state.AcLoop? && TimeoutType.Contactor in m.ctx.timers
  {
    hide Step, Init, SkipRun, StandbyRun;
    var m0, r := Init(config, Some(cert), PausedAs(cert, id, selected)), SkipRun(id);
    SkipRunIs(id);
    ToPowerDelivery(config, cert, id, selected, r);
    assert r[..5] == r[..4] + [r[4]] && r == r[..5] + [r[5]];
    RunOneMore(m0, r[..4], r[4]);
    RunOneMore(m0, r[..5], r[5]);
    hide Run;
    StartParks(Run(m0, r[..4]));
    StepMovesTimers(Run(m0, r[..4]), r[4]);
    AcStartExact(Run(m0, r[..5]), r[5]);
    StepMovesTimers(Run(m0, r[..5]), r[5]);
  }
}
