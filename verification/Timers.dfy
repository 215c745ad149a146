/** The timers of the states: where ONGOING and CONTACTOR run, that ONGOING is armed afresh, and that its expiry is final. */
module Timers {
  import opened Common
  import opened Types
  import opened Machine
  import opened Frame
  import opened Safety

  /** The timer runs only where it is waited for, and not before the first request there. */
  predicate Disciplined(m: Machine) {
    && (OngoingTimer in m.ctx.timers ==> m.state.Authorization? || m.state.ScheduleExchange?)
    && (m.state.Authorization? && m.state.authFirst ==> OngoingTimer !in m.ctx.timers)
    && (m.state.ScheduleExchange? && m.state.seFirst ==> OngoingTimer !in m.ctx.timers)
  }

  lemma {:induction false} DisciplinedStep(m: Machine, i: Input)
    requires Disciplined(m)
    ensures Disciplined(Step(m, i))
  {
    hide Feed, Absorb, Admits, Moves, Guarded, Signals;
    ReceiveKeeps(m, i.event);
    var n := Receive(m, i.event);
    assert Kept(n.state, n.ctx, Feed(n.state, n.ctx, i.event, i.now));
  }

  lemma {:induction false} DisciplinedRun(
      config: SessionConfig, cert: Option<CertHash>, p: Option<PauseContext>, inputs: seq<Input>)
    ensures Disciplined(Run(Init(config, cert, p), inputs))
  {
    hide Step;
    if inputs != [] {
      DisciplinedRun(config, cert, p, inputs[..|inputs| - 1]);
      DisciplinedStep(Run(Init(config, cert, p), inputs[..|inputs| - 1]), inputs[|inputs| - 1]);
    }
  }

  lemma {:induction false} ScheduleArms(st: State, c: Context, e: Event, now: nat)
    requires st.ScheduleExchange? && st.seFirst && OngoingTimer !in c.timers
    requires c.session.selected.IsAc() || c.session.selected.IsDc()
    requires e.Message? && e.request.ScheduleExchangeReq?
    ensures var out := FeedScheduleExchange(st, c, e, now);
      out.state.ScheduleExchange? ==>
        !out.state.seFirst && OngoingTimer in out.ctx.timers && out.ctx.timers[OngoingTimer] == now + 55_000
  {
    hide Kept, Conforms, ScheduleReply;
  }

  /** The first schedule request of this state. */
  predicate AsksFirst(st: State, e: Event) {
    st.ScheduleExchange? && st.seFirst && e.Message? && e.request.ScheduleExchangeReq?
  }

  /** ONGOING runs until 55 s from now, or the state was left. */
  predicate ArmedAfresh(n: Machine, now: nat) {
    n.state.ScheduleExchange? ==>
      !n.state.seFirst && OngoingTimer in n.ctx.timers && n.ctx.timers[OngoingTimer] == now + 55_000
  }

  lemma {:induction false} ScheduleArmsStep(m: Machine, i: Input)
    requires AsksFirst(m.state, i.event) && Disciplined(m)
    requires m.ctx.session.selected.IsAc() || m.ctx.session.selected.IsDc()
    ensures ArmedAfresh(Step(m, i), i.now)
  {
    hide Step, Feed, FeedAcParameters, FeedDcParameters, FeedScheduleExchange, FeedCableCheck, FeedPreCharge,
      Kept, Conforms, Recorded;
    MessageStep(m, i);
    FeedOfPreparing(m.state, m.ctx, i.event, i.now);
    ScheduleArms(m.state, m.ctx, i.event, i.now);
  }

  /** The first schedule request that does not succeed arms 55 s from now,
      although a timer that runs is never started again. */
  lemma {:induction false} ScheduleArmsAfresh(
      config: SessionConfig, cert: Option<CertHash>, p: Option<PauseContext>, inputs: seq<Input>, i: Input)
    requires AsksFirst(Run(Init(config, cert, p), inputs).state, i.event)
    ensures ArmedAfresh(Step(Run(Init(config, cert, p), inputs), i), i.now)
  {
    hide Run, Step, Init, AuthorizedFirst, Ready, EndsOnce, ArmedAfresh;
    DisciplinedRun(config, cert, p, inputs);
    SafeRun(config, cert, p, inputs);
    ScheduleArmsStep(Run(Init(config, cert, p), inputs), i);
  }

  /** The first authorization request. */
  predicate AsksFirstAuthorization(st: State, e: Event) {
    st.Authorization? && st.authFirst && e.Message? && e.request.AuthorizationReq?
  }

  /** ONGOING runs until three minutes from now, or the state was left. */
  predicate AuthorizationArmed(n: Machine, now: nat) {
    n.state.Authorization? ==>
      !n.state.authFirst && OngoingTimer in n.ctx.timers && n.ctx.timers[OngoingTimer] == now + 180_000
  }

  lemma {:induction false} AuthorizationArmsStep(m: Machine, i: Input)
    requires AsksFirstAuthorization(m.state, i.event) && Disciplined(m)
    ensures AuthorizationArmed(Step(m, i), i.now)
  {
    hide Step, Feed, Kept, Conforms, Recorded, AuthorizationReply, Unexpected;
    MessageStep(m, i);
    FeedOfSetup(m.state, m.ctx, i.event, i.now);
  }

  lemma {:induction false} AuthorizationArmsAfresh(
      config: SessionConfig, cert: Option<CertHash>, p: Option<PauseContext>, inputs: seq<Input>, i: Input)
    requires AsksFirstAuthorization(Run(Init(config, cert, p), inputs).state, i.event)
    ensures AuthorizationArmed(Step(Run(Init(config, cert, p), inputs), i), i.now)
  {
    hide Run, Step, Init, Disciplined, AuthorizationArmed;
    DisciplinedRun(config, cert, p, inputs);
    AuthorizationArmsStep(Run(Init(config, cert, p), inputs), i);
  }

  /** The ONGOING timeout was seen in a state that waits for it. */
  predicate IsLate(st: State) {
    (st.Authorization? && st.authLate) || (st.ScheduleExchange? && st.seLate)
  }

  predicate Waits(st: State) {
    st.Authorization? || st.ScheduleExchange?
  }

  lemma {:induction false} LateStep(m: Machine, i: Input)
    requires Waits(m.state) && (IsLate(m.state) || i.event == Expired(OngoingTimer))
    ensures IsLate(Step(m, i).state) && Id(Step(m, i).state) == Id(m.state)
  {
    hide Feed, Absorb, Admits, Moves, Guarded, Signals, Tells, Kept;
    assert Conforms(m.state, Receive(m, i.event).ctx, i.event, Feed(m.state, Receive(m, i.event).ctx, i.event, i.now));
  }

  lemma {:induction false} LateForever(m: Machine, inputs: seq<Input>)
    requires IsLate(m.state)
    ensures IsLate(Run(m, inputs).state) && Id(Run(m, inputs).state) == Id(m.state)
  {
    hide Step;
    if inputs != [] {
      LateForever(m, inputs[..|inputs| - 1]);
      LateStep(Run(m, inputs[..|inputs| - 1]), inputs[|inputs| - 1]);
    }
  }

  /** Once ONGOING has expired in one of the two states, the machine never leaves it. */
  lemma {:induction false} ExpiryIsFinal(m: Machine, i: Input, inputs: seq<Input>)
    requires Waits(m.state) && i.event == Expired(OngoingTimer)
    ensures Id(Run(Step(m, i), inputs).state) == Id(m.state)
  {
    hide Run, Step;
    LateStep(m, i);
    LateForever(Step(m, i), inputs);
  }

  // ---------------------------------------------------------------- the other timers

  predicate AsksStart(e: Event) {
    e.Message? && e.request.PowerDeliveryReq? && e.request.progress == Start
  }

  /** The request waits for the contactor. */
  predicate Parks(st: State, s: Selected, e: Event) {
    st.PowerDelivery? && s.IsAc() && !st.closed && AsksStart(e)
  }

  /** A state touches the one timer that it waits with, if any: CONTACTOR starts with a parked request,
      unless it runs, and ends with a report. */
  predicate TimersMove(st: State, c: Context, e: Event, out: Out) {
    var a, b := c.timers, out.ctx.timers;
    if st.PowerDelivery? then
      && StopTimer(a, TimeoutType.Contactor) == StopTimer(b, TimeoutType.Contactor)
      && (TimeoutType.Contactor in b <==>
            !IsContactorReport(e) && (TimeoutType.Contactor in a || Parks(st, c.session.selected, e)))
    else if st.Authorization? || st.ScheduleExchange? then StopTimer(a, OngoingTimer) == StopTimer(b, OngoingTimer)
    else a == b
  }

  lemma {:induction false} AuthorizationTimers(st: State, c: Context, e: Event, now: nat)
    requires st.Authorization?
    ensures TimersMove(st, c, e, FeedAuthorization(st, c, e, now))
  {
    hide Kept, Conforms, AuthorizationReply, Code.IsFailed, StopCode;
  }

  lemma {:induction false} ScheduleTimers(st: State, c: Context, e: Event, now: nat)
    requires st.ScheduleExchange?
    ensures TimersMove(st, c, e, FeedScheduleExchange(st, c, e, now))
  {
    hide Kept, Conforms, ScheduleReply, Code.IsFailed, StopCode;
  }

  lemma {:induction false} ContactorTimers(st: State, c: Context, e: Event)
    requires st.PowerDelivery? && IsContactorReport(e)
    ensures TimersMove(st, c, e, FeedContactor(st, c, e))
  {
    hide Kept, Conforms, PowerDeliveryReply, AcLoopOnEntry;
  }

  lemma {:induction false} StartTimers(st: State, c: Context, e: Event, now: nat)
    requires st.PowerDelivery? && e.Message? && e.request.PowerDeliveryReq?
    ensures TimersMove(st, c, e, FeedStart(st, c, e, now))
  {
    hide Kept, Conforms, PowerDeliveryReply, AcLoopOnEntry, DcLoopOnEntry, Code.IsFailed;
  }

  lemma {:induction false} DeliveryTimers(st: State, c: Context, e: Event, now: nat)
    requires st.PowerDelivery?
    ensures TimersMove(st, c, e, FeedPowerDelivery(st, c, e, now))
  {
    hide Kept, Conforms, PowerDeliveryReply, VoltageReply, FeedContactor, FeedStart, StopTimer, Code.IsFailed;
    if IsContactorReport(e) {
      ContactorTimers(st, c, e);
    } else if e.Message? && e.request.PowerDeliveryReq? {
      StartTimers(st, c, e, now);
    }
  }

  lemma OtherTimers(st: State, c: Context, e: Event, out: Out)
    requires Kept(st, c, out) && !Timing(Id(st))
    ensures TimersMove(st, c, e, out)
  {
  }

  predicate FedTimersMove(st: State, c: Context, e: Event, now: nat) {
    hide *;
    TimersMove(st, c, e, Feed(st, c, e, now))
  }

  lemma {:induction false} FeedTimers(st: State, c: Context, e: Event, now: nat)
    ensures FedTimersMove(st, c, e, now)
  {
    hide Feed, FeedAuthorization, FeedScheduleExchange, FeedPowerDelivery, Conforms, Kept, TimersMove;
    if st.Authorization? {
      FeedOfSetup(st, c, e, now);
      AuthorizationTimers(st, c, e, now);
    } else if st.ScheduleExchange? {
      FeedOfPreparing(st, c, e, now);
      ScheduleTimers(st, c, e, now);
    } else if st.PowerDelivery? {
      FeedOfCharging(st, c, e, now);
      DeliveryTimers(st, c, e, now);
    } else {
      assert Kept(st, c, Feed(st, c, e, now));
      OtherTimers(st, c, e, Feed(st, c, e, now));
    }
  }

  /** When the sequence timer runs, no step moves it; CONTACTOR moves with a parked start and its end. */
  predicate StepTimers(m: Machine, e: Event, n: Machine) {
    var a, b := m.ctx.timers, n.ctx.timers;
    && (e != Expired(Sequence) ==> (Sequence in b <==> Sequence in a) && (Sequence in a ==> b[Sequence] == a[Sequence]))
    && (TimeoutType.Contactor in b <==>
          && e != Expired(TimeoutType.Contactor) && !(m.state.PowerDelivery? && IsContactorReport(e))
          && (TimeoutType.Contactor in a || Parks(m.state, m.ctx.session.selected, e)))
  }

  lemma KeptTimer(a: map<TimeoutType, nat>, b: map<TimeoutType, nat>, t: TimeoutType, u: TimeoutType)
    requires StopTimer(a, t) == StopTimer(b, t) && t != u
    ensures (u in a <==> u in b) && (u in a ==> a[u] == b[u])
  {
    assert u in StopTimer(a, t) <==> u in a;
    assert u in StopTimer(b, t) <==> u in b;
    assert u in a ==> StopTimer(a, t)[u] == a[u];
    assert u in b ==> StopTimer(b, t)[u] == b[u];
  }

  lemma {:induction false} StepMovesTimers(m: Machine, i: Input)
    ensures StepTimers(m, i.event, Step(m, i))
  {
    hide Feed, Absorb, Recorded, Kept, Conforms, IsContactorReport;
    ReceiveKeeps(m, i.event);
    var r := Receive(m, i.event);
    FeedTimers(r.state, r.ctx, i.event, i.now);
    var b := Feed(r.state, r.ctx, i.event, i.now).ctx.timers;
    if r.state.PowerDelivery? {
      KeptTimer(m.ctx.timers, b, TimeoutType.Contactor, Sequence);
    } else if r.state.Authorization? || r.state.ScheduleExchange? {
      KeptTimer(m.ctx.timers, b, OngoingTimer, Sequence);
      KeptTimer(m.ctx.timers, b, OngoingTimer, TimeoutType.Contactor);
    }
  }

  // -------------------------------------------------------------- where CONTACTOR runs

  /** A contactor report was delivered in `PowerDelivery`. */
  predicate WasReported(events: seq<Delivery>) {
    exists d <- events :: d.at == AtPowerDelivery && IsContactorReport(d.event)
  }

  /** A start was delivered in `PowerDelivery` before any contactor report, and CONTACTOR has not expired since. */
  predicate StartAwaited(events: seq<Delivery>) {
    if events == [] then false
    else
      var d, before := events[|events| - 1], events[..|events| - 1];
      if d.event == Expired(TimeoutType.Contactor) || (d.at == AtPowerDelivery && IsContactorReport(d.event)) then false
      else StartAwaited(before) || (d.at == AtPowerDelivery && AsksStart(d.event) && !WasReported(before))
  }

  lemma {:induction false} ReportEndsWaiting(events: seq<Delivery>)
    requires WasReported(events)
    ensures !StartAwaited(events)
  {
    var d, before := events[|events| - 1], events[..|events| - 1];
    if !(d.at == AtPowerDelivery && IsContactorReport(d.event)) {
      ReportEndsWaiting(before);
    }
  }

  lemma {:induction false} AwaitedStep(m: Machine, i: Input)
    ensures StartAwaited(Step(m, i).log.events) <==>
            && i.event != Expired(TimeoutType.Contactor) && !(m.state.PowerDelivery? && IsContactorReport(i.event))
            && (StartAwaited(m.log.events) || (m.state.PowerDelivery? && AsksStart(i.event) && !WasReported(m.log.events)))
  {
    hide Step, Outcome, Admits, Guarded, Signals, Tells, Moves, WasReported, IsContactorReport, AsksStart;
    StepIsOutcome(m, i);
    assert Step(m, i).log.events[..|m.log.events|] == m.log.events;
  }

  /** CONTACTOR runs exactly while an AC session awaits the contactor for a start. */
  predicate ContactorAwaits(m: Machine) {
    && (TimeoutType.Contactor in m.ctx.timers <==> m.ctx.session.selected.IsAc() && StartAwaited(m.log.events))
    && (Level(m.state) < Rank(AtPowerDelivery) ==> !StartAwaited(m.log.events))
  }

  predicate KnowsReport(m: Machine) {
    m.state.PowerDelivery? ==> (m.state.closed <==> WasReported(m.log.events))
  }

  lemma {:induction false} ContactorAwaitsStep(m: Machine, i: Input)
    requires ContactorAwaits(m)
    requires KnowsReport(m)
    ensures ContactorAwaits(Step(m, i))
  {
    hide Step, WasReported, StartAwaited, IsContactorReport, AsksStart;
    AwaitedStep(m, i);
    StepMovesTimers(m, i);
    StepClimbs(m, i);
  }

  /** On every run CONTACTOR runs exactly if the session is in AC, a start was delivered before any contactor
      report, and neither a report nor the expiry came since, whatever state is active by now. */
  lemma {:induction false} ContactorRuns(
      config: SessionConfig, cert: Option<CertHash>, p: Option<PauseContext>, inputs: seq<Input>)
    ensures ContactorAwaits(Run(Init(config, cert, p), inputs))
  {
    hide Step;
    if inputs != [] {
      hide ContactorAwaits, AuthorizedFirst, OnBranch, DcReady, EndsOnce, IsContactorReport;
      var before := inputs[..|inputs| - 1];
      ContactorRuns(config, cert, p, before);
      SafeRun(config, cert, p, before);
      ContactorAwaitsStep(Run(Init(config, cert, p), before), inputs[|inputs| - 1]);
    }
  }
}
