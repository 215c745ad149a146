/** From the cable check to the end: what each request leads to, by what the session heard before. */
module Charging {
  import opened Common
  import opened Types
  import opened Machine
  import opened Frame
  import opened Safety
  import opened Timers
  import opened Answers
  import opened Values
  import opened Outcomes

  // -------------------------------------------------------------- DC preparation

  /** An own cable-check request goes on exactly if the last result of the check was positive. */
  predicate CheckAnswered(m: Machine, e: Event, n: Machine) {
    AsksCheck(e) ==>
      var first := if CheckAsked(m.log.events) then [] else [StartCableCheck];
      if e.request.sid != m.ctx.session.id then Refuses(m, n, first)
      else
        && n.ctx.stopped == m.ctx.stopped
        && if LastCheck(m.log.events) then
             n.state == PreCharge(false, 0.0) && Does(m, n, Ok, ProcessingBody(Finished), first)
           else n.state.CableCheck? && Does(m, n, Ok, ProcessingBody(Ongoing), first)
  }

  lemma {:induction false} CheckStepped(m: Machine, i: Input)
    requires m.state.CableCheck? && AsksCheck(i.event)
    requires m.state == CableCheck(CheckAsked(m.log.events), LastCheck(m.log.events))
    ensures CheckAnswered(m, i.event, Step(m, i))
  {
    hide Kept, Conforms, Step, Feed, CheckAsked, LastCheck;
    MessageStep(m, i);
    FeedOfPreparing(m.state, m.ctx, i.event, i.now);
  }

  /** On every run a cable-check request is answered by the last result of the check, and the first one
      starts it. */
  lemma {:induction false} CableCheckExact(
      config: SessionConfig, cert: Option<CertHash>, p: Option<PauseContext>, inputs: seq<Input>, i: Input)
    requires Run(Init(config, cert, p), inputs).state.CableCheck? && AsksCheck(i.event)
    ensures var m := Run(Init(config, cert, p), inputs);
      CheckAnswered(m, i.event, Step(m, i))
  {
    hide Run, Step, Init, CheckAnswered, CheckAsked, LastCheck, AuthorizedFirst, OnBranch, AcReady, EndsOnce, Visited;
    SafeRun(config, cert, p, inputs);
    MeaningfulRun(config, cert, p, inputs);
    CheckStepped(Run(Init(config, cert, p), inputs), i);
  }

  /** An own pre-charge request shows the last measured voltage and goes on. */
  predicate PreChargeAnswered(m: Machine, e: Event, n: Machine) {
    AsksPreCharge(e) ==>
      var first := if PreChargeAsked(m.log.events) then [] else [PreChargeStarted];
      if e.request.sid != m.ctx.session.id then Refuses(m, n, first)
      else
        && n.state == PowerDelivery(0.0, false, None) && n.ctx.stopped == m.ctx.stopped
        && Does(m, n, Ok, VoltageBody(LastMeasured(AtPreCharge, m.log.events).voltage), first)
  }

  lemma {:induction false} PreChargeStepped(m: Machine, i: Input)
    requires m.state.PreCharge? && AsksPreCharge(i.event) && Meaningful(m)
    ensures PreChargeAnswered(m, i.event, Step(m, i))
  {
    hide Kept, Conforms, Step, Feed, PreChargeAsked, CheckAsked, LastMeasured, StopWanted, PauseWanted, StartsAnew, Visited;
    MessageStep(m, i);
    FeedOfPreparing(m.state, m.ctx, i.event, i.now);
  }

  lemma {:induction false} PreChargeExact(
      config: SessionConfig, cert: Option<CertHash>, p: Option<PauseContext>, inputs: seq<Input>, i: Input)
    requires Run(Init(config, cert, p), inputs).state.PreCharge? && AsksPreCharge(i.event)
    ensures var m := Run(Init(config, cert, p), inputs);
      PreChargeAnswered(m, i.event, Step(m, i))
  {
    hide Run, Step, Init, PreChargeAnswered, Meaningful;
    MeaningfulRun(config, cert, p, inputs);
    PreChargeStepped(Run(Init(config, cert, p), inputs), i);
  }

  // --------------------------------------------------------------- power delivery

  predicate AsksDelivery(e: Event) {
    e.Message? && e.request.PowerDeliveryReq?
  }

  function StandbyCode(progress: Progress): Code {
    if progress == Standby then WarnStandby else Ok
  }

  /** In AC, before any contactor report, a start waits for the contactor, three seconds from now unless
      another already waits. Everything else is answered at once, and starts the loop of the service. */
  predicate DeliveryAnswered(m: Machine, e: Event, now: nat, n: Machine) {
    AsksDelivery(e) ==>
      var asked, ac := e.request, m.ctx.session.selected.IsAc();
      var begun := if asked.progress == Start then [SetupFinished] else [];
      if ac && asked.progress == Start && !WasReported(m.log.events) then
        && n.state.PowerDelivery? && n.state.parked == Some(Parked(asked.sid, Start))
        && n.ctx.stopped == m.ctx.stopped && n.log.responses == m.log.responses
        && n.log.signals == m.log.signals + [SetupFinished, AcCloseContactor]
        && TimeoutType.Contactor in n.ctx.timers
        && n.ctx.timers[TimeoutType.Contactor] ==
           if TimeoutType.Contactor in m.ctx.timers then m.ctx.timers[TimeoutType.Contactor] else now + 3_000
      else if asked.sid != m.ctx.session.id then Refuses(m, n, begun)
      else
        && (if ac then n.state.AcLoop? else n.state.DcLoop?)
        && n.ctx.stopped == m.ctx.stopped && Does(m, n, StandbyCode(asked.progress), NoBody, begun)
  }

  lemma {:induction false} DeliveryFed(st: State, c: Context, e: Event, now: nat)
    requires st.PowerDelivery? && AsksDelivery(e) && (c.session.selected.IsAc() || c.session.selected.IsDc())
    ensures var out, asked, ac := FeedPowerDelivery(st, c, e, now), e.request, c.session.selected.IsAc();
      var begun := if asked.progress == Start then [SetupFinished] else [];
      && out.ctx.session == c.session
      && if ac && asked.progress == Start && !st.closed then
           && out.state == st.(parked := Some(Parked(asked.sid, Start))) && out.ctx.stopped == c.stopped
           && out.sent == None && out.signals == [SetupFinished, AcCloseContactor]
           && out.ctx.timers == StartTimer(c.timers, TimeoutType.Contactor, now + 3_000)
         else if asked.sid != c.session.id then
           out.sent == Some(Reply(FailedUnknownSession, NoBody)) && out.ctx.stopped && out.state == st && out.signals == begun
         else
           && (if ac then out.state.AcLoop? else out.state.DcLoop?) && out.ctx.stopped == c.stopped
           && out.sent == Some(Reply(StandbyCode(asked.progress), NoBody)) && out.signals == begun
  {
    hide Kept, Conforms, StartTimer;
  }

  lemma {:induction false} DeliveryStepped(m: Machine, i: Input)
    requires m.state.PowerDelivery? && AsksDelivery(i.event) && KnowsReport(m)
    requires m.ctx.session.selected.IsAc() || m.ctx.session.selected.IsDc()
    ensures DeliveryAnswered(m, i.event, i.now, Step(m, i))
  {
    hide Kept, Conforms, Step, Feed, FeedPowerDelivery, WasReported, StandbyCode;
    MessageStep(m, i);
    FeedOfCharging(m.state, m.ctx, i.event, i.now);
    DeliveryFed(m.state, m.ctx, i.event, i.now);
  }

  lemma {:induction false} PowerDeliveryExact(
      config: SessionConfig, cert: Option<CertHash>, p: Option<PauseContext>, inputs: seq<Input>, i: Input)
    requires Run(Init(config, cert, p), inputs).state.PowerDelivery? && AsksDelivery(i.event)
    ensures var m := Run(Init(config, cert, p), inputs);
      DeliveryAnswered(m, i.event, i.now, Step(m, i))
  {
    hide Run, Step, Init, DeliveryAnswered, AuthorizedFirst, DcReady, EndsOnce, IsContactorReport;
    SafeRun(config, cert, p, inputs);
    DeliveryStepped(Run(Init(config, cert, p), inputs), i);
  }

  /** A report meets the start that waits, if any: an own one starts charging, another one is refused. */
  predicate ReportAnswered(m: Machine, e: Event, n: Machine) {
    m.state.PowerDelivery? && IsContactorReport(e) ==>
      if m.state.parked.None? then
        && n.state == m.state.(closed := true) && n.ctx.stopped == m.ctx.stopped
        && n.log.responses == m.log.responses && n.log.signals == m.log.signals
      else if m.state.parked.value.sid != m.ctx.session.id then Refuses(m, n, [])
      else
        && n.state.AcLoop? && n.ctx.stopped == m.ctx.stopped
        && Does(m, n, StandbyCode(m.state.parked.value.progress), NoBody, [])
  }

  /** Its expiry is answered with a contactor error, if an own start waits, and ends the session. */
  predicate ExpiryAnswered(m: Machine, e: Event, n: Machine) {
    m.state.PowerDelivery? && e == Expired(TimeoutType.Contactor) ==>
      var sid := if m.state.parked.Some? then m.state.parked.value.sid else 0;
      && n.state == m.state && n.ctx.stopped && TimeoutType.Contactor !in n.ctx.timers
      && Does(m, n, if sid == m.ctx.session.id then FailedContactor else FailedUnknownSession, NoBody, [])
  }

  lemma {:induction false} ContactorFed(st: State, c: Context, e: Event, now: nat)
    requires st.PowerDelivery? && (IsContactorReport(e) || e == Expired(TimeoutType.Contactor))
    ensures var out, waits := FeedPowerDelivery(st, c, e, now), st.parked.GetOr(Parked(0, Start));
      && out.ctx.session == c.session && out.signals == []
      && if e.Expired? then
           && out.state == st && out.ctx.stopped
           && out.sent == Some(Reply(if waits.sid == c.session.id then FailedContactor else FailedUnknownSession, NoBody))
         else if st.parked.None? then out.state == st.(closed := true) && out.ctx.stopped == c.stopped && out.sent == None
         else if waits.sid != c.session.id then
           out.state.PowerDelivery? && out.ctx.stopped && out.sent == Some(Reply(FailedUnknownSession, NoBody))
         else
           out.state.AcLoop? && out.ctx.stopped == c.stopped && out.sent == Some(Reply(StandbyCode(waits.progress), NoBody))
  {
    hide Kept, Conforms, StopTimer;
  }

  lemma {:induction false} ContactorExact(m: Machine, i: Input)
    requires m.state.PowerDelivery? && (IsContactorReport(i.event) || i.event == Expired(TimeoutType.Contactor))
    ensures ReportAnswered(m, i.event, Step(m, i)) && ExpiryAnswered(m, i.event, Step(m, i))
  {
    hide Kept, Conforms, Feed, FeedPowerDelivery, Absorb, StandbyCode, StopTimer;
    ReceiveKeeps(m, i.event);
    var c := Receive(m, i.event).ctx;
    FeedOfCharging(m.state, c, i.event, i.now);
    ContactorFed(m.state, c, i.event, i.now);
  }

  /** A pre-charge request that comes late shows the voltage and changes nothing. */
  predicate LatePreChargeAnswered(m: Machine, e: Event, n: Machine) {
    AsksPreCharge(e) ==>
      if e.request.sid != m.ctx.session.id then Refuses(m, n, [])
      else
        && n.state == m.state && n.ctx == m.ctx
        && Does(m, n, Ok, VoltageBody(LastMeasured(AtPowerDelivery, m.log.events).voltage), [])
  }

  lemma {:induction false} LatePreChargeStepped(m: Machine, i: Input)
    requires m.state.PowerDelivery? && AsksPreCharge(i.event) && Meaningful(m)
    ensures LatePreChargeAnswered(m, i.event, Step(m, i))
  {
    hide Kept, Conforms, Step, Feed, FeedStart, FeedContactor, PreChargeAsked, CheckAsked, LastMeasured, StopWanted, PauseWanted,
      StartsAnew, Visited;
    MessageStep(m, i);
    FeedOfCharging(m.state, m.ctx, i.event, i.now);
  }

  lemma {:induction false} LatePreChargeExact(
      config: SessionConfig, cert: Option<CertHash>, p: Option<PauseContext>, inputs: seq<Input>, i: Input)
    requires Run(Init(config, cert, p), inputs).state.PowerDelivery? && AsksPreCharge(i.event)
    ensures var m := Run(Init(config, cert, p), inputs);
      LatePreChargeAnswered(m, i.event, Step(m, i))
  {
    hide Run, Step, Init, LatePreChargeAnswered, Meaningful;
    MeaningfulRun(config, cert, p, inputs);
    LatePreChargeStepped(Run(Init(config, cert, p), inputs), i);
  }

  // ------------------------------------------------------------------- charge loops

  /** An own request to stop charging leaves the loop; any other own power-delivery request changes nothing. */
  predicate LoopDeliveryAnswered(m: Machine, e: Event, n: Machine) {
    AsksDelivery(e) ==>
      var asked, ends := e.request, if m.state.AcLoop? then AcOpenContactor else DcOpenContactor;
      if asked.sid != m.ctx.session.id then Refuses(m, n, [])
      else if asked.progress == StopCharge then
        && n.state == (if m.state.AcLoop? then SessionStop else Welding(0.0)) && n.ctx == m.ctx
        && Does(m, n, Ok, NoBody, [ChargeLoopFinished, ends])
      else Id(n.state) == Id(m.state) && n.ctx == m.ctx && Does(m, n, StandbyCode(asked.progress), NoBody, [])
  }

  lemma {:induction false} LoopDeliveryExact(m: Machine, i: Input)
    requires (m.state.AcLoop? || m.state.DcLoop?) && AsksDelivery(i.event)
    ensures LoopDeliveryAnswered(m, i.event, Step(m, i))
  {
    hide Kept, Conforms, Step, Feed, AnswerAcLoop, AnswerDcLoop;
    MessageStep(m, i);
    FeedOfCharging(m.state, m.ctx, i.event, i.now);
  }

  /** A DC loop request signals the start of charging exactly if it is the first one since the loop was
      entered or an own power-delivery request came; an AC loop request never does. */
  predicate LoopSignalled(m: Machine, e: Event, n: Machine) {
    && (m.state.DcLoop? && AsksDcLoop(e) ==>
          n.log.signals == m.log.signals + if StartsAnew(m.ctx.session.id, m.log.events) then [ChargeLoopStarted] else [])
    && (m.state.AcLoop? && AsksAcLoop(e) ==> n.log.signals == m.log.signals)
  }

  lemma {:induction false} LoopSignalsStep(m: Machine, i: Input)
    requires (m.state.DcLoop? && AsksDcLoop(i.event)) || (m.state.AcLoop? && AsksAcLoop(i.event))
    requires Meaningful(m) && OnBranch(m)
    ensures LoopSignalled(m, i.event, Step(m, i))
  {
    hide Kept, Conforms, Step, Feed, StopDcLoop, DcLoopReply, StopAcLoop, AcLoopReply, StartsAnew, Visited,
      PreChargeAsked, CheckAsked, LastMeasured, StopWanted, PauseWanted;
    MessageStep(m, i);
    FeedOfCharging(m.state, m.ctx, i.event, i.now);
  }

  lemma {:induction false} LoopSignalsExact(
      config: SessionConfig, cert: Option<CertHash>, p: Option<PauseContext>, inputs: seq<Input>, i: Input)
    ensures var m := Run(Init(config, cert, p), inputs);
      LoopSignalled(m, i.event, Step(m, i))
  {
    hide Run, Step, Init, Meaningful, AuthorizedFirst, OnBranch, Ready, EndsOnce, StartsAnew;
    var m := Run(Init(config, cert, p), inputs);
    SafeRun(config, cert, p, inputs);
    MeaningfulRun(config, cert, p, inputs);
    if (m.state.DcLoop? && AsksDcLoop(i.event)) || (m.state.AcLoop? && AsksAcLoop(i.event)) {
      LoopSignalsStep(m, i);
    }
  }

  // ------------------------------------------------------------------ after charging

  predicate AsksWelding(e: Event) {
    e.Message? && e.request.WeldingReq?
  }

  /** An own welding request shows the last measured voltage, and is the last one unless it says ongoing. */
  predicate WeldingAnswered(m: Machine, e: Event, n: Machine) {
    AsksWelding(e) ==>
      if e.request.sid != m.ctx.session.id then Refuses(m, n, [])
      else
        && n.state == (if e.request.processing == Ongoing then m.state else SessionStop) && n.ctx == m.ctx
        && Does(m, n, Ok, VoltageBody(LastMeasured(AtWelding, m.log.events).voltage), [])
  }

  lemma {:induction false} WeldingStepped(m: Machine, i: Input)
    requires m.state.Welding? && AsksWelding(i.event) && Meaningful(m)
    ensures WeldingAnswered(m, i.event, Step(m, i))
  {
    hide Kept, Conforms, Step, Feed, EndSession, PreChargeAsked, CheckAsked, LastMeasured, StopWanted, PauseWanted,
      StartsAnew, Visited;
    MessageStep(m, i);
    FeedOfCharging(m.state, m.ctx, i.event, i.now);
  }

  lemma {:induction false} WeldingExact(
      config: SessionConfig, cert: Option<CertHash>, p: Option<PauseContext>, inputs: seq<Input>, i: Input)
    requires Run(Init(config, cert, p), inputs).state.Welding? && AsksWelding(i.event)
    ensures var m := Run(Init(config, cert, p), inputs);
      WeldingAnswered(m, i.event, Step(m, i))
  {
    hide Run, Step, Init, WeldingAnswered, Meaningful;
    MeaningfulRun(config, cert, p, inputs);
    WeldingStepped(Run(Init(config, cert, p), inputs), i);
  }

  predicate AsksEnd(e: Event) {
    e.Message? && e.request.SessionStopReq?
  }

  /** The end of a session: a pause keeps the services for the pause context there is, a termination erases
      it; both happen whatever the answer, and renegotiation, which no session supports, does nothing. */
  predicate EndAnswered(m: Machine, e: Event, n: Machine) {
    AsksEnd(e) ==>
      var s, p, ending := m.ctx.session, m.ctx.pauseCtx, e.request.ending;
      var code := if e.request.sid != s.id then FailedUnknownSession
                  else if ending == ServiceRenegotiation then FailedNoRenegotiation else Ok;
      && n.state == m.state && n.ctx.session == s && Does(m, n, code, NoBody, [])
      && n.ctx.stopped == (m.ctx.stopped || ending == Terminate)
      && n.ctx.paused == (m.ctx.paused || ending == Pause)
      && match ending
         case Pause =>
           && n.log.news == m.log.news + [Paused(m.ctx.cert, s.id, s.selected)]
           && n.ctx.pauseCtx == if p.Some? then Some(p.value.(selected := s.selected)) else None
         case Terminate => n.log.news == m.log.news + [Terminated(s.id)] && n.ctx.pauseCtx == None
         case ServiceRenegotiation => n.log.news == m.log.news && n.ctx.pauseCtx == p
  }

  lemma {:induction false} EndFed(st: State, c: Context, e: Event)
    requires Ended(st) && AsksEnd(e) && !c.session.renegotiation
    ensures var out, p, ending := EndSession(st, c, e), c.pauseCtx, e.request.ending;
      var code := if e.request.sid != c.session.id then FailedUnknownSession
                  else if ending == ServiceRenegotiation then FailedNoRenegotiation else Ok;
      && out.state == st && out.signals == [] && out.sent == Some(Reply(code, NoBody))
      && out.news == (match ending
                      case Pause => [Paused(c.cert, c.session.id, c.session.selected)]
                      case Terminate => [Terminated(c.session.id)]
                      case ServiceRenegotiation => [])
      && out.ctx == c.(
           stopped := c.stopped || ending == Terminate, paused := c.paused || ending == Pause,
           pauseCtx := match ending
                       case Pause => if p.Some? then Some(p.value.(selected := c.session.selected)) else None
                       case Terminate => None
                       case ServiceRenegotiation => p)
  {
    hide Kept, Conforms;
  }

  lemma {:induction false} EndStepped(m: Machine, i: Input)
    requires Ended(m.state) && AsksEnd(i.event) && !m.ctx.session.renegotiation
    ensures EndAnswered(m, i.event, Step(m, i))
  {
    hide Kept, Conforms, Step, Feed, AnswerWelding, EndSession;
    MessageStep(m, i);
    FeedOfCharging(m.state, m.ctx, i.event, i.now);
    EndFed(m.state, m.ctx, i.event);
  }

  /** On every run, after charging a stop request has exactly this effect. */
  lemma {:induction false} EndExact(
      config: SessionConfig, cert: Option<CertHash>, p: Option<PauseContext>, inputs: seq<Input>, i: Input)
    requires Ended(Run(Init(config, cert, p), inputs).state) && AsksEnd(i.event)
    ensures var m := Run(Init(config, cert, p), inputs);
      EndAnswered(m, i.event, Step(m, i))
  {
    hide Run, Step, EndAnswered;
    NeverRenegotiates(config, cert, p, inputs);
    EndStepped(Run(Init(config, cert, p), inputs), i);
  }
}
