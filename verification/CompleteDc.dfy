/** A complete DC session, request by request: from the first message through cable check, pre-charge,
    the charge loop and welding detection to the pause. */
module CompleteDc {
  import opened Common
  import opened Types
  import opened Negotiation
  import opened Machine
  import opened Frame
  import opened AcContactor
  import opened Answers
  import opened Values
  import opened Resume
  import opened Outcomes
  import opened Charging
  import opened CompleteSession

  /** A charger that offers one DC parameter set with scheduled control. */
  predicate OffersDc(config: SessionConfig, dc: PlainBase) {
    && config.auth == [] && config.energy == [DC] && config.lists == map[DC := [DcSet(dc)]]
    && dc.mode == Scheduled
  }

  function Tell(c: ControlEvent): Input {
    Input(Control(c), 0)
  }

  /** What a vehicle without a certificate sends, and the charger hears from its power electronics. */
  function DcRun(id: SessionId): seq<Input> {
    CompleteRun(id)[..5] + [
      Ask(ServiceDiscoveryReq(id, None)),
      Ask(ServiceDetailReq(id, DC)),
      SelectFirst(id, DC),
      Ask(DcParametersReq(id, DcMode)),
      Ask(ScheduleExchangeReq(id, Scheduled)),
      Ask(CableCheckReq(id)),
      Tell(CableCheckFinished(true)),
      Ask(CableCheckReq(id)),
      Ask(PreChargeReq(id)),
      Ask(PowerDeliveryReq(id, Start)),
      Tell(PresentVoltageCurrent(400.0, 32.0)),
      Ask(DcLoopReq(id, ScheduledDc)),
      Ask(PowerDeliveryReq(id, StopCharge)),
      Ask(WeldingReq(id, Finished)),
      Ask(SessionStopReq(id, Pause)) ]
  }

  /** An own request or an event of the preparation, and the state it leads to. */
  predicate Leads(m: Machine, i: Input, s: State) {
    hide *;
    Step(m, i).state == s
  }

  lemma ParametersLead(m: Machine)
    requires m.state.DcParameters? && m.ctx.session.selected.Energy() == DC
    ensures Leads(m, Ask(DcParametersReq(m.ctx.session.id, DcMode)), ScheduleExchange(NO_DYNAMIC, true, false))
  {
    hide Kept, Conforms, Step, Feed;
    var i := Ask(DcParametersReq(m.ctx.session.id, DcMode));
    MessageStep(m, i);
    FeedOfPreparing(m.state, m.ctx, i.event, i.now);
  }

  lemma ScheduleLeads(m: Machine)
    requires m.state == ScheduleExchange(NO_DYNAMIC, true, false)
    requires m.ctx.session.selected.Energy() == DC && m.ctx.session.selected.Mode() == Some(Scheduled)
    ensures Leads(m, Ask(ScheduleExchangeReq(m.ctx.session.id, Scheduled)), CableCheck(false, false))
  {
    hide Step, Outcome, SameCaches, Absorb;
    var i := Ask(ScheduleExchangeReq(m.ctx.session.id, Scheduled));
    ScheduleStep(m, i);
    StepFields(m, i);
    StepShows(m, i);
  }

  lemma CheckLeads(m: Machine, asked: bool, done: bool)
    requires m.state == CableCheck(asked, done)
    ensures Leads(m, Ask(CableCheckReq(m.ctx.session.id)), if done then PreCharge(false, 0.0) else CableCheck(true, false))
    ensures Leads(m, Tell(CableCheckFinished(true)), CableCheck(asked, true))
  {
    hide Kept, Conforms, Feed, Absorb, Recorded;
    var i, j := Ask(CableCheckReq(m.ctx.session.id)), Tell(CableCheckFinished(true));
    ReceiveKeeps(m, i.event);
    ReceiveKeeps(m, j.event);
    FeedOfPreparing(m.state, Receive(m, i.event).ctx, i.event, i.now);
    FeedOfPreparing(m.state, Receive(m, j.event).ctx, j.event, j.now);
  }

  lemma PreChargeLeads(m: Machine)
    requires m.state.PreCharge?
    ensures Leads(m, Ask(PreChargeReq(m.ctx.session.id)), PowerDelivery(0.0, false, None))
  {
    hide Kept, Conforms, Step, Feed;
    var i := Ask(PreChargeReq(m.ctx.session.id));
    MessageStep(m, i);
    FeedOfPreparing(m.state, m.ctx, i.event, i.now);
  }

  predicate Enters(m: Machine, i: Input, at: StateId) {
    hide *;
    Id(Step(m, i).state) == at
  }

  lemma StartLeads(m: Machine)
    requires m.state == PowerDelivery(0.0, false, None) && m.ctx.session.selected.Energy() == DC
    ensures Enters(m, Ask(PowerDeliveryReq(m.ctx.session.id, Start)), AtDcLoop)
  {
    hide Kept, Conforms, Step, Feed, FeedPowerDelivery, FeedAcLoop, FeedDcLoop, FeedWelding, FeedSessionStop, Recorded,
      StartTimer, StandbyCode;
    var i := Ask(PowerDeliveryReq(m.ctx.session.id, Start));
    MessageStep(m, i);
    FeedOfCharging(m.state, m.ctx, i.event, i.now);
    DeliveryFed(m.state, m.ctx, i.event, i.now);
  }

  /** The loop is still there, and knows what was measured. */
  predicate Measures(m: Machine) {
    m.state.DcLoop? && m.state.dcVoltage == 400.0 && m.state.dcCurrent == 32.0
  }

  lemma MeasurementKept(m: Machine)
    requires m.state.DcLoop?
    ensures Measures(Step(m, Tell(PresentVoltageCurrent(400.0, 32.0))))
  {
    hide Step;
    var i := Tell(PresentVoltageCurrent(400.0, 32.0));
    EventsAreSilent(m, i);
    StepFields(m, i);
  }

  /** The answer to the loop request shows it. */
  predicate LoopShown(m: Machine, n: Machine) {
    && n.state.DcLoop? && Added(m, n).Some? && Added(m, n).value.code == Ok
    && Added(m, n).value.body.DcLoopBody?
    && Added(m, n).value.body.loopVoltage == 400.0 && Added(m, n).value.body.loopCurrent == 32.0
  }

  lemma LoopAnswers(m: Machine)
    requires Measures(m) && m.ctx.session.selected.Energy() == DC && m.ctx.session.selected.Mode() == Some(Scheduled)
    ensures LoopShown(m, Step(m, Ask(DcLoopReq(m.ctx.session.id, ScheduledDc))))
  {
    hide Step, DcLoopReply, Notifies, Provided;
    DcLoopStep(m, Ask(DcLoopReq(m.ctx.session.id, ScheduledDc)));
    DcLoopAnswer(m.ctx, m.state, m.ctx.session.id, ScheduledDc);
  }

  lemma LoopEnds(m: Machine)
    requires m.state.DcLoop?
    ensures Leads(m, Ask(PowerDeliveryReq(m.ctx.session.id, StopCharge)), Welding(0.0))
  {
    hide Step;
    LoopDeliveryExact(m, Ask(PowerDeliveryReq(m.ctx.session.id, StopCharge)));
  }

  predicate EndsWith(m: Machine, n: Machine) {
    n.state == SessionStop && n.ctx == m.ctx
  }

  lemma WeldingEnds(m: Machine)
    requires m.state.Welding?
    ensures EndsWith(m, Step(m, Ask(WeldingReq(m.ctx.session.id, Finished))))
  {
    hide Kept, Conforms, Step, Feed, EndSession;
    var i := Ask(WeldingReq(m.ctx.session.id, Finished));
    MessageStep(m, i);
    FeedOfCharging(m.state, m.ctx, i.event, i.now);
  }

  const CHOSEN: nat := 8
  const LOOPING: nat := 16
  const ANSWERED: nat := 17

  lemma FirstDcSet(dc: PlainBase)
    ensures var s := SelectedFrom(DC, DcSet(dc));
      s.Energy() == DC && s.Mode() == Some(dc.mode) && s.IsDc() && !s.IsAc()
  {
  }

  lemma DcRunIs(id: SessionId)
    ensures var r := DcRun(id);
      && |r| == 20 && Prefix(r, AUTHORIZED) == Prefix(CompleteRun(id), AUTHORIZED)
      && r[5] == Ask(ServiceDiscoveryReq(id, None)) && r[6] == Ask(ServiceDetailReq(id, DC)) && r[7] == SelectFirst(id, DC)
      && r[8] == Ask(DcParametersReq(id, DcMode)) && r[9] == Ask(ScheduleExchangeReq(id, Scheduled))
      && r[10] == r[12] == Ask(CableCheckReq(id)) && r[11] == Tell(CableCheckFinished(true))
      && r[13] == Ask(PreChargeReq(id)) && r[14] == Ask(PowerDeliveryReq(id, Start))
      && r[15] == Tell(PresentVoltageCurrent(400.0, 32.0)) && r[16] == Ask(DcLoopReq(id, ScheduledDc))
      && r[17] == Ask(PowerDeliveryReq(id, StopCharge)) && r[18] == Ask(WeldingReq(id, Finished))
      && r[19] == Ask(SessionStopReq(id, Pause))
  {
    hide HELLO;
  }

  /** The session, its services and the pause context at this point of the run. */
  predicate Holding(m: Machine, id: SessionId, p: Option<PauseContext>, dc: PlainBase) {
    m.ctx.session.id == id && m.ctx.pauseCtx == p && m.ctx.session.selected == SelectedFrom(DC, DcSet(dc))
  }

  lemma {:induction false} ToServices(config: SessionConfig, dc: PlainBase, id: SessionId, p: Option<PauseContext>)
    requires OffersDc(config, dc)
    ensures var m := RunTo(Init(config, None, p), DcRun(id), CHOSEN);
      m.state.DcParameters? && Holding(m, id, p, dc)
  {
    hide Step, SelectedFrom, Init, CompleteRun, DcRun, HELLO;
    var m0, r := Init(config, None, p), DcRun(id);
    DcRunIs(id);
    Unrolled(m0, r);
    CompleteToAuthorization(config, id, p);
    hide Run;
    DiscoveryStep(Run(m0, r[..5]), DC);
    DetailStep(Run(m0, r[..6]), DcSet(dc));
    SelectionDone(Run(m0, r[..7]), DcSet(dc));
  }

  const CHECKING: nat := 10
  const PASSED: nat := 12
  const DELIVERING: nat := 14
  const WELDING: nat := 18
  const ENDING: nat := 19

  lemma {:induction false} ToCheck(config: SessionConfig, dc: PlainBase, id: SessionId, p: Option<PauseContext>)
    requires OffersDc(config, dc)
    ensures var m := RunTo(Init(config, None, p), DcRun(id), CHECKING);
      m.state == CableCheck(false, false) && Holding(m, id, p, dc)
  {
    hide Step, SelectedFrom, Init, Run, DcRun;
    var m0, r := Init(config, None, p), DcRun(id);
    DcRunIs(id);
    Unrolled(m0, r);
    FirstDcSet(dc);
    ToServices(config, dc, id, p);
    ParametersLead(Run(m0, r[..8]));
    ScheduleLeads(Run(m0, r[..9]));
  }

  lemma {:induction false} ToPassed(config: SessionConfig, dc: PlainBase, id: SessionId, p: Option<PauseContext>)
    requires OffersDc(config, dc)
    ensures var m := RunTo(Init(config, None, p), DcRun(id), PASSED);
      m.state == CableCheck(true, true) && Holding(m, id, p, dc)
  {
    hide Step, SelectedFrom, Init, Run, DcRun;
    var m0, r := Init(config, None, p), DcRun(id);
    DcRunIs(id);
    Unrolled(m0, r);
    ToCheck(config, dc, id, p);
    CheckLeads(Run(m0, r[..10]), false, false);
    CheckLeads(Run(m0, r[..11]), true, false);
  }

  lemma {:induction false} ToDelivery(config: SessionConfig, dc: PlainBase, id: SessionId, p: Option<PauseContext>)
    requires OffersDc(config, dc)
    ensures var m := RunTo(Init(config, None, p), DcRun(id), DELIVERING);
      m.state == PowerDelivery(0.0, false, None) && Holding(m, id, p, dc)
  {
    hide Step, SelectedFrom, Init, Run, DcRun;
    var m0, r := Init(config, None, p), DcRun(id);
    DcRunIs(id);
    Unrolled(m0, r);
    ToPassed(config, dc, id, p);
    CheckLeads(Run(m0, r[..12]), true, true);
    PreChargeLeads(Run(m0, r[..13]));
  }

  lemma {:induction false} ToLoop(config: SessionConfig, dc: PlainBase, id: SessionId, p: Option<PauseContext>)
    requires OffersDc(config, dc)
    ensures var m := RunTo(Init(config, None, p), DcRun(id), LOOPING);
      Measures(m) && Holding(m, id, p, dc)
  {
    hide Step, SelectedFrom, Init, Run, DcRun;
    var m0, r := Init(config, None, p), DcRun(id);
    DcRunIs(id);
    Unrolled(m0, r);
    FirstDcSet(dc);
    ToDelivery(config, dc, id, p);
    StartLeads(Run(m0, r[..14]));
    MeasurementKept(Run(m0, r[..15]));
  }

  /** The vehicle is shown what was measured. */
  lemma {:induction false} DcSessionCharges(config: SessionConfig, dc: PlainBase, id: SessionId, p: Option<PauseContext>)
    requires OffersDc(config, dc)
    ensures var n := RunTo(Init(config, None, p), DcRun(id), ANSWERED);
      LoopShown(RunTo(Init(config, None, p), DcRun(id), LOOPING), n) && Holding(n, id, p, dc)
  {
    hide Step, SelectedFrom, Init, Run, DcRun;
    var m0, r := Init(config, None, p), DcRun(id);
    DcRunIs(id);
    Unrolled(m0, r);
    FirstDcSet(dc);
    ToLoop(config, dc, id, p);
    LoopAnswers(Run(m0, r[..16]));
  }

  lemma {:induction false} ToWelding(config: SessionConfig, dc: PlainBase, id: SessionId, p: Option<PauseContext>)
    requires OffersDc(config, dc)
    ensures var m := RunTo(Init(config, None, p), DcRun(id), WELDING);
      m.state.Welding? && Holding(m, id, p, dc)
  {
    hide Step, SelectedFrom, Init, Run, DcRun;
    var m0, r := Init(config, None, p), DcRun(id);
    DcRunIs(id);
    Unrolled(m0, r);
    DcSessionCharges(config, dc, id, p);
    LoopEnds(Run(m0, r[..17]));
  }

  lemma {:induction false} ToEnd(config: SessionConfig, dc: PlainBase, id: SessionId, p: Option<PauseContext>)
    requires OffersDc(config, dc)
    ensures var m := RunTo(Init(config, None, p), DcRun(id), ENDING);
      m.state.SessionStop? && Holding(m, id, p, dc)
  {
    hide Step, SelectedFrom, Init, Run, DcRun;
    var m0, r := Init(config, None, p), DcRun(id);
    DcRunIs(id);
    Unrolled(m0, r);
    ToWelding(config, dc, id, p);
    WeldingEnds(Run(m0, r[..18]));
  }

  predicate PausedWith(m: Machine, id: SessionId, p: Option<PauseContext>, dc: PlainBase) {
    && m.state.SessionStop? && m.ctx.paused && m.ctx.session.id == id
    && (p.Some? ==> m.ctx.pauseCtx == Some(p.value.(selected := SelectedFrom(DC, DcSet(dc)))))
  }

  /** The whole session, for every charger that offers one scheduled DC set. */
  lemma {:induction false} DcSessionPauses(config: SessionConfig, dc: PlainBase, id: SessionId, p: Option<PauseContext>)
    requires OffersDc(config, dc)
    ensures PausedWith(Run(Init(config, None, p), DcRun(id)), id, p, dc)
  {
    hide Step, SelectedFrom, Init, Run, DcRun;
    var m0, r := Init(config, None, p), DcRun(id);
    DcRunIs(id);
    Unrolled(m0, r);
    ToEnd(config, dc, id, p);
    PauseOverwrites(Run(m0, r[..19]), r[19]);
  }
}
