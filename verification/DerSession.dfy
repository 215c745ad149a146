/** AC DER over runs: a DER session can always serve the mandatory functions, and a DER
    parameter answer binds the charge loop. */
module DerSession {
  import opened Common
  import opened Types
  import opened AcDerControl
  import opened Negotiation
  import opened Machine
  import opened Frame

  // ----------------------------------------------------------- complete functions

  /** A DER selection carries all twelve mandatory functions. */
  predicate CarriesAll(s: Selected) {
    s.Energy() == AC_DER ==> s.Functions().Some? && HasRequired(s.Functions().value)
  }

  predicate AllCarry(c: Context) {
    CarriesAll(c.session.selected) && (c.pauseCtx.Some? ==> CarriesAll(c.pauseCtx.value.selected))
  }

  lemma {:induction false} SelectionCarriesAll(s: Session, energy: Service, setId: uint16, vas: Option<seq<VasChoice>>)
    requires CarriesAll(s.selected)
    ensures CarriesAll(SelectServices(s, energy, setId, vas).0.selected)
  {
    hide HasRequired;
    NarrowingAgrees(setId);
  }

  lemma {:induction false} SelectingCarriesAll(st: State, c: Context, e: Event)
    requires st.ServiceSelection? && AllCarry(c)
    ensures AllCarry(FeedServiceSelection(st, c, e).ctx)
  {
    hide Kept, Conforms, SelectServices, CarriesAll, Detail;
    if e.Message? && e.request.ServiceSelectionReq? {
      SelectionCarriesAll(c.session, e.request.energy, e.request.setId, e.request.vas);
    }
  }

  lemma {:induction false} OthersCarryAll(st: State, c: Context, e: Event, now: nat)
    requires AllCarry(c) && !st.SessionSetup? && !st.ServiceSelection? && !st.Welding? && !st.SessionStop?
    ensures AllCarry(Feed(st, c, e, now).ctx)
  {
    hide Conforms, CarriesAll, Feed;
    assert Kept(st, c, Feed(st, c, e, now));
  }

  lemma {:induction false} FeedCarriesAll(st: State, c: Context, e: Event, now: nat)
    requires AllCarry(c)
    ensures AllCarry(Feed(st, c, e, now).ctx)
  {
    hide AllCarry, Feed, FeedSupportedAppProtocol, FeedSessionSetup, FeedAuthorizationSetup, FeedAuthorization,
      FeedServiceDiscovery, FeedServiceDetail, FeedServiceSelection, FeedPowerDelivery, FeedAcLoop, FeedDcLoop,
      FeedWelding, FeedSessionStop, Kept, Conforms;
    if st.ServiceSelection? {
      FeedOfService(st, c, e, now);
      SelectingCarriesAll(st, c, e);
    } else if st.SessionSetup? {
      FeedOfSetup(st, c, e, now);
      SetupCarriesAll(st, c, e);
    } else if st.Welding? || st.SessionStop? {
      FeedOfCharging(st, c, e, now);
      EndCarriesAll(st, c, e);
    } else {
      OthersCarryAll(st, c, e, now);
    }
  }

  lemma {:induction false} EndCarriesAll(st: State, c: Context, e: Event)
    requires (st.Welding? || st.SessionStop?) && AllCarry(c)
    ensures AllCarry((if st.Welding? then FeedWelding(st, c, e) else FeedSessionStop(st, c, e)).ctx)
  {
    hide Kept, Conforms, VoltageReply, StopCode;
  }

  lemma {:induction false} SetupCarriesAll(st: State, c: Context, e: Event)
    requires st.SessionSetup? && AllCarry(c)
    ensures AllCarry(FeedSessionSetup(st, c, e).ctx)
  {
    hide Kept, Conforms;
  }

  lemma {:induction false} StepCarriesAll(m: Machine, i: Input)
    requires AllCarry(m.ctx)
    ensures AllCarry(Step(m, i).ctx)
  {
    hide Feed, Absorb, CarriesAll;
    ReceiveKeeps(m, i.event);
    FeedCarriesAll(m.state, Receive(m, i.event).ctx, i.event, i.now);
  }

  lemma {:induction false} RunCarriesAll(m: Machine, inputs: seq<Input>)
    requires AllCarry(m.ctx)
    ensures AllCarry(Run(m, inputs).ctx)
  {
    hide Step, AllCarry;
    if inputs != [] {
      RunCarriesAll(m, inputs[..|inputs| - 1]);
      StepCarriesAll(Run(m, inputs[..|inputs| - 1]), inputs[|inputs| - 1]);
    }
  }

  // ------------------------------------------------- the answer binds the charge loop

  /** Which sessions get DER control: AC_DER with all functions, from a valid static configuration, or from
      enabled, fresh and valid snapshots in a dynamic session whose mobility needs the EVCC provides. */
  predicate IsGranted(s: Selected, p: DerProvider) {
    && s.Energy() == AC_DER && s.Functions().Some? && AllTwelve(s.Functions().value)
    && match p
       case StaticProvider(config) => InOrder(config)
       case SeccProvider(snapshots) =>
         s.Mode() == Some(Dynamic) && s.Mobility() == Some(ProvidedByEvcc) && Grantable(snapshots)
  }

  /** Where the values of the parameter answer come from. */
  predicate ControlsOf(c: DerControl, p: DerProvider) {
    match p
    case StaticProvider(config) => c == config.cpd
    case SeccProvider(snapshots) => ControlFrom(c, snapshots.grid)
  }

  function QOf(p: DerProvider): DsoQSetpoint {
    match p
    case StaticProvider(config) => config.q
    case SeccProvider(snapshots) => snapshots.dso.q
  }

  function CosPhiOf(p: DerProvider): DsoCosPhiSetpoint {
    match p
    case StaticProvider(config) => config.cosPhi
    case SeccProvider(snapshots) => snapshots.dso.cosPhi
  }

  lemma {:induction false} GateExact(s: Selected, p: DerProvider)
    ensures var gate := DerGate(s, p);
      && (gate.Some? <==> IsGranted(s, p))
      && (gate.Some? ==>
            && ControlsOf(gate.value.cpd, p) && gate.value.q == QOf(p) && gate.value.cosPhi == CosPhiOf(p)
            && InOrder(gate.value))
  {
    hide SeccResult, ValidConfig, HasRequired, AllTwelve, InOrder, ControlFrom, Grantable;
    if s.Functions().Some? {
      AllTwelveRequired(s.Functions().value);
      if p.StaticProvider? && AllTwelve(s.Functions().value) {
        ValidConfigExact(p.config, s.Functions().value);
      }
    }
    if p.SeccProvider? {
      SeccProviderExact(p.snapshots, DerContext(s.Energy(), s.Mode(), s.Mobility(), s.Functions()));
    }
  }

  /** The gates let the session through, with this configuration. */
  predicate Granted(c: Context, config: DerConfig) {
    DerGate(c.session.selected, c.config.provider) == Some(config)
  }

  predicate AsksDer(e: Event) {
    e.Message? && e.request.AcParametersReq? && e.request.acMode == DerAcMode
  }

  /** The last response. */
  function Answered(m: Machine): Option<Response> {
    if m.log.responses == [] then None else Some(m.log.responses[|m.log.responses| - 1])
  }

  /** A DER parameter request is answered OK exactly when it is the session's own and the gates let it
      through, and then with their control values. */
  predicate DerAnswered(m: Machine, e: Event, n: Machine) {
    AsksDer(e) ==>
      var p, r := m.ctx.config.provider, Answered(n);
      && |n.log.responses| == |m.log.responses| + 1 && r.Some?
      && (n.state.ScheduleExchange? <==> e.request.sid == m.ctx.session.id && IsGranted(m.ctx.session.selected, p))
      && (if n.state.ScheduleExchange? then
            && r.value.code == Ok && r.value.body.AcParametersBody?
            && r.value.body.der.Some? && ControlsOf(r.value.body.der.value, p)
          else r.value.code.IsFailed() && r.value.body == NoBody)
  }

  lemma {:induction false} DerFed(st: State, c: Context, e: Event)
    requires st.AcParameters? && AsksDer(e)
    ensures var out, gate := FeedAcParameters(st, c, e), DerGate(c.session.selected, c.config.provider);
      && out.sent.Some?
      && (out.state.ScheduleExchange? <==> e.request.sid == c.session.id && gate.Some?)
      && (if out.state.ScheduleExchange? then
            && out.sent.value.code == Ok && out.sent.value.body.AcParametersBody?
            && out.sent.value.body.der == Some(gate.value.cpd)
          else out.sent.value.code.IsFailed() && out.sent.value.body == NoBody)
  {
    hide Kept, Conforms, DerGate;
  }

  lemma {:induction false} DerAnswerExact(m: Machine, i: Input)
    requires m.state.AcParameters? && AsksDer(i.event)
    ensures DerAnswered(m, i.event, Step(m, i))
  {
    hide Kept, Conforms, Step, Feed, FeedAcParameters, DerGate, IsGranted, ControlsOf, InOrder;
    GateExact(m.ctx.session.selected, m.ctx.config.provider);
    MessageStep(m, i);
    FeedOfPreparing(m.state, m.ctx, i.event, i.now);
    DerFed(m.state, m.ctx, i.event);
  }

  /** What the gates let through for the SECC provider: its snapshots, for a dynamic session. */
  lemma {:induction false} SeccGranted(c: Context, config: DerConfig)
    requires c.config.provider.SeccProvider? && Granted(c, config)
    ensures config.q == c.config.provider.snapshots.dso.q
    ensures config.cosPhi == c.config.provider.snapshots.dso.cosPhi
    ensures c.session.selected.Mode() == Some(Dynamic) && c.session.selected.Energy() == AC_DER
    ensures CarriesAll(c.session.selected)
  {
    hide DerGate, HasRequired, AllTwelve, Grantable, InOrder, ControlsOf;
    var s := c.session.selected;
    GateExact(s, c.config.provider);
    if s.Functions().Some? {
      AllTwelveRequired(s.Functions().value);
    }
  }

  /** A request of this charge loop under its own id, in dynamic DER mode. */
  predicate AsksDynamicDer(id: SessionId, e: Event) {
    e.Message? && e.request == AcLoopReq(id, DynamicDerAc)
  }

  /** The answer is OK and carries these setpoints. */
  predicate Served(m: Machine, q: DsoQSetpoint, cosPhi: DsoCosPhiSetpoint) {
    && m.state.AcLoop? && Answered(m).Some?
    && var r := Answered(m).value;
       r.code == Ok && r.body.AcLoopBody? && r.body.q == Some(q) && r.body.cosPhi == Some(cosPhi)
  }

  lemma {:induction false} DynamicDerServed(m: Machine, i: Input, config: DerConfig)
    requires m.state.AcLoop? && Granted(m.ctx, config)
    requires m.ctx.session.selected.Mode() == Some(Dynamic) && CarriesAll(m.ctx.session.selected)
    requires AsksDynamicDer(m.ctx.session.id, i.event)
    ensures var n := Step(m, i);
      Served(n, config.q, config.cosPhi) && n.ctx.stopped == m.ctx.stopped
  {
    hide Kept, Conforms, Step, Feed, DerGate;
    GateIsDer(m.ctx);
    MessageStep(m, i);
    FeedOfCharging(m.state, m.ctx, i.event, i.now);
  }

  lemma GateIsDer(c: Context)
    ensures DerGate(c.session.selected, c.config.provider).Some? ==> c.session.selected.Energy() == AC_DER
  {
    hide Provide, ValidConfig, HasRequired;
  }

  /** The setpoints of the snapshots of the SECC provider are served. */
  predicate ServedFrom(p: DerProvider, n: Machine) {
    p.SeccProvider? && Served(n, p.snapshots.dso.q, p.snapshots.dso.cosPhi)
  }

  /** With the SECC provider, an OK answer to a DER parameter request binds every later dynamic
      DER request of the charge loop: it is answered OK with the setpoints of the snapshots. */
  lemma {:induction false} DerAnswerBinds(m: Machine, i: Input, inputs: seq<Input>, j: Input)
    requires m.ctx.config.provider.SeccProvider?
    requires m.state.AcParameters? && AsksDer(i.event) && Step(m, i).state.ScheduleExchange?
    requires Run(Step(m, i), inputs).state.AcLoop? && AsksDynamicDer(m.ctx.session.id, j.event)
    ensures ServedFrom(m.ctx.config.provider, Step(Run(Step(m, i), inputs), j))
  {
    hide Step, Run, DerGate, IsGranted, ControlsOf, InOrder;
    DerAnswerExact(m, i);
    GateExact(m.ctx.session.selected, m.ctx.config.provider);
    StepCarries(m, i);
    SessionFrozen(Step(m, i), inputs);
    var config := DerGate(m.ctx.session.selected, m.ctx.config.provider).value;
    SeccGranted(m.ctx, config);
    DynamicDerServed(Run(Step(m, i), inputs), j, config);
  }
}
