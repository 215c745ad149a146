/** A complete AC session, request by request; and what a pause does to another vehicle's session. */
module CompleteSession {
  import opened Common
  import opened Types
  import opened Negotiation
  import opened Machine
  import opened Frame
  import opened AcContactor
  import opened Answers
  import opened Resume
  import opened Polling
  import opened Outcomes

  /** A charger that offers one AC parameter set with scheduled control. */
  predicate OffersAc(config: SessionConfig, ac: AcBase) {
    && config.auth == [] && config.energy == [AC] && config.lists == map[AC := [AcSet(ac)]]
    && ac.mode == Scheduled
  }

  function NewSessionReq(id: SessionId): Input {
    Input(Message(SessionSetupReq(0), id, None), 0)
  }

  function SelectFirst(id: SessionId, service: Service): Input {
    Ask(ServiceSelectionReq(id, service, 0, None))
  }

  lemma NewSessionStep(m: Machine, id: SessionId)
    requires m.state.SessionSetup? && m.ctx.cert.None?
    ensures var n := Step(m, NewSessionReq(id));
      && n.state.AuthorizationSetup? && n.ctx.session == NewSession(id)
      && n.ctx.config == m.ctx.config && n.ctx.pauseCtx == m.ctx.pauseCtx && n.ctx.stopped == m.ctx.stopped
  {
    hide Kept, Conforms, Step, Feed;
    var i := NewSessionReq(id);
    MessageStep(m, i);
    FeedOfSetup(m.state, m.ctx, i.event, i.now);
  }

  lemma AuthorizationSetupStep(m: Machine)
    requires m.state.AuthorizationSetup? && m.ctx.config.auth == []
    ensures var n := Step(m, Ask(AuthorizationSetupReq(m.ctx.session.id)));
      && n.state == Authorization(Pending, true, false) && n.ctx.config == m.ctx.config
      && n.ctx.session.offered.auth == [EIM] && n.ctx.stopped == m.ctx.stopped
  {
    hide Kept, Conforms, Step, Feed;
    var i := Ask(AuthorizationSetupReq(m.ctx.session.id));
    MessageStep(m, i);
    FeedOfSetup(m.state, m.ctx, i.event, i.now);
  }

  const ACCEPT := Input(Control(AuthorizationResponse(true)), 0)

  lemma AcceptStep(m: Machine)
    requires m.state == Authorization(Pending, true, false)
    ensures var n := Step(m, ACCEPT);
      n.state == Authorization(Accepted, true, false) && n.ctx == m.ctx
  {
    hide Kept, Conforms, Feed, Recorded;
    FeedOfSetup(m.state, m.ctx, ACCEPT.event, ACCEPT.now);
  }

  lemma AuthorizationPasses(m: Machine)
    requires m.state == Authorization(Accepted, true, false) && EIM in m.ctx.session.offered.auth
    ensures var n := Step(m, Ask(AuthorizationReq(m.ctx.session.id, EIM)));
      n.state.ServiceDiscovery? && n.ctx.config == m.ctx.config
  {
    hide Kept, Conforms, Step, Feed, StartTimer, StopTimer;
    var i := Ask(AuthorizationReq(m.ctx.session.id, EIM));
    MessageStep(m, i);
    FeedOfSetup(m.state, m.ctx, i.event, i.now);
  }

  lemma DiscoveryStep(m: Machine, service: Service)
    requires m.state.ServiceDiscovery? && m.ctx.config.energy == [service]
    ensures var n := Step(m, Ask(ServiceDiscoveryReq(m.ctx.session.id, None)));
      && n.state.ServiceDetail? && n.ctx.config == m.ctx.config
      && n.ctx.session.offered.energy == [service] && n.ctx.session.offered.sets == map[]
  {
    hide Kept, Conforms, Step, Feed;
    var i := Ask(ServiceDiscoveryReq(m.ctx.session.id, None));
    MessageStep(m, i);
    FeedOfService(m.state, m.ctx, i.event, i.now);
  }

  /** The one set of the charger is offered under id 0. */
  predicate OffersOne(m: Machine, p: ParameterSet) {
    m.ctx.session.offered.energy == [KindOf(p)] && m.ctx.session.offered.sets == map[KindOf(p) := map[0 := p]]
  }

  lemma DetailStep(m: Machine, p: ParameterSet)
    requires m.state.ServiceDetail? && m.ctx.session.offered.energy == [KindOf(p)] && m.ctx.session.offered.sets == map[]
    requires m.ctx.config.lists == map[KindOf(p) := [p]] && !p.AcDerSet?
    ensures var n := Step(m, Ask(ServiceDetailReq(m.ctx.session.id, KindOf(p))));
      n.state.ServiceSelection? && OffersOne(n, p)
  {
    hide Kept, Conforms, Step, Feed, AnswerDetail;
    var i := Ask(ServiceDetailReq(m.ctx.session.id, KindOf(p)));
    MessageStep(m, i);
    FeedOfService(m.state, m.ctx, i.event, i.now);
    DetailFed(m.state, m.ctx, i.event);
    var sets := [p];
    assert Usable(KindOf(p), ListOf(m.ctx.config, KindOf(p))) == sets;
    assert sets[..0] == [] && Offer(map[], sets) == map[0 := p];
  }

  lemma SelectionDone(m: Machine, p: ParameterSet)
    requires m.state.ServiceSelection? && !p.AcDerSet?
    requires OffersOne(m, p)
    ensures var n := Step(m, SelectFirst(m.ctx.session.id, KindOf(p)));
      && n.ctx.session.selected == SelectedFrom(KindOf(p), p)
      && (n.state.AcParameters? <==> IsAcService(KindOf(p))) && (n.state.DcParameters? <==> IsDcService(KindOf(p)))
  {
    hide Step, SelectServices, SelectedFrom;
    var i := SelectFirst(m.ctx.session.id, KindOf(p));
    SelectionAnswers(m, i);
    SelectionExact(m.ctx.session, KindOf(p), 0, None);
  }

  lemma StopStep(m: Machine)
    requires m.state.AcLoop?
    ensures var n := Step(m, Ask(PowerDeliveryReq(m.ctx.session.id, StopCharge)));
      n.state.SessionStop? && n.ctx.session == m.ctx.session
  {
    hide AnswerAcLoop, AcLoopReply, Recorded, Kept, Conforms, Step, Feed;
    var i := Ask(PowerDeliveryReq(m.ctx.session.id, StopCharge));
    MessageStep(m, i);
    FeedOfCharging(m.state, m.ctx, i.event, i.now);
  }

  /** Everything a vehicle without a certificate sends to charge and pause. */
  function CompleteRun(id: SessionId): seq<Input> {
    [ HELLO,
      NewSessionReq(id),
      Ask(AuthorizationSetupReq(id)),
      ACCEPT,
      Ask(AuthorizationReq(id, EIM)),
      Ask(ServiceDiscoveryReq(id, None)),
      Ask(ServiceDetailReq(id, AC)),
      SelectFirst(id, AC),
      Ask(AcParametersReq(id, AcMode)),
      Ask(ScheduleExchangeReq(id, Scheduled)),
      Ask(PowerDeliveryReq(id, Standby)),
      Ask(PowerDeliveryReq(id, StopCharge)),
      Ask(SessionStopReq(id, Pause)) ]
  }

  /** What matters here of `Carried`. */
  predicate Quiet(m: Machine, n: Machine) {
    && (!Negotiating(Id(m.state)) ==> n.ctx.session == m.ctx.session)
    && (!m.state.SessionSetup? ==> n.ctx.session.id == m.ctx.session.id)
    && (!Pausing(Id(m.state)) ==> n.ctx.pauseCtx == m.ctx.pauseCtx)
  }

  lemma QuietStep(m: Machine, i: Input)
    ensures Quiet(m, Step(m, i))
  {
    hide Step;
    StepCarries(m, i);
  }

  /** A run step by step, and what each step leaves as it is. */
  predicate StepByStep(m: Machine, inputs: seq<Input>) {
    hide *;
    && Run(m, inputs[..0]) == m
    && Run(m, inputs[..|inputs|]) == Run(m, inputs)
    && (forall k | 0 <= k < |inputs| ::
          && Run(m, inputs[..k + 1]) == Step(Run(m, inputs[..k]), inputs[k])
          && Quiet(Run(m, inputs[..k]), Run(m, inputs[..k + 1])))
  }

  lemma {:induction false} Unrolled(m: Machine, inputs: seq<Input>)
    ensures StepByStep(m, inputs)
  {
    hide Step, Quiet;
    assert inputs[..|inputs|] == inputs;
    forall k | 0 <= k < |inputs|
      ensures Run(m, inputs[..k + 1]) == Step(Run(m, inputs[..k]), inputs[k])
      ensures Quiet(Run(m, inputs[..k]), Run(m, inputs[..k + 1]))
    {
      assert inputs[..k + 1] == inputs[..k] + [inputs[k]];
      RunOneMore(m, inputs[..k], inputs[k]);
      QuietStep(Run(m, inputs[..k]), inputs[k]);
    }
  }

  const CREATED: nat := 2
  const ACCEPTED: nat := 4
  const AUTHORIZED: nat := 5
  const SELECTED: nat := 8
  const STOPPED: nat := 12

  lemma {:induction false} CompleteToSession(config: SessionConfig, id: SessionId, p: Option<PauseContext>)
    ensures var m := RunTo(Init(config, None, p), CompleteRun(id), CREATED);
      && m.state.AuthorizationSetup? && m.ctx.session.id == id && m.ctx.pauseCtx == p && m.ctx.config == config
      && !m.ctx.stopped
  {
    hide Step, Run;
    var m0, r := Init(config, None, p), CompleteRun(id);
    Unrolled(m0, r);
    Begins(m0);
    NewSessionStep(Run(m0, r[..1]), id);
  }

  /** A vehicle asks for Plug and Charge, which is not offered. */
  function WarnedRun(id: SessionId): seq<Input> {
    CompleteRun(id)[..4] + [Ask(AuthorizationReq(id, PnC))]
  }

  predicate WarnedAndMoved(m: Machine) {
    && m.state.ServiceDiscovery? && !m.ctx.stopped
    && m.log.responses != [] && m.log.responses[|m.log.responses| - 1].code == WarnAuthSelection
  }

  lemma {:induction false} ToAcceptance(config: SessionConfig, id: SessionId)
    requires config.auth == []
    ensures var m := RunTo(Init(config, None, None), CompleteRun(id), ACCEPTED);
      && m.state == Authorization(Accepted, true, false) && m.ctx.session.id == id && !m.ctx.stopped
      && m.ctx.session.offered.auth == [EIM]
  {
    hide Step, Run, Init;
    var m0, r := Init(config, None, None), CompleteRun(id);
    Unrolled(m0, r);
    CompleteToSession(config, id, None);
    AuthorizationSetupStep(Run(m0, r[..2]));
    AcceptStep(Run(m0, r[..3]));
  }

  lemma {:induction false} WarnedStep(m: Machine)
    requires m.state == Authorization(Accepted, true, false) && !m.ctx.stopped && m.ctx.session.offered.auth == [EIM]
    ensures WarnedAndMoved(Step(m, Ask(AuthorizationReq(m.ctx.session.id, PnC))))
  {
    hide Step, Extends;
    var i := Ask(AuthorizationReq(m.ctx.session.id, PnC));
    AuthorizationStep(m, i);
    StepCarries(m, i);
  }

  /** The integrator accepts, the EV selects a service that is not offered: it is warned, and moves on. */
  lemma {:induction false} WarnedMovesOn(config: SessionConfig, id: SessionId)
    requires config.auth == []
    ensures WarnedAndMoved(Run(Init(config, None, None), WarnedRun(id)))
  {
    hide Step, Run, Init, WarnedAndMoved;
    var m0, r := Init(config, None, None), CompleteRun(id);
    ToAcceptance(config, id);
    RunOneMore(m0, r[..4], Ask(AuthorizationReq(id, PnC)));
    WarnedStep(Run(m0, r[..4]));
  }

  lemma {:induction false} CompleteToAuthorization(config: SessionConfig, id: SessionId, p: Option<PauseContext>)
    requires config.auth == []
    ensures var m := RunTo(Init(config, None, p), CompleteRun(id), AUTHORIZED);
      && m.state.ServiceDiscovery? && m.ctx.session.id == id && m.ctx.pauseCtx == p && m.ctx.config == config
  {
    hide Step, Run, Init;
    var m0, r := Init(config, None, p), CompleteRun(id);
    Unrolled(m0, r);
    CompleteToSession(config, id, p);
    AuthorizationSetupStep(Run(m0, r[..2]));
    AcceptStep(Run(m0, r[..3]));
    AuthorizationPasses(Run(m0, r[..4]));
  }

  lemma CompleteRunIs(id: SessionId)
    ensures var r := CompleteRun(id);
      && |r| == 13 && r[5] == Ask(ServiceDiscoveryReq(id, None)) && r[6] == Ask(ServiceDetailReq(id, AC))
      && r[7] == SelectFirst(id, AC)
  {
    hide HELLO;
  }

  /** The session gets as far as its services. */
  lemma {:induction false} CompleteToServices(config: SessionConfig, ac: AcBase, id: SessionId, p: Option<PauseContext>)
    requires OffersAc(config, ac)
    ensures var m := RunTo(Init(config, None, p), CompleteRun(id), SELECTED);
      && m.state.AcParameters? && m.ctx.session.id == id && m.ctx.pauseCtx == p
      && m.ctx.session.selected == SelectedFrom(AC, AcSet(ac))
  {
    hide Step, SelectedFrom, Init, CompleteRun;
    var m0, r := Init(config, None, p), CompleteRun(id);
    CompleteRunIs(id);
    Unrolled(m0, r);
    CompleteToAuthorization(config, id, p);
    hide Run;
    DiscoveryStep(Run(m0, r[..5]), AC);
    DetailStep(Run(m0, r[..6]), AcSet(ac));
    SelectionDone(Run(m0, r[..7]), AcSet(ac));
  }

  lemma FirstSet(ac: AcBase)
    ensures SelectedFrom(AC, AcSet(ac)).Energy() == AC && SelectedFrom(AC, AcSet(ac)).Mode() == Some(ac.mode)
    ensures SelectedFrom(AC, AcSet(ac)).IsAc()
  {
  }

  const PREPARED: nat := 10

  lemma {:induction false} CompleteToDelivery(config: SessionConfig, ac: AcBase, id: SessionId, p: Option<PauseContext>)
    requires OffersAc(config, ac)
    ensures var m := RunTo(Init(config, None, p), CompleteRun(id), PREPARED);
      && m.state == PowerDelivery(0.0, false, None) && m.ctx.session.id == id && m.ctx.pauseCtx == p
      && m.ctx.session.selected == SelectedFrom(AC, AcSet(ac))
  {
    hide Step, Run, Init, SelectedFrom;
    var m0, r := Init(config, None, p), CompleteRun(id);
    Unrolled(m0, r);
    CompleteToServices(config, ac, id, p);
    FirstSet(ac);
    Agreed(Run(m0, r[..8]));
    ScheduleAgreed(Run(m0, r[..9]));
  }

  lemma {:induction false} CompleteToStop(config: SessionConfig, ac: AcBase, id: SessionId, p: Option<PauseContext>)
    requires OffersAc(config, ac)
    ensures var m := RunTo(Init(config, None, p), CompleteRun(id), STOPPED);
      && m.state.SessionStop? && m.ctx.session.id == id && m.ctx.pauseCtx == p
      && m.ctx.session.selected == SelectedFrom(AC, AcSet(ac))
  {
    hide Step, Run, Init, SelectedFrom, IsSkip;
    var m0, r := Init(config, None, p), CompleteRun(id);
    Unrolled(m0, r);
    CompleteToDelivery(config, ac, id, p);
    FirstSet(ac);
    AcStartExact(Run(m0, r[..10]), r[10]);
    StopStep(Run(m0, r[..11]));
  }

  /** A whole session, without any certificate, from the first message to the pause. */
  lemma {:induction false} AcSessionPauses(config: SessionConfig, ac: AcBase, id: SessionId, p: PauseContext)
    requires OffersAc(config, ac)
    ensures var m := Run(Init(config, None, Some(p)), CompleteRun(id));
      && m.state.SessionStop? && m.ctx.paused && m.ctx.session.id == id
      && m.ctx.pauseCtx == Some(p.(selected := SelectedFrom(AC, AcSet(ac))))
  {
    hide Step;
    var m0, r := Init(config, None, Some(p)), CompleteRun(id);
    Unrolled(m0, r);
    CompleteToStop(config, ac, id, Some(p));
    hide Run;
    PauseOverwrites(Run(m0, r[..12]), r[12]);
  }

  predicate Made(m: Machine, n: Machine, id: SessionId) {
    m.ctx.cert.Some? ==>
      && n.ctx.pauseCtx == PausedAs(m.ctx.cert.value, id, NothingSelected)
      && n.log.news == m.log.news + [Created(m.ctx.cert, id)]
  }

  lemma CertifiedSessionStep(m: Machine, id: SessionId)
    requires m.state.SessionSetup? && m.ctx.cert.Some?
    ensures Made(m, Step(m, NewSessionReq(id)), id)
  {
    hide Kept, Conforms, Step, Feed;
    var i := NewSessionReq(id);
    MessageStep(m, i);
    FeedOfSetup(m.state, m.ctx, i.event, i.now);
  }

  /** A certified session starts; an uncertified one charges and pauses; the first comes back. */
  function ThreeVisits(config: SessionConfig, cert: CertHash, first: SessionId, second: SessionId): seq<Visit> {
    [ Visit(config, Some(cert), [HELLO, NewSessionReq(first)]),
      Visit(config, None, CompleteRun(second)),
      Visit(config, Some(cert), [HELLO, Ask(SessionSetupReq(first))]) ]
  }

  lemma {:induction false} FirstVisit(config: SessionConfig, cert: CertHash, id: SessionId)
    ensures Run(Init(config, Some(cert), None), [HELLO, NewSessionReq(id)]).ctx.pauseCtx
            == Some(PauseContext(Digest(cert, id), id, NothingSelected))
  {
    hide Step;
    var m0, r := Init(config, Some(cert), None), [HELLO, NewSessionReq(id)];
    Unrolled(m0, r);
    hide Run;
    Begins(m0);
    CertifiedSessionStep(Run(m0, r[..1]), id);
  }

  lemma {:induction false} ThirdVisit(config: SessionConfig, cert: CertHash, id: SessionId, s: Selected)
    requires id != 0 && s.IsAc()
    ensures var m := Run(Init(config, Some(cert), Some(PauseContext(Digest(cert, id), id, s))), [HELLO, Ask(SessionSetupReq(id))]);
      m.state.AcParameters? && m.ctx.session.id == id && m.ctx.session.selected == s
  {
    hide Step;
    var m0, r := Init(config, Some(cert), Some(PauseContext(Digest(cert, id), id, s))), [HELLO, Ask(SessionSetupReq(id))];
    Unrolled(m0, r);
    hide Run;
    Begins(m0);
    Resumed(Run(m0, r[..1]), id, s);
  }

  /** Without a certificate in between, a session would come back with nothing selected: it never
      negotiated services. With it, the session charges with the services of the other vehicle. */
  predicate ResumedWithServicesOf(config: SessionConfig, ac: AcBase, cert: CertHash, first: SessionId, second: SessionId) {
    hide *;
    var visits := ThreeVisits(config, cert, first, second);
    |visits| == 3 &&
      var m := During(visits[..2], visits[2]);
      && m.state.AcParameters? && m.ctx.session.id == first
      && m.ctx.session.selected == SelectedFrom(AC, AcSet(ac))
      && After(visits[..1]).pause == PausedAs(cert, first, NothingSelected)
  }

  lemma {:induction false} ServicesOfAnother(
      config: SessionConfig, ac: AcBase, cert: CertHash, first: SessionId, second: SessionId)
    requires OffersAc(config, ac) && first != 0 && first != second
    ensures ResumedWithServicesOf(config, ac, cert, first, second)
  {
    hide Run, Init, After, ThreeVisits, CompleteRun, HELLO, SelectedFrom;
    var visits := ThreeVisits(config, cert, first, second);
    var p, q := PauseContext(Digest(cert, first), first, NothingSelected), SelectedFrom(AC, AcSet(ac));
    TheVisits(config, cert, first, second, ac);
    FirstVisit(config, cert, first);
    AfterOne(visits[0]);
    AcSessionPauses(config, ac, second, p);
    AfterMore(visits[..1], visits[1]);
    DuringIs(visits[..1], visits[1]);
    ThirdVisit(config, cert, first, q);
    DuringIs(visits[..2], visits[2]);
  }

  /** The integrator announces dynamic parameters, and a paused AC session is resumed up to its schedule. */
  function AnnouncedRun(id: SessionId, d: DynamicParameters): seq<Input> {
    [Announce(d), HELLO, Ask(SessionSetupReq(id)), Ask(AcParametersReq(id, AcMode))]
  }

  function Announce(d: DynamicParameters): Input {
    Input(Control(UpdateDynamic(d)), 0)
  }

  lemma AnnounceStep(m: Machine, d: DynamicParameters)
    requires m.state.SupportedAppProtocol?
    ensures var n := Step(m, Announce(d));
      n.state == m.state && n.ctx == m.ctx.(dynamicCache := Some(d))
  {
    hide Kept, Conforms, Feed, Recorded;
    var i := Announce(d);
    FeedOfSetup(m.state, Receive(m, i.event).ctx, i.event, i.now);
  }

  predicate KnowsNothingOf(m: Machine, d: DynamicParameters) {
    m.state.ScheduleExchange? && m.ctx.dynamicCache == Some(d) && m.state.seDynamic == NO_DYNAMIC
  }

  lemma EntersEmpty(m: Machine, d: DynamicParameters)
    requires m.state.AcParameters? && m.ctx.session.selected.Energy() == AC && m.ctx.dynamicCache == Some(d)
    ensures KnowsNothingOf(Step(m, Ask(AcParametersReq(m.ctx.session.id, AcMode))), d)
  {
    hide Step, Outcome;
    var i := Ask(AcParametersReq(m.ctx.session.id, AcMode));
    Agreed(m);
    StepShows(m, i);
  }

  /** The schedule does not know of an announcement made before it. */
  lemma {:induction false} AnnouncementIgnored(
      config: SessionConfig, cert: CertHash, id: SessionId, selected: Selected, d: DynamicParameters)
    requires id != 0 && selected.Energy() == AC
    ensures KnowsNothingOf(Run(Init(config, Some(cert), PausedAs(cert, id, selected)), AnnouncedRun(id, d)), d)
  {
    hide Step, Run, Init, HELLO;
    var m0, r := Init(config, Some(cert), PausedAs(cert, id, selected)), AnnouncedRun(id, d);
    Unrolled(m0, r);
    InitRuns(config, cert, PausedAs(cert, id, selected));
    AnnounceStep(m0, d);
    Begins(Run(m0, r[..1]));
    Resumed(Run(m0, r[..2]), id, selected);
    CacheStays(Run(m0, r[..2]), r[2]);
    EntersEmpty(Run(m0, r[..3]), d);
  }

  lemma CacheStays(m: Machine, i: Input)
    requires i.event.Message?
    ensures Step(m, i).ctx.dynamicCache == m.ctx.dynamicCache
  {
    hide Step, Outcome, Shown;
    StepShows(m, i);
  }

  /** A certified session that never paused comes back. */
  function ReturnsUnpaused(config: SessionConfig, cert: CertHash, id: SessionId): Visit {
    Visit(config, Some(cert), [HELLO, Ask(SessionSetupReq(id))])
  }

  /** It is joined, but stays in session setup, and `poll` stops it. */
  predicate JoinedAndStopped(config: SessionConfig, cert: CertHash, id: SessionId) {
    hide *;
    var visits := [Visit(config, Some(cert), [HELLO, NewSessionReq(id)])];
    var m := During(visits, Visit(config, Some(cert), [HELLO]));
    var n := During(visits, ReturnsUnpaused(config, cert, id));
    && n.state.SessionSetup? && IsJoined(n)
    && !m.ctx.stopped && MustHandle(m, Ask(SessionSetupReq(id))).ctx.stopped
  }

  lemma {:induction false} NeverPausedStays(config: SessionConfig, cert: CertHash, id: SessionId)
    requires id != 0
    ensures JoinedAndStopped(config, cert, id)
  {
    hide Run, Init, After, HELLO, Step;
    var visits := [Visit(config, Some(cert), [HELLO, NewSessionReq(id)])];
    var p := Some(PauseContext(Digest(cert, id), id, NothingSelected));
    var m0, i := Init(config, Some(cert), p), Ask(SessionSetupReq(id));
    FirstVisit(config, cert, id);
    AfterOne(visits[0]);
    DuringIs(visits, Visit(config, Some(cert), [HELLO]));
    DuringIs(visits, ReturnsUnpaused(config, cert, id));
    RunNothing(m0);
    RunOneMore(m0, [], HELLO);
    RunOneMore(m0, [HELLO], i);
    assert [] + [HELLO] == [HELLO] && [HELLO] + [i] == [HELLO, i];
    InitRuns(config, cert, p);
    Begins(m0);
    SetupExact(Step(m0, HELLO), i);
    MustHandleForward(Step(m0, HELLO), i);
  }

  lemma InitRuns(config: SessionConfig, cert: CertHash, p: Option<PauseContext>)
    ensures var m := Init(config, Some(cert), p);
      m.state.SupportedAppProtocol? && !m.ctx.stopped && m.ctx.cert == Some(cert) && m.ctx.pauseCtx == p
  {
  }

  lemma TheVisits(config: SessionConfig, cert: CertHash, first: SessionId, second: SessionId, ac: AcBase)
    ensures var visits := ThreeVisits(config, cert, first, second);
      && |visits| == 3
      && visits[0] == Visit(config, Some(cert), [HELLO, NewSessionReq(first)])
      && visits[1] == Visit(config, None, CompleteRun(second))
      && visits[2] == Visit(config, Some(cert), [HELLO, Ask(SessionSetupReq(first))])
      && visits[..1] == [visits[0]] && visits[..2] == visits[..1] + [visits[1]]
    ensures SelectedFrom(AC, AcSet(ac)).IsAc()
  {
    hide HELLO, NewSessionReq, CompleteRun, Ask;
  }

  lemma DuringIs(visits: seq<Visit>, v: Visit)
    ensures During(visits, v) == Run(Init(v.config, v.cert, After(visits).pause), v.inputs)
  {
    hide Run, Init, After;
  }

  lemma AfterOne(v: Visit)
    ensures After([v]).pause == Run(Init(v.config, v.cert, None), v.inputs).ctx.pauseCtx
  {
    hide Run, Init;
    assert [v][..0] == [];
  }

  lemma AfterMore(visits: seq<Visit>, v: Visit)
    ensures After(visits + [v]).pause == During(visits, v).ctx.pauseCtx
  {
    hide Run, Init;
    assert (visits + [v])[..|visits|] == visits;
  }
}
