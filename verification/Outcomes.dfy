/** What each request leads to: the answer, the next state and the signals, by what the session heard before. */
module Outcomes {
  import opened Common
  import opened Types
  import opened Machine
  import opened Frame
  import opened Negotiation
  import opened Handlers
  import opened Answers
  import opened Agreement

  /** The step answers once, under the session's id, and raises these signals. */
  predicate Does(m: Machine, n: Machine, code: Code, body: Body, signals: seq<Signal>) {
    && n.log.responses == m.log.responses + [Response(m.ctx.session.id, code, body)]
    && n.log.signals == m.log.signals + signals
  }

  /** A request under another id is refused and stops the session; the state stays what it is. */
  predicate Refuses(m: Machine, n: Machine, signals: seq<Signal>) {
    Does(m, n, FailedUnknownSession, NoBody, signals) && n.ctx.stopped && Id(n.state) == Id(m.state)
  }

  // ------------------------------------------------------------------ session setup

  predicate AsksProtocol(e: Event) {
    e.Message? && e.request.SupportedAppProtocolReq?
  }

  /** One of the two namespaces of ISO 15118-20, or the one configured. */
  predicate IsKnown(p: AppProtocol, custom: string) {
    p.name == "urn:iso:std:iso:15118:-20:DC" || p.name == "urn:iso:std:iso:15118:-20:AC" || p.name == custom
  }

  /** The session goes on exactly if the EV lists a known protocol; it is told the schema of the best one. */
  ghost predicate ProtocolAnswered(m: Machine, e: Event, n: Machine, custom: string) {
    AsksProtocol(e) ==>
      var ps := e.request.protocols;
      && n.ctx.stopped == m.ctx.stopped
      && if exists p <- ps :: IsKnown(p, custom) then
           && n.state.SessionSetup?
           && (forall k: nat | FirstChoice(ps, custom, k) :: Does(m, n, NegotiationOk, ProtocolBody(ps[k].schema), []))
           && (exists k: nat :: FirstChoice(ps, custom, k))
         else n.state == m.state && Does(m, n, NegotiationFailed, NoBody, [])
  }

  lemma {:induction false} ProtocolFed(st: State, c: Context, e: Event)
    requires st.SupportedAppProtocol? && AsksProtocol(e)
    ensures var out, chosen := FeedSupportedAppProtocol(st, c, e), Negotiated(e.request.protocols, c.config.customProtocol);
      && out.ctx == c && out.signals == []
      && out.state == (if chosen.Some? then SessionSetup else st)
      && out.sent == Some(if chosen.Some? then Reply(NegotiationOk, ProtocolBody(chosen.value.schema))
                          else Reply(NegotiationFailed, NoBody))
  {
    hide Kept, Conforms, Negotiated;
  }

  lemma {:induction false} ProtocolStep(m: Machine, i: Input)
    requires m.state.SupportedAppProtocol? && AsksProtocol(i.event)
    ensures ProtocolAnswered(m, i.event, Step(m, i), m.ctx.config.customProtocol)
  {
    hide Kept, Conforms, Step, Feed, FeedSupportedAppProtocol, Negotiated;
    var ps, custom := i.event.request.protocols, m.ctx.config.customProtocol;
    MessageStep(m, i);
    FeedOfSetup(m.state, m.ctx, i.event, i.now);
    ProtocolFed(m.state, m.ctx, i.event);
    NegotiatedExact(ps, custom, AppProtocol("", 0, 0));
    if Negotiated(ps, custom).Some? {
      NegotiatedExact(ps, custom, Negotiated(ps, custom).value);
      forall k: nat | FirstChoice(ps, custom, k)
        ensures Negotiated(ps, custom) == Some(ps[k])
      {
        NegotiatedExact(ps, custom, ps[k]);
      }
    }
  }

  /** On every run a list of protocols is answered by the two namespaces of the standard and the configured one. */
  lemma {:induction false} ProtocolExact(
      config: SessionConfig, cert: Option<CertHash>, p: Option<PauseContext>, inputs: seq<Input>, i: Input)
    requires Run(Init(config, cert, p), inputs).state.SupportedAppProtocol? && AsksProtocol(i.event)
    ensures var m := Run(Init(config, cert, p), inputs);
      ProtocolAnswered(m, i.event, Step(m, i), config.customProtocol)
  {
    hide Run, Step, ProtocolAnswered;
    EquipmentStays(Init(config, cert, p), inputs);
    ProtocolStep(Run(Init(config, cert, p), inputs), i);
  }

  predicate AsksAuthorizationSetup(e: Event) {
    e.Message? && e.request.AuthorizationSetupReq?
  }

  predicate AuthorizationOffered(m: Machine, e: Event, n: Machine, configured: seq<Types.Authorization>) {
    AsksAuthorizationSetup(e) ==>
      if e.request.sid != m.ctx.session.id then Refuses(m, n, [])
      else
        var offered := if configured == [] then [EIM] else configured;
        && n.state == Authorization(Pending, true, false) && n.ctx.stopped == m.ctx.stopped
        && Does(m, n, Ok, OfferedAuthBody(offered), [RequireAuthEim])
        && n.ctx.session == m.ctx.session.(offered := m.ctx.session.offered.(auth := offered))
  }

  lemma {:induction false} AuthorizationSetupExact(m: Machine, i: Input)
    requires m.state.AuthorizationSetup? && AsksAuthorizationSetup(i.event)
    ensures AuthorizationOffered(m, i.event, Step(m, i), m.ctx.config.auth)
  {
    hide Kept, Conforms, Step, Feed;
    MessageStep(m, i);
    FeedOfSetup(m.state, m.ctx, i.event, i.now);
  }

  // ----------------------------------------------------------------------- services

  function LastEnergy(inputs: seq<Input>): Option<seq<Service>> {
    if inputs == [] then None
    else
      var e := inputs[|inputs| - 1].event;
      if e.Control? && e.control.EnergyServices? then Some(e.control.energy) else LastEnergy(inputs[..|inputs| - 1])
  }

  function LastVas(inputs: seq<Input>): Option<seq<uint16>> {
    if inputs == [] then None
    else
      var e := inputs[|inputs| - 1].event;
      if e.Control? && e.control.SupportedVas? then Some(e.control.vas) else LastVas(inputs[..|inputs| - 1])
  }

  predicate KnowsLists(m: Machine, config: SessionConfig, inputs: seq<Input>) {
    && m.ctx.config.energy == LastEnergy(inputs).GetOr(config.energy)
    && m.ctx.config.vas == LastVas(inputs).GetOr(config.vas)
  }

  lemma ListsAdded(inputs: seq<Input>, i: Input)
    ensures var c, e := inputs + [i], i.event;
      && LastEnergy(c) == (if e.Control? && e.control.EnergyServices? then Some(e.control.energy) else LastEnergy(inputs))
      && LastVas(c) == (if e.Control? && e.control.SupportedVas? then Some(e.control.vas) else LastVas(inputs))
  {
    assert (inputs + [i])[..|inputs|] == inputs;
  }

  lemma ListsAbsorbed(c: Context, e: Event)
    ensures var d := Absorb(c, e).config;
      && d.energy == (if e.Control? && e.control.EnergyServices? then e.control.energy else c.config.energy)
      && d.vas == (if e.Control? && e.control.SupportedVas? then e.control.vas else c.config.vas)
  {
  }

  lemma {:induction false} ListsStep(m: Machine, i: Input)
    ensures var d, n := Absorb(m.ctx, i.event).config, Step(m, i);
      n.ctx.config.energy == d.energy && n.ctx.config.vas == d.vas
  {
    hide Step, Outcome, Absorb, Admits, Moves, Guarded, Signals, Tells, Shown, Id, Edge, Recorded;
    StepRecords(m, i);
    OutcomeConforms(m, i);
  }

  lemma {:induction false} KnowsListsRun(
      config: SessionConfig, cert: Option<CertHash>, p: Option<PauseContext>, inputs: seq<Input>)
    ensures KnowsLists(Run(Init(config, cert, p), inputs), config, inputs)
  {
    hide Step, Absorb;
    if inputs != [] {
      var before, i := inputs[..|inputs| - 1], inputs[|inputs| - 1];
      var m := Run(Init(config, cert, p), before);
      KnowsListsRun(config, cert, p, before);
      ListsStep(m, i);
      ListsAbsorbed(m.ctx, i.event);
    }
  }

  predicate AsksDiscovery(e: Event) {
    e.Message? && e.request.ServiceDiscoveryReq?
  }

  /** The services in both lists, in the charger's order; whatever was offered before is forgotten. */
  predicate Discovered(m: Machine, e: Event, n: Machine, energy: seq<Service>, vas: seq<uint16>) {
    AsksDiscovery(e) ==>
      if e.request.sid != m.ctx.session.id then Refuses(m, n, [])
      else
        var wanted := e.request.supported;
        && n.state.ServiceDetail? && n.ctx.stopped == m.ctx.stopped
        && Does(m, n, Ok, DiscoveryBody(Keep(energy, wanted), Keep(vas, wanted)), [])
        && n.ctx.session == m.ctx.session.(
             renegotiation := false,
             offered := OfferedServices([], Keep(energy, wanted), Keep(vas, wanted), map[], {}, {}, map[]))
  }

  lemma {:induction false} DiscoveryAnswers(m: Machine, i: Input)
    requires m.state.ServiceDiscovery? && AsksDiscovery(i.event)
    ensures Discovered(m, i.event, Step(m, i), m.ctx.config.energy, m.ctx.config.vas)
  {
    hide Kept, Conforms, Step, Feed, Keep;
    MessageStep(m, i);
    FeedOfService(m.state, m.ctx, i.event, i.now);
  }

  /** On every run discovery answers with what is common to the EV's list and the last lists of the charger. */
  lemma {:induction false} DiscoveryShowsLast(
      config: SessionConfig, cert: Option<CertHash>, p: Option<PauseContext>, inputs: seq<Input>, i: Input)
    requires Run(Init(config, cert, p), inputs).state.ServiceDiscovery? && AsksDiscovery(i.event)
    ensures var m := Run(Init(config, cert, p), inputs);
      Discovered(m, i.event, Step(m, i), LastEnergy(inputs).GetOr(config.energy), LastVas(inputs).GetOr(config.vas))
  {
    hide Run, Step, Discovered, LastEnergy, LastVas;
    KnowsListsRun(config, cert, p, inputs);
    DiscoveryAnswers(Run(Init(config, cert, p), inputs), i);
  }

  predicate AsksDetail(e: Event) {
    e.Message? && e.request.ServiceDetailReq?
  }

  /** Answers of the callback replace the configured internet ports and parking places. */
  predicate TakesOver(c: SessionConfig, wanted: uint16, reply: Option<seq<VasSet>>, d: SessionConfig) {
    && (reply.Some? && wanted == INTERNET ==>
          && |d.internet| == |reply.value|
          && forall i | 0 <= i < |d.internet| ::
               d.internet[i] == if 1 <= reply.value[i].id <= 4 then reply.value[i].id else 0)
    && (!(reply.Some? && wanted == INTERNET) ==> d.internet == c.internet)
    && d.parking == (if reply.Some? && wanted == PARKING_STATUS then |reply.value| else c.parking)
    && d == c.(internet := d.internet, parking := d.parking)
  }

  predicate DetailAnswered(m: Machine, e: Event, n: Machine) {
    AsksDetail(e) ==>
      var wanted, o := e.request.wanted, m.ctx.session.offered;
      var own := IsEnergyService(wanted) || wanted == INTERNET || wanted == PARKING_STATUS;
      && TakesOver(m.ctx.config, wanted, e.reply, n.ctx.config)
      && if e.request.sid != m.ctx.session.id then Refuses(m, n, []) && n.ctx.session == m.ctx.session
         else if (wanted in o.energy || wanted in o.vas)
                 && (wanted == AC_DER ==> exists p <- ListOf(m.ctx.config, wanted) :: Complete(p))
         then
           && n.state.ServiceSelection? && n.ctx.stopped == m.ctx.stopped && Added(m, n).Some?
           && Added(m, n).value.body.DetailBody?
           && var sets := Added(m, n).value.body.sets;
              && Does(m, n, Ok, DetailBody(wanted, sets), [])
              && ListsSets(sets, n.ctx.config, wanted, if own then None else e.reply)
         else
           && Does(m, n, FailedServiceId, NoBody, []) && n.ctx.stopped && Id(n.state) == Id(m.state)
           && n.ctx.session == m.ctx.session
  }

  lemma AbsorbExact(c: SessionConfig, wanted: uint16, reply: Option<seq<VasSet>>)
    ensures TakesOver(c, wanted, reply, AbsorbReply(c, wanted, reply))
    ensures ListOf(AbsorbReply(c, wanted, reply), wanted) == ListOf(c, wanted)
  {
  }

  /** What `AnswerDetail` makes of the result of `Detail`. */
  predicate DetailSent(st: State, c: Context, e: Event, out: Out) {
    AsksDetail(e) ==>
      var config := AbsorbReply(c.config, e.request.wanted, e.reply);
      var r := Detail(c.session, config, e.request.wanted, CustomReply(e.request.wanted, e.reply));
      && out.ctx.config == config && out.signals == []
      && if e.request.sid != c.session.id then
           && out.sent == Some(Reply(FailedUnknownSession, NoBody)) && out.ctx.stopped
           && out.state == st && out.ctx.session == c.session
         else if r.code.IsFailed() then
           out.sent == Some(Reply(r.code, NoBody)) && out.ctx.stopped && out.state == st && out.ctx.session == r.session
         else
           && out.sent == Some(Reply(r.code, DetailBody(e.request.wanted, r.sets))) && out.ctx.stopped == c.stopped
           && out.state == ServiceSelection && out.ctx.session == r.session
  }

  lemma {:induction false} DetailFed(st: State, c: Context, e: Event)
    requires (st.ServiceDetail? || st.ServiceSelection?) && AsksDetail(e)
    ensures DetailSent(st, c, e, AnswerDetail(st, c, e))
  {
    hide Kept, Conforms, Detail, AbsorbReply, CustomReply, Code.IsFailed;
  }

  lemma {:induction false} DetailAnswers(m: Machine, i: Input)
    requires (m.state.ServiceDetail? || m.state.ServiceSelection?) && AsksDetail(i.event)
    ensures DetailAnswered(m, i.event, Step(m, i))
  {
    hide Kept, Conforms, Step, Feed, AnswerDetail, AnswerSelection, Detail, AbsorbReply, Complete, ListsSets, TakesOver, ListOf;
    var e, c := i.event, m.ctx;
    MessageStep(m, i);
    FeedOfService(m.state, c, e, i.now);
    DetailFed(m.state, c, e);
    AbsorbExact(c.config, e.request.wanted, e.reply);
    var wanted := e.request.wanted;
    DetailExact(c.session, AbsorbReply(c.config, wanted, e.reply), wanted, CustomReply(wanted, e.reply));
  }

  /** A selection goes on to the parameters of the selected service, and records the value-added ones. */
  predicate SelectionAnswered(m: Machine, e: Event, n: Machine) {
    AsksSelection(e) ==>
      var s, asked := m.ctx.session, e.request;
      if asked.sid != s.id then Refuses(m, n, []) && n.ctx.session == s
      else
        var r := SelectServices(s, asked.energy, asked.setId, asked.vas);
        && n.ctx.session == r.0 && Does(m, n, r.1, NoBody, [])
        && (r.1 == Ok ==>
              && n.ctx.stopped == m.ctx.stopped
              && (n.state.AcParameters? <==> IsAcService(asked.energy)) && (n.state.DcParameters? <==> IsDcService(asked.energy)))
        && (r.1 != Ok ==> n.ctx.stopped && n.state == m.state)
  }

  lemma {:induction false} SelectionAnswers(m: Machine, i: Input)
    requires m.state.ServiceSelection? && AsksSelection(i.event)
    ensures SelectionAnswered(m, i.event, Step(m, i))
  {
    hide Kept, Conforms, Step, Feed, AnswerDetail, SelectServices, SelectedFrom, Complete, AllOffered, FindVas, Recordable;
    var asked := i.event.request;
    MessageStep(m, i);
    FeedOfService(m.state, m.ctx, i.event, i.now);
    SelectionExact(m.ctx.session, asked.energy, asked.setId, asked.vas);
  }

  // ------------------------------------------------------------------ renegotiation

  predicate FedKeepsSingle(st: State, c: Context, e: Event, now: nat) {
    hide *;
    !c.session.renegotiation ==> !Feed(st, c, e, now).ctx.session.renegotiation
  }

  lemma {:induction false} SetupKeepsSingle(st: State, c: Context, e: Event)
    requires !c.session.renegotiation
    ensures st.SessionSetup? ==> !FeedSessionSetup(st, c, e).ctx.session.renegotiation
    ensures st.AuthorizationSetup? ==> !FeedAuthorizationSetup(st, c, e).ctx.session.renegotiation
    ensures st.ServiceDiscovery? ==> !FeedServiceDiscovery(st, c, e).ctx.session.renegotiation
  {
    hide Kept, Conforms;
  }

  lemma DetailKeepsSingle(s: Session, config: SessionConfig, wanted: uint16, reply: Option<seq<VasSet>>)
    ensures Detail(s, config, wanted, reply).session.renegotiation == s.renegotiation
  {
    hide Usable, Offer, SetsOf, ListOf, InternetIds, ParkingIds, IdsOf;
  }

  lemma {:induction false} AnswerKeepsSingle(st: State, c: Context, e: Event)
    requires (st.ServiceDetail? || st.ServiceSelection?) && AsksDetail(e) && !c.session.renegotiation
    ensures !AnswerDetail(st, c, e).ctx.session.renegotiation
  {
    hide Kept, Conforms, Detail, AbsorbReply, CustomReply, AnswerDetail;
    DetailFed(st, c, e);
    var wanted := e.request.wanted;
    DetailKeepsSingle(c.session, AbsorbReply(c.config, wanted, e.reply), wanted, CustomReply(wanted, e.reply));
  }

  lemma {:induction false} ServiceKeepsSingle(st: State, c: Context, e: Event)
    requires !c.session.renegotiation
    ensures st.ServiceDetail? ==> !FeedServiceDetail(st, c, e).ctx.session.renegotiation
    ensures st.ServiceSelection? ==> !FeedServiceSelection(st, c, e).ctx.session.renegotiation
  {
    hide Kept, Conforms, AnswerDetail, SelectServices, AllOffered, FindVas, Complete, Recordable;
    if e.Message? && e.request.ServiceSelectionReq? {
      SelectionExact(c.session, e.request.energy, e.request.setId, e.request.vas);
    } else if AsksDetail(e) && (st.ServiceDetail? || st.ServiceSelection?) {
      AnswerKeepsSingle(st, c, e);
    }
  }

  lemma KeptSingle(st: State, c: Context, out: Out)
    requires Kept(st, c, out) && !Negotiating(Id(st))
    ensures out.ctx.session == c.session
  {
  }

  lemma {:induction false} FeedKeepsSingle(st: State, c: Context, e: Event, now: nat)
    ensures FedKeepsSingle(st, c, e, now)
  {
    hide Feed, FeedSupportedAppProtocol, FeedSessionSetup, FeedAuthorizationSetup, FeedAuthorization, FeedServiceDiscovery,
      FeedServiceDetail, FeedServiceSelection, Kept, Conforms;
    if !c.session.renegotiation {
      if Negotiating(Id(st)) {
        FeedOfSetup(st, c, e, now);
        FeedOfService(st, c, e, now);
        SetupKeepsSingle(st, c, e);
        ServiceKeepsSingle(st, c, e);
      } else {
        assert Kept(st, c, Feed(st, c, e, now));
        KeptSingle(st, c, Feed(st, c, e, now));
      }
    }
  }

  lemma {:induction false} StepKeepsSingle(m: Machine, i: Input)
    requires !m.ctx.session.renegotiation
    ensures !Step(m, i).ctx.session.renegotiation
  {
    hide Feed, Absorb, Recorded;
    ReceiveKeeps(m, i.event);
    FeedKeepsSingle(m.state, Receive(m, i.event).ctx, i.event, i.now);
  }

  /** No session ever supports renegotiation. */
  lemma {:induction false} NeverRenegotiates(
      config: SessionConfig, cert: Option<CertHash>, p: Option<PauseContext>, inputs: seq<Input>)
    ensures !Run(Init(config, cert, p), inputs).ctx.session.renegotiation
  {
    hide Step;
    if inputs != [] {
      NeverRenegotiates(config, cert, p, inputs[..|inputs| - 1]);
      StepKeepsSingle(Run(Init(config, cert, p), inputs[..|inputs| - 1]), inputs[|inputs| - 1]);
    }
  }

  // ------------------------------------------------------------- what no state waits for

  /** The requests that a state is there for. */
  predicate Expects(s: StateId, r: Request) {
    match s
    case AtSupportedAppProtocol => r.SupportedAppProtocolReq?
    case AtSessionSetup => r.SessionSetupReq?
    case AtAuthorizationSetup => r.AuthorizationSetupReq?
    case AtAuthorization => r.AuthorizationReq?
    case AtServiceDiscovery => r.ServiceDiscoveryReq?
    case AtServiceDetail => r.ServiceDetailReq?
    case AtServiceSelection => r.ServiceDetailReq? || r.ServiceSelectionReq?
    case AtAcParameters => r.AcParametersReq?
    case AtDcParameters => r.DcParametersReq?
    case AtScheduleExchange => r.ScheduleExchangeReq?
    case AtCableCheck => r.CableCheckReq?
    case AtPreCharge => r.PreChargeReq?
    case AtPowerDelivery => r.PreChargeReq? || r.PowerDeliveryReq?
    case AtAcLoop => r.PowerDeliveryReq? || r.AcLoopReq?
    case AtDcLoop => r.PowerDeliveryReq? || r.DcLoopReq?
    case AtWelding => r.WeldingReq? || r.SessionStopReq?
    case AtSessionStop => r.SessionStopReq?
  }

  /** From authorization setup to pre-charge a stop request is answered for itself; it ends the session. */
  predicate AnswersStop(s: StateId) {
    Rank(AtSessionSetup) < Rank(s) < Rank(AtPowerDelivery)
  }

  predicate IsUnexpected(s: StateId, e: Event) {
    e.Message? && !Expects(s, e.request)
  }

  /** The answer to a request that is not waited for; there is none before session setup, and none to a
      message that carries no session id. */
  function UnexpectedCode(s: StateId, session: Session, r: Request): Option<Code> {
    if s == AtSupportedAppProtocol || !HasSessionId(r) then None
    else if AnswersStop(s) && r.SessionStopReq? then
      Some(if r.sid != session.id then FailedUnknownSession
           else if r.ending == ServiceRenegotiation && !session.renegotiation then FailedNoRenegotiation
           else Ok)
    else Some(FailedSequence)
  }

  /** It stops the session, and changes nothing else. */
  predicate RejectedOut(st: State, c: Context, e: Event, out: Out) {
    IsUnexpected(Id(st), e) ==>
      && out.state == st && out.signals == [] && out.news == [] && out.ctx == c.(stopped := true)
      && out.sent == var code := UnexpectedCode(Id(st), c.session, e.request);
         if code.Some? then Some(Reply(code.value, NoBody)) else None
  }

  /** Apart from what a state waits for, a control event or a timeout changes at most the state object. */
  predicate QuietOut(st: State, c: Context, e: Event, out: Out) {
    !e.Message? && !(st.PowerDelivery? && (IsContactorReport(e) || e == Expired(TimeoutType.Contactor))) ==>
      Id(out.state) == Id(st) && out.ctx == c && out.sent == None && out.signals == [] && out.news == []
  }

  predicate Minds(st: State, c: Context, e: Event, out: Out) {
    RejectedOut(st, c, e, out) && QuietOut(st, c, e, out)
  }

  lemma {:induction false} SupportedAppProtocolMinds(st: State, c: Context, e: Event)
    requires st.SupportedAppProtocol?
    ensures Minds(st, c, e, FeedSupportedAppProtocol(st, c, e))
  {
    hide Kept, Conforms, AnswerProtocols;
  }

  lemma {:induction false} SessionSetupMinds(st: State, c: Context, e: Event)
    requires st.SessionSetup?
    ensures Minds(st, c, e, FeedSessionSetup(st, c, e))
  {
    hide Kept, Conforms, ResumeSession, CreateSession;
  }

  lemma {:induction false} AuthorizationSetupMinds(st: State, c: Context, e: Event)
    requires st.AuthorizationSetup?
    ensures Minds(st, c, e, FeedAuthorizationSetup(st, c, e))
  {
    hide Kept, Conforms, SendAuthorizationSetup;
  }

  lemma {:induction false} AuthorizationMinds(st: State, c: Context, e: Event, now: nat)
    requires st.Authorization?
    ensures Minds(st, c, e, FeedAuthorization(st, c, e, now))
  {
    hide Kept, Conforms, AnswerAuthorization;
  }

  lemma {:induction false} ServiceDiscoveryMinds(st: State, c: Context, e: Event)
    requires st.ServiceDiscovery?
    ensures Minds(st, c, e, FeedServiceDiscovery(st, c, e))
  {
    hide Kept, Conforms, SendDiscovery;
  }

  lemma {:induction false} ServiceDetailMinds(st: State, c: Context, e: Event)
    requires st.ServiceDetail?
    ensures Minds(st, c, e, FeedServiceDetail(st, c, e))
  {
    hide Kept, Conforms, AnswerDetail;
  }

  lemma {:induction false} ServiceSelectionMinds(st: State, c: Context, e: Event)
    requires st.ServiceSelection?
    ensures Minds(st, c, e, FeedServiceSelection(st, c, e))
  {
    hide Kept, Conforms, AnswerDetail, AnswerSelection;
  }

  lemma {:induction false} AcParametersMinds(st: State, c: Context, e: Event)
    requires st.AcParameters?
    ensures Minds(st, c, e, FeedAcParameters(st, c, e))
  {
    hide Kept, Conforms, AnswerAcParameters;
  }

  lemma {:induction false} DcParametersMinds(st: State, c: Context, e: Event)
    requires st.DcParameters?
    ensures Minds(st, c, e, FeedDcParameters(st, c, e))
  {
    hide Kept, Conforms, DcParametersReply, AgreeParameters;
  }

  lemma {:induction false} ScheduleExchangeMinds(st: State, c: Context, e: Event, now: nat)
    requires st.ScheduleExchange?
    ensures Minds(st, c, e, FeedScheduleExchange(st, c, e, now))
  {
    hide Kept, Conforms, AnswerSchedule;
  }

  lemma {:induction false} CableCheckMinds(st: State, c: Context, e: Event)
    requires st.CableCheck?
    ensures Minds(st, c, e, FeedCableCheck(st, c, e))
  {
    hide Kept, Conforms, AnswerCableCheck;
  }

  lemma {:induction false} PreChargeMinds(st: State, c: Context, e: Event)
    requires st.PreCharge?
    ensures Minds(st, c, e, FeedPreCharge(st, c, e))
  {
    hide Kept, Conforms, AnswerPreCharge;
  }

  lemma {:induction false} PowerDeliveryMinds(st: State, c: Context, e: Event, now: nat)
    requires st.PowerDelivery?
    ensures Minds(st, c, e, FeedPowerDelivery(st, c, e, now))
  {
    hide Kept, Conforms, FeedStart, AnswerLatePreCharge, FeedContactor, ExpireContactor;
  }

  lemma {:induction false} AcLoopMinds(st: State, c: Context, e: Event)
    requires st.AcLoop?
    ensures Minds(st, c, e, FeedAcLoop(st, c, e))
  {
    hide Kept, Conforms, StopAcLoop, AnswerAcLoop;
  }

  lemma {:induction false} DcLoopMinds(st: State, c: Context, e: Event)
    requires st.DcLoop?
    ensures Minds(st, c, e, FeedDcLoop(st, c, e))
  {
    hide Kept, Conforms, StopDcLoop, AnswerDcLoop;
  }

  lemma {:induction false} WeldingMinds(st: State, c: Context, e: Event)
    requires st.Welding?
    ensures Minds(st, c, e, FeedWelding(st, c, e))
  {
    hide Kept, Conforms, AnswerWelding, EndSession;
  }

  lemma {:induction false} SessionStopMinds(st: State, c: Context, e: Event)
    requires st.SessionStop?
    ensures Minds(st, c, e, FeedSessionStop(st, c, e))
  {
    hide Kept, Conforms, EndSession;
  }

  predicate FedMinds(st: State, c: Context, e: Event, now: nat) {
    hide *;
    Minds(st, c, e, Feed(st, c, e, now))
  }

  lemma {:induction false} FeedMinds(st: State, c: Context, e: Event, now: nat)
    ensures FedMinds(st, c, e, now)
  {
    hide Feed, Minds, Kept, Conforms, FeedSupportedAppProtocol, FeedSessionSetup, FeedAuthorizationSetup, FeedAuthorization,
      FeedServiceDiscovery, FeedServiceDetail, FeedServiceSelection, FeedAcParameters, FeedDcParameters, FeedScheduleExchange,
      FeedCableCheck, FeedPreCharge, FeedPowerDelivery, FeedAcLoop, FeedDcLoop, FeedWelding, FeedSessionStop;
    FeedOfSetup(st, c, e, now);
    FeedOfService(st, c, e, now);
    FeedOfPreparing(st, c, e, now);
    FeedOfCharging(st, c, e, now);
    match st
    case SupportedAppProtocol => SupportedAppProtocolMinds(st, c, e);
    case SessionSetup => SessionSetupMinds(st, c, e);
    case AuthorizationSetup => AuthorizationSetupMinds(st, c, e);
    case Authorization(_, _, _) => AuthorizationMinds(st, c, e, now);
    case ServiceDiscovery => ServiceDiscoveryMinds(st, c, e);
    case ServiceDetail => ServiceDetailMinds(st, c, e);
    case ServiceSelection => ServiceSelectionMinds(st, c, e);
    case AcParameters(_) => AcParametersMinds(st, c, e);
    case DcParameters => DcParametersMinds(st, c, e);
    case ScheduleExchange(_, _, _) => ScheduleExchangeMinds(st, c, e, now);
    case CableCheck(_, _) => CableCheckMinds(st, c, e);
    case PreCharge(_, _) => PreChargeMinds(st, c, e);
    case PowerDelivery(_, _, _) => PowerDeliveryMinds(st, c, e, now);
    case AcLoop(_, _, _, _, _, _) => AcLoopMinds(st, c, e);
    case DcLoop(_, _, _, _, _, _) => DcLoopMinds(st, c, e);
    case Welding(_) => WeldingMinds(st, c, e);
    case SessionStop => SessionStopMinds(st, c, e);
  }

  /** A request that the state does not wait for is answered as such, stops the session, and does no more. */
  predicate Rejected(m: Machine, e: Event, n: Machine) {
    IsUnexpected(Id(m.state), e) ==>
      && n.state == m.state && n.ctx == m.ctx.(stopped := true)
      && n.log.signals == m.log.signals && n.log.news == m.log.news
      && n.log.responses == m.log.responses
         + match UnexpectedCode(Id(m.state), m.ctx.session, e.request)
           case Some(code) => [Response(m.ctx.session.id, code, NoBody)]
           case None => []
  }

  lemma {:induction false} UnexpectedExact(m: Machine, i: Input)
    ensures Rejected(m, i.event, Step(m, i))
  {
    hide Kept, Conforms, Step, Feed, UnexpectedCode, Expects, QuietOut;
    if i.event.Message? {
      MessageStep(m, i);
      FeedMinds(m.state, m.ctx, i.event, i.now);
    }
  }

  /** Control events and timeouts are silent, except that a contactor event can start a waiting session, and
      its timeout ends one. */
  predicate Silenced(m: Machine, e: Event, n: Machine) {
    !e.Message? && !(m.state.PowerDelivery? && (IsContactorReport(e) || e == Expired(TimeoutType.Contactor))) ==>
      && Id(n.state) == Id(m.state)
      && n.log.responses == m.log.responses && n.log.signals == m.log.signals && n.log.news == m.log.news
      && n.ctx.session == m.ctx.session && n.ctx.pauseCtx == m.ctx.pauseCtx
      && n.ctx.stopped == m.ctx.stopped && n.ctx.paused == m.ctx.paused
  }

  lemma {:induction false} EventsAreSilent(m: Machine, i: Input)
    ensures Silenced(m, i.event, Step(m, i))
  {
    hide Kept, Conforms, Feed, Absorb, RejectedOut, IsContactorReport, Id;
    ReceiveKeeps(m, i.event);
    FeedMinds(m.state, Receive(m, i.event).ctx, i.event, i.now);
  }
}
