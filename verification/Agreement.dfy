/** Service agreement over runs: what is selected was discovered and advertised before. */
module Agreement {
  import opened Common
  import opened Types
  import opened Negotiation
  import opened Machine
  import opened Frame

  predicate WasDiscovered(log: seq<Response>, s: Service) {
    exists r <- log :: r.body.DiscoveryBody? && s in r.body.energy
  }

  /** A service-detail response named the parameter set under this id. */
  predicate WasAdvertised(log: seq<Response>, s: Service, id: uint8, p: ParameterSet) {
    exists r <- log :: r.body.DetailBody? && r.body.service == s && EnergySet(id, p) in r.body.sets
  }

  /** Everything the session keeps as offered was told to the EV. */
  predicate Honest(o: OfferedServices, log: seq<Response>) {
    && (forall s <- o.energy :: WasDiscovered(log, s))
    && (forall s, k | s in o.sets && k in o.sets[s] :: WasAdvertised(log, s, k, o.sets[s][k]))
  }

  lemma {:induction false} HonestGrows(o: OfferedServices, a: seq<Response>, b: seq<Response>)
    requires Honest(o, a) && a <= b
    ensures Honest(o, b)
  {
    assert forall r <- a :: r in b;
    forall s <- o.energy
      ensures WasDiscovered(b, s)
    {
      assert WasDiscovered(a, s);
    }
    forall s, k | s in o.sets && k in o.sets[s]
      ensures WasAdvertised(b, s, k, o.sets[s][k])
    {
      assert WasAdvertised(a, s, k, o.sets[s][k]);
    }
  }

  lemma {:induction false} DiscoverHonest(
      s: Session, config: SessionConfig, supported: Option<seq<uint16>>, log: seq<Response>, r: Response)
    requires var o := Discover(s, config, supported).offered;
      r.body == DiscoveryBody(o.energy, o.vas)
    ensures Honest(Discover(s, config, supported).offered, log + [r])
  {
    assert (log + [r])[|log|] == r;
  }

  lemma {:induction false} OfferedWasAdvertised(earlier: map<uint8, ParameterSet>, sets: seq<ParameterSet>, k: uint8)
    requires k in Offer(earlier, sets)
    ensures (k in earlier && Offer(earlier, sets)[k] == earlier[k]) || EnergySet(k, Offer(earlier, sets)[k]) in Advertise(sets)
  {
    OfferExact(earlier, sets, k);
    var i := LastIndex(k, |sets|);
    if i >= 0 {
      assert Advertise(sets)[i] == EnergySet(k, sets[i]);
    }
  }

  /** What a detail request adds to the stored sets, it adds to the answer. */
  lemma {:induction false} DetailStores(s: Session, config: SessionConfig, wanted: uint16, reply: Option<seq<VasSet>>)
    ensures var d := Detail(s, config, wanted, reply);
      && d.session.offered.energy == s.offered.energy
      && (d.code.IsFailed() ==> d.session == s)
      && forall t, k | t in d.session.offered.sets && k in d.session.offered.sets[t] ::
           || (t in s.offered.sets && k in s.offered.sets[t] && d.session.offered.sets[t][k] == s.offered.sets[t][k])
           || (!d.code.IsFailed() && t == wanted && EnergySet(k, d.session.offered.sets[t][k]) in d.sets)
  {
    hide Usable, Offer, Advertise, ListOf, InternetIds, ParkingIds, CustomIds, IdsOf;
    forall k | k in Offer(SetsOf(s.offered, wanted), Usable(wanted, ListOf(config, wanted))) {
      OfferedWasAdvertised(SetsOf(s.offered, wanted), Usable(wanted, ListOf(config, wanted)), k);
    }
  }

  lemma {:induction false} DetailHonest(
      s: Session, config: SessionConfig, wanted: uint16, reply: Option<seq<VasSet>>, log: seq<Response>, r: Response)
    requires Honest(s.offered, log)
    requires var d := Detail(s, config, wanted, reply);
      !d.code.IsFailed() ==> r.body == DetailBody(wanted, d.sets)
    ensures Honest(Detail(s, config, wanted, reply).session.offered, log + [r])
  {
    hide Detail;
    DetailStores(s, config, wanted, reply);
    HonestGrows(s.offered, log, log + [r]);
    assert (log + [r])[|log|] == r;
  }

  predicate Offering(m: Machine) {
    Level(m.state) < PARAMETERS ==> Honest(m.ctx.session.offered, m.log.responses)
  }

  /** What one `feed` of the four states that fill the offer does to it. */
  ghost predicate Offers(c: Context, out: Out) {
    var o, p := c.session.offered, out.ctx.session.offered;
    || (p.energy == o.energy && p.sets == o.sets)
    || (p.energy == [] && p.sets == map[])
    || (exists supported ::
         && p == Discover(c.session, c.config, supported).offered
         && out.sent.Some? && out.sent.value.body == DiscoveryBody(p.energy, p.vas))
    || (exists config, wanted, reply ::
         var d := Detail(c.session, config, wanted, reply);
         && p == d.session.offered
         && out.sent.Some? && (!d.code.IsFailed() ==> out.sent.value.body == DetailBody(wanted, d.sets)))
  }

  lemma {:induction false} DetailOffers(st: State, c: Context, e: Event)
    requires st.ServiceDetail? || st.ServiceSelection?
    requires e.Message? && e.request.ServiceDetailReq?
    ensures Offers(c, AnswerDetail(st, c, e))
  {
    hide Kept, Conforms, Detail, Discover, AbsorbReply;
    var out := AnswerDetail(st, c, e);
    if e.request.sid == c.session.id {
      var config := AbsorbReply(c.config, e.request.wanted, e.reply);
      var d := Detail(c.session, config, e.request.wanted, CustomReply(e.request.wanted, e.reply));
      assert out.ctx.session.offered == d.session.offered;
    }
  }

  lemma {:induction false} SetupOffers(st: State, c: Context, e: Event)
    requires st.SessionSetup?
    ensures Offers(c, FeedSessionSetup(st, c, e))
  {
    hide Kept, Conforms, Detail, Discover, Resumable;
  }

  lemma {:induction false} AuthorizationOffers(st: State, c: Context, e: Event)
    requires st.AuthorizationSetup?
    ensures Offers(c, FeedAuthorizationSetup(st, c, e))
  {
    hide Kept, Conforms, Detail, Discover, OfferedAuth;
  }

  lemma {:induction false} DiscoveryOffers(st: State, c: Context, e: Event)
    requires st.ServiceDiscovery?
    ensures Offers(c, FeedServiceDiscovery(st, c, e))
  {
    hide Kept, Conforms, Detail, Discover;
    if e.Message? && e.request.ServiceDiscoveryReq? && e.request.sid == c.session.id {
      var out := FeedServiceDiscovery(st, c, e);
      assert out.ctx.session.offered == Discover(c.session, c.config, e.request.supported).offered;
    }
  }

  lemma {:induction false} DetailStateOffers(st: State, c: Context, e: Event)
    requires st.ServiceDetail?
    ensures Offers(c, FeedServiceDetail(st, c, e))
  {
    hide Kept, Conforms, Detail, Discover, AnswerDetail;
    if e.Message? && e.request.ServiceDetailReq? {
      DetailOffers(st, c, e);
    }
  }

  lemma {:induction false} SelectionOffers(st: State, c: Context, e: Event)
    requires st.ServiceSelection?
    ensures Offers(c, FeedServiceSelection(st, c, e))
  {
    hide Kept, Conforms, Detail, Discover, AnswerDetail, SelectServices;
    if e.Message? && e.request.ServiceDetailReq? {
      DetailOffers(st, c, e);
    }
  }

  /** Elsewhere the session stays as it is. */
  lemma {:induction false} OtherOffers(st: State, c: Context, e: Event, now: nat)
    requires !Negotiating(Id(st))
    ensures Offers(c, Feed(st, c, e, now))
  {
    hide Feed, Conforms, Detail, Discover;
    assert Kept(st, c, Feed(st, c, e, now));
  }

  lemma {:induction false} FeedOffers(st: State, c: Context, e: Event, now: nat)
    ensures Offers(c, Feed(st, c, e, now))
  {
    hide Kept, Conforms, Offers, Feed, FeedSupportedAppProtocol, FeedSessionSetup, FeedAuthorizationSetup,
      FeedAuthorization, FeedServiceDiscovery, FeedServiceDetail, FeedServiceSelection;
    FeedOfSetup(st, c, e, now);
    FeedOfService(st, c, e, now);
    if st.SessionSetup? {
      SetupOffers(st, c, e);
    } else if st.AuthorizationSetup? {
      AuthorizationOffers(st, c, e);
    } else if st.ServiceDiscovery? {
      DiscoveryOffers(st, c, e);
    } else if st.ServiceDetail? {
      DetailStateOffers(st, c, e);
    } else if st.ServiceSelection? {
      SelectionOffers(st, c, e);
    } else {
      OtherOffers(st, c, e, now);
    }
  }

  lemma {:induction false} OffersHonest(c: Context, out: Out, log: seq<Response>, next: seq<Response>)
    requires Offers(c, out) && Honest(c.session.offered, log)
    requires next == if out.sent.Some? then log + [Response(out.ctx.session.id, out.sent.value.code, out.sent.value.body)] else log
    ensures Honest(out.ctx.session.offered, next)
  {
    hide Detail, Discover, WasDiscovered, WasAdvertised;
    var o, p := c.session.offered, out.ctx.session.offered;
    HonestGrows(o, log, next);
    if p.energy == o.energy && p.sets == o.sets {
    } else if p.energy == [] && p.sets == map[] {
    } else {
      var r := Response(out.ctx.session.id, out.sent.value.code, out.sent.value.body);
      if supported :| p == Discover(c.session, c.config, supported).offered
                      && out.sent.Some? && out.sent.value.body == DiscoveryBody(p.energy, p.vas) {
        DiscoverHonest(c.session, c.config, supported, log, r);
      } else {
        var config, wanted, reply :|
          var d := Detail(c.session, config, wanted, reply);
          && p == d.session.offered
          && out.sent.Some? && (!d.code.IsFailed() ==> out.sent.value.body == DetailBody(wanted, d.sets));
        DetailHonest(c.session, config, wanted, reply, log, r);
      }
    }
  }

  lemma {:induction false} OfferingStep(m: Machine, i: Input)
    requires Offering(m)
    ensures Offering(Step(m, i))
  {
    hide Step, Outcome, Absorb, Offers, Honest, Level, Kept, Admits, Moves, Guarded, Signals, Tells, Shown;
    StepClimbs(m, i);
    if Level(Step(m, i).state) < PARAMETERS {
      StepRecords(m, i);
      ReceiveKeeps(m, i.event);
      OutcomeOffers(m, i);
      OffersHonest(Receive(m, i.event).ctx, Outcome(m, i), m.log.responses, Step(m, i).log.responses);
    }
  }

  lemma OutcomeOffers(m: Machine, i: Input)
    ensures Offers(Receive(m, i.event).ctx, Outcome(m, i))
  {
    hide Feed, Absorb, Offers;
    FeedOffers(m.state, Receive(m, i.event).ctx, i.event, i.now);
  }

  lemma {:induction false} OfferingRun(
      config: SessionConfig, cert: Option<CertHash>, p: Option<PauseContext>, inputs: seq<Input>)
    ensures Offering(Run(Init(config, cert, p), inputs))
  {
    hide Step;
    if inputs != [] {
      OfferingRun(config, cert, p, inputs[..|inputs| - 1]);
      OfferingStep(Run(Init(config, cert, p), inputs[..|inputs| - 1]), inputs[|inputs| - 1]);
    }
  }

  /** A selection request moves a session exactly when it is the session's own and selects successfully. */
  lemma {:induction false} SelectionMoves(st: State, c: Context, e: Event)
    requires st.ServiceSelection? && e.Message? && e.request.ServiceSelectionReq?
    ensures var out, r := FeedServiceSelection(st, c, e), SelectServices(c.session, e.request.energy, e.request.setId, e.request.vas);
      && (!out.state.ServiceSelection? <==> e.request.sid == c.session.id && r.1 == Ok)
      && (!out.state.ServiceSelection? ==> out.ctx.session == r.0 && out.sent == Some(Bare(Ok)))
      && (out.state.ServiceSelection? ==> out.sent.Some? && out.sent.value.code.IsFailed())
  {
    hide Kept, Conforms, SelectServices, FindVas, Complete;
    SelectionExact(c.session, e.request.energy, e.request.setId, e.request.vas);
  }

  /** Parameter sets are advertised as the charger's lists number them. */
  predicate Listed(log: seq<Response>, config: SessionConfig) {
    forall r <- log | r.body.DetailBody? :: ListedBody(r.body, config)
  }

  predicate ListedBody(body: Body, config: SessionConfig)
    requires body.DetailBody?
  {
    forall a <- body.sets | a.EnergySet? :: a in Advertise(Usable(body.service, ListOf(config, body.service)))
  }

  lemma {:induction false} DetailLists(s: Session, config: SessionConfig, wanted: uint16, reply: Option<seq<VasSet>>)
    ensures ListedBody(DetailBody(wanted, Detail(s, config, wanted, reply).sets), config)
  {
    hide Usable, Offer, ListOf, InternetId;
  }

  lemma {:induction false} FeedLists(st: State, c: Context, e: Event)
    requires st.ServiceDetail? || st.ServiceSelection?
    ensures var out := if st.ServiceDetail? then FeedServiceDetail(st, c, e) else FeedServiceSelection(st, c, e);
      out.sent.Some? && out.sent.value.body.DetailBody? ==> ListedBody(out.sent.value.body, c.config)
  {
    hide Kept, Conforms, Detail, SelectServices, Advertise, Usable;
    if e.Message? && e.request.ServiceDetailReq? {
      var config := AbsorbReply(c.config, e.request.wanted, e.reply);
      DetailLists(c.session, config, e.request.wanted, CustomReply(e.request.wanted, e.reply));
    }
  }

  lemma {:induction false} ListedStep(m: Machine, i: Input)
    requires Listed(m.log.responses, m.ctx.config)
    ensures Listed(Step(m, i).log.responses, m.ctx.config)
  {
    hide FeedServiceDetail, FeedServiceSelection, FeedCharging, Absorb, Kept, Moves, Guarded, Ticks, Signals, Shown, Advertise, Usable;
    ReceiveKeeps(m, i.event);
    var c := Receive(m, i.event).ctx;
    var out := Feed(m.state, c, i.event, i.now);
    assert Conforms(m.state, c, i.event, out);
    if m.state.ServiceDetail? || m.state.ServiceSelection? {
      FeedLists(m.state, c, i.event);
    } else {
      hide Feed;
    }
  }

  lemma {:induction false} ListedRun(
      config: SessionConfig, cert: Option<CertHash>, p: Option<PauseContext>, inputs: seq<Input>)
    ensures var m := Run(Init(config, cert, p), inputs);
      Listed(m.log.responses, config) && m.ctx.config.lists == config.lists
  {
    hide Step, ListedBody;
    if inputs != [] {
      var m := Run(Init(config, cert, p), inputs[..|inputs| - 1]);
      ListedRun(config, cert, p, inputs[..|inputs| - 1]);
      ListedUnder(m.log.responses, config, m.ctx.config);
      ListedStep(m, inputs[|inputs| - 1]);
      ListedUnder(Run(Init(config, cert, p), inputs).log.responses, m.ctx.config, config);
      StepCarries(m, inputs[|inputs| - 1]);
    }
  }

  lemma ListedUnder(log: seq<Response>, a: SessionConfig, b: SessionConfig)
    requires Listed(log, a) && a.lists == b.lists
    ensures Listed(log, b)
  {
    assert forall s :: ListOf(a, s) == ListOf(b, s);
  }

  /** Where no id of a service is reused, a response advertised at most one set under it. */
  lemma {:induction false} AdvertisedOnce(
      config: SessionConfig, cert: Option<CertHash>, p: Option<PauseContext>, inputs: seq<Input>,
      s: Service, k: uint8, a: ParameterSet, b: ParameterSet)
    requires NoClash(Usable(s, ListOf(config, s)))
    requires var log := Run(Init(config, cert, p), inputs).log.responses;
      WasAdvertised(log, s, k, a) && WasAdvertised(log, s, k, b)
    ensures a == b
  {
    var log, sets := Run(Init(config, cert, p), inputs).log.responses, Usable(s, ListOf(config, s));
    ListedRun(config, cert, p, inputs);
    hide Run, Usable, ListOf;
    var q :| q in log && q.body.DetailBody? && q.body.service == s && EnergySet(k, a) in q.body.sets;
    var r :| r in log && r.body.DetailBody? && r.body.service == s && EnergySet(k, b) in r.body.sets;
    assert ListedBody(q.body, config) && ListedBody(r.body, config);
    var i :| 0 <= i < |sets| && Advertise(sets)[i] == EnergySet(k, a);
    var j :| 0 <= j < |sets| && Advertise(sets)[j] == EnergySet(k, b);
  }

  predicate AsksSelection(e: Event) {
    e.Message? && e.request.ServiceSelectionReq?
  }

  /** The step is what the state makes of the request. */
  predicate IsSelection(m: Machine, i: Input, n: Machine) {
    hide *;
    m.state.ServiceSelection? ==>
      var out := FeedServiceSelection(m.state, m.ctx, i.event);
      n.state == out.state && n.ctx.session == out.ctx.session
  }

  lemma {:induction false} SelectionStep(m: Machine, i: Input)
    requires m.state.ServiceSelection? && i.event.Message?
    ensures IsSelection(m, i, Step(m, i))
  {
    hide Kept, Conforms, Step, Feed, FeedServiceDiscovery, FeedServiceDetail, FeedServiceSelection, Recorded;
    MessageStep(m, i);
    FeedOfService(m.state, m.ctx, i.event, i.now);
  }

  predicate SelectsAdvertised(m: Machine, n: Machine, e: Event) {
    AsksSelection(e) ==>
      var asked := e.request;
      var key, sets := asked.setId % 0x100, SetsOf(m.ctx.session.offered, asked.energy);
      && asked.sid == m.ctx.session.id
      && WasDiscovered(m.log.responses, asked.energy)
      && key in sets && WasAdvertised(m.log.responses, asked.energy, key, sets[key])
      && n.ctx.session.selected == SelectedFrom(asked.energy, sets[key])
  }

  lemma {:induction false} SelectionAgrees(m: Machine, i: Input)
    requires Offering(m) && m.state.ServiceSelection? && AsksSelection(i.event)
    requires !Step(m, i).state.ServiceSelection?
    ensures SelectsAdvertised(m, Step(m, i), i.event)
  {
    hide Step, FeedServiceSelection, SelectServices, WasDiscovered, WasAdvertised, SelectedFrom, Complete, FindVas;
    var asked := i.event.request;
    SelectionStep(m, i);
    SelectionMoves(m.state, m.ctx, i.event);
    SelectionExact(m.ctx.session, asked.energy, asked.setId, asked.vas);
  }

  /** On every run, a selection that succeeds holds a parameter set that an earlier response
      advertised under the id modulo 256, for a service that an earlier response offered. */
  lemma {:induction false} SelectionWasAdvertised(
      config: SessionConfig, cert: Option<CertHash>, p: Option<PauseContext>, inputs: seq<Input>, i: Input)
    requires Run(Init(config, cert, p), inputs).state.ServiceSelection? && AsksSelection(i.event)
    requires !Step(Run(Init(config, cert, p), inputs), i).state.ServiceSelection?
    ensures var m := Run(Init(config, cert, p), inputs);
      SelectsAdvertised(m, Step(m, i), i.event)
  {
    hide Run, Step, SelectsAdvertised;
    OfferingRun(config, cert, p, inputs);
    SelectionAgrees(Run(Init(config, cert, p), inputs), i);
  }
}
