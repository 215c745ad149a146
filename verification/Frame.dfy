/** What every step carries over, and what a run can no longer change. */
module Frame {
  import opened Types
  import opened Machine

  predicate Extends(a: History, b: History) {
    a.events <= b.events && a.signals <= b.signals && a.responses <= b.responses && a.news <= b.news
  }

  /** What the current state makes of an event that `poll` has cached. */
  function Outcome(m: Machine, i: Input): Out {
    Feed(m.state, Absorb(m.ctx, i.event), i.event, i.now)
  }

  /** Two contexts that differ in limits, lists and caches at most. */
  predicate Cached(c: Context, d: Context) {
    && d == c.(config := d.config, dynamicCache := d.dynamicCache, targetCache := d.targetCache, presentCache := d.presentCache)
    && d.config.auth == c.config.auth
  }

  lemma AdmitsCached(st: State, c: Context, d: Context, e: Event, out: Out)
    requires Cached(c, d) && Admits(st, d, e, out)
    ensures Admits(st, c, e, out)
  {
    hide Id, OfferedAuth;
  }

  lemma MovesCached(st: State, c: Context, d: Context, e: Event, out: Out)
    requires Cached(c, d) && Moves(st, d, e, out)
    ensures Moves(st, c, e, out)
  {
    hide Id, IsSkip, IsContactorReport;
  }

  lemma GuardedCached(st: State, c: Context, d: Context, e: Event, out: Out)
    requires Cached(c, d) && Guarded(st, d, e, out)
    ensures Guarded(st, c, e, out)
  {
    hide Id, Rank, Level, IsContactorReport, Code.IsFailed;
  }

  lemma TellsCached(st: State, c: Context, d: Context, out: Out)
    requires Cached(c, d) && Tells(st, d, out)
    ensures Tells(st, c, out)
  {
    hide Id, Apply;
  }

  lemma ReceiveCaches(m: Machine, e: Event)
    ensures Cached(m.ctx, Receive(m, e).ctx)
  {
    hide Absorb;
    ReceiveKeeps(m, e);
  }

  lemma {:induction false} OutcomeConforms(m: Machine, i: Input)
    ensures var c, out := Receive(m, i.event).ctx, Outcome(m, i);
      && Kept(m.state, c, out)
      && Admits(m.state, c, i.event, out) && Moves(m.state, c, i.event, out) && Guarded(m.state, c, i.event, out)
      && Signals(m.state, out) && Tells(m.state, c, out) && Shown(m.state, c, i.event, out)
  {
    hide Feed, Absorb, Kept, Admits, Moves, Guarded, Signals, Tells, Shown, Ticks;
    var c := Receive(m, i.event).ctx;
    assert Conforms(m.state, c, i.event, Feed(m.state, c, i.event, i.now));
  }

  lemma {:induction false} StepRecords(m: Machine, i: Input)
    ensures var out, n := Outcome(m, i), Step(m, i);
      && n.state == out.state
      && n.log == Recorded(m.log, Id(m.state), i.event, out)
      && n.ctx == out.ctx.(timers := n.ctx.timers)
  {
    hide Feed, Absorb, Recorded, Id;
    ReceiveKeeps(m, i.event);
  }

  /** A step is the outcome of its event, recorded; caching and timers touch nothing else. */
  lemma {:induction false} StepIsOutcome(m: Machine, i: Input)
    ensures var out, n := Outcome(m, i), Step(m, i);
      && n.state == out.state
      && n.log == Recorded(m.log, Id(m.state), i.event, out)
      && n.ctx.session == out.ctx.session && n.ctx.cert == m.ctx.cert && n.ctx.pauseCtx == out.ctx.pauseCtx
      && Admits(m.state, m.ctx, i.event, out)
      && Moves(m.state, m.ctx, i.event, out)
      && Guarded(m.state, m.ctx, i.event, out)
      && Signals(m.state, out)
      && Tells(m.state, m.ctx, out)
  {
    hide Step, Outcome, Recorded, Admits, Moves, Guarded, Signals, Tells, Shown, Receive, Id, Edge;
    var c, out := Receive(m, i.event).ctx, Outcome(m, i);
    StepRecords(m, i);
    OutcomeConforms(m, i);
    ReceiveCaches(m, i.event);
    AdmitsCached(m.state, m.ctx, c, i.event, out);
    MovesCached(m.state, m.ctx, c, i.event, out);
    GuardedCached(m.state, m.ctx, c, i.event, out);
    TellsCached(m.state, m.ctx, c, out);
  }

  predicate Carried(m: Machine, n: Machine) {
    && Extends(m.log, n.log)
    && (Id(n.state) == Id(m.state) || Edge(Id(m.state), Id(n.state)))
    && n.ctx.cert == m.ctx.cert
    && (m.ctx.stopped ==> n.ctx.stopped) && (m.ctx.paused ==> n.ctx.paused)
    && (Id(n.state) != Id(m.state) ==> n.ctx.stopped == m.ctx.stopped)
    && n.ctx.config.provider == m.ctx.config.provider && n.ctx.config.lists == m.ctx.config.lists
    && n.ctx.config.supplyLimits == m.ctx.config.supplyLimits && n.ctx.config.auth == m.ctx.config.auth
    && n.ctx.config.customProtocol == m.ctx.config.customProtocol
    && (!Negotiating(Id(m.state)) ==> n.ctx.session == m.ctx.session)
    && (!m.state.SessionSetup? ==> n.ctx.session.id == m.ctx.session.id)
    && (!m.state.SessionSetup? && !m.state.ServiceSelection? ==> n.ctx.session.selected == m.ctx.session.selected)
    && (!Pausing(Id(m.state)) ==> n.ctx.pauseCtx == m.ctx.pauseCtx && n.log.news == m.log.news)
  }

  lemma {:induction false} StepCarries(m: Machine, i: Input)
    ensures Carried(m, Step(m, i))
  {
    hide Step, Outcome, Admits, Moves, Guarded, Signals, Tells, Shown, Id, Edge, Absorb;
    ReceiveKeeps(m, i.event);
    StepRecords(m, i);
    OutcomeConforms(m, i);
  }

  /** A step caches what its event updates; the states show the caches from their entry on. */
  lemma {:induction false} StepShows(m: Machine, i: Input)
    ensures var c, n := Absorb(m.ctx, i.event), Step(m, i);
      && SameCaches(n.ctx, c)
      && n.ctx.config.dcLimits == c.config.dcLimits && n.ctx.config.acLimits == c.config.acLimits
      && Shown(m.state, c, i.event, Outcome(m, i)) && n.state == Outcome(m, i).state
  {
    hide Step, Outcome, Absorb, Admits, Moves, Guarded, Signals, Tells, Shown, Id, Edge, Recorded;
    StepRecords(m, i);
    OutcomeConforms(m, i);
  }

  /** No step falls back, and from charge parameter discovery on none changes the session. */
  lemma {:induction false} StepClimbs(m: Machine, i: Input)
    ensures var n := Step(m, i);
      && Level(m.state) <= Level(n.state)
      && (Id(m.state) != Id(n.state) ==> Level(m.state) < Level(n.state))
      && (Level(m.state) >= PARAMETERS ==> n.ctx.session == m.ctx.session)
  {
    hide Step, Extends;
    StepCarries(m, i);
    hide Id;
    EdgeClimbs(Id(m.state), Id(Step(m, i).state));
  }

  lemma EdgeClimbs(a: StateId, b: StateId)
    ensures Edge(a, b) ==> Rank(a) < Rank(b) <= LAST_RANK
    ensures Negotiating(a) ==> Rank(a) < PARAMETERS
  {
  }

  /** Once charge parameters are discussed, the session record never changes again. */
  lemma {:induction false} SessionFrozen(m: Machine, inputs: seq<Input>)
    requires Level(m.state) >= PARAMETERS
    ensures Level(Run(m, inputs).state) >= PARAMETERS
    ensures Run(m, inputs).ctx.session == m.ctx.session
    ensures Run(m, inputs).ctx.config.provider == m.ctx.config.provider
  {
    hide Step;
    if inputs != [] {
      SessionFrozen(m, inputs[..|inputs| - 1]);
      StepCarries(Run(m, inputs[..|inputs| - 1]), inputs[|inputs| - 1]);
    }
  }

  lemma {:induction false} HistoryExtends(m: Machine, inputs: seq<Input>)
    ensures Extends(m.log, Run(m, inputs).log)
  {
    hide Step;
    if inputs != [] {
      HistoryExtends(m, inputs[..|inputs| - 1]);
      StepCarries(Run(m, inputs[..|inputs| - 1]), inputs[|inputs| - 1]);
    }
  }

  /** The first n elements, or all. */
  function Prefix<T>(s: seq<T>, n: nat): seq<T> {
    if n <= |s| then s[..n] else s
  }

  /** The machine after the first n inputs. */
  function RunTo(m: Machine, inputs: seq<Input>, n: nat): Machine {
    hide Run;
    Run(m, Prefix(inputs, n))
  }

  lemma {:induction false} RunSplit(m: Machine, a: seq<Input>, b: seq<Input>)
    ensures Run(m, a + b) == Run(Run(m, a), b)
  {
    hide Step;
    if b == [] {
      assert a + b == a;
    } else {
      assert (a + b)[..|a + b| - 1] == a + b[..|b| - 1];
      RunSplit(m, a, b[..|b| - 1]);
    }
  }

  lemma RunOneMore(m: Machine, inputs: seq<Input>, i: Input)
    ensures Run(m, inputs + [i]) == Step(Run(m, inputs), i)
  {
    hide Step;
    assert (inputs + [i])[..|inputs + [i]| - 1] == inputs;
  }

  /** A message is fed as it is: nothing is cached for it, and no timer is reset after it. */
  lemma {:induction false} MessageStep(m: Machine, i: Input)
    requires i.event.Message?
    ensures var out, n := Feed(m.state, m.ctx, i.event, i.now), Step(m, i);
      n.state == out.state && n.ctx == out.ctx && n.log == Recorded(m.log, Id(m.state), i.event, out)
  {
    hide Feed, Recorded;
  }

  /** Which function `Feed` calls in the states that set a session up. */
  predicate FedInSetup(st: State, c: Context, e: Event, now: nat) {
    hide *;
    && (st.SupportedAppProtocol? ==> Feed(st, c, e, now) == FeedSupportedAppProtocol(st, c, e))
    && (st.SessionSetup? ==> Feed(st, c, e, now) == FeedSessionSetup(st, c, e))
    && (st.AuthorizationSetup? ==> Feed(st, c, e, now) == FeedAuthorizationSetup(st, c, e))
    && (st.Authorization? ==> Feed(st, c, e, now) == FeedAuthorization(st, c, e, now))
  }

  lemma FeedOfSetup(st: State, c: Context, e: Event, now: nat)
    ensures FedInSetup(st, c, e, now)
  {
    hide Kept, Conforms, FeedSupportedAppProtocol, FeedSessionSetup, FeedAuthorizationSetup, FeedAuthorization, FeedCharging,
      FeedServiceDiscovery, FeedServiceDetail, FeedServiceSelection;
  }

  /** Which function it calls in the states that agree on services. */
  predicate FedInService(st: State, c: Context, e: Event, now: nat) {
    hide *;
    && (st.ServiceDiscovery? ==> Feed(st, c, e, now) == FeedServiceDiscovery(st, c, e))
    && (st.ServiceDetail? ==> Feed(st, c, e, now) == FeedServiceDetail(st, c, e))
    && (st.ServiceSelection? ==> Feed(st, c, e, now) == FeedServiceSelection(st, c, e))
  }

  lemma FeedOfService(st: State, c: Context, e: Event, now: nat)
    ensures FedInService(st, c, e, now)
  {
    hide Kept, Conforms, FeedServiceDiscovery, FeedServiceDetail, FeedServiceSelection, FeedCharging,
      FeedSupportedAppProtocol, FeedSessionSetup, FeedAuthorizationSetup, FeedAuthorization;
  }

  /** Which function it calls in the states before the energy transfer. */
  predicate FedInPreparing(st: State, c: Context, e: Event, now: nat) {
    hide *;
    && (st.AcParameters? ==> Feed(st, c, e, now) == FeedAcParameters(st, c, e))
    && (st.DcParameters? ==> Feed(st, c, e, now) == FeedDcParameters(st, c, e))
    && (st.ScheduleExchange? ==> Feed(st, c, e, now) == FeedScheduleExchange(st, c, e, now))
    && (st.CableCheck? ==> Feed(st, c, e, now) == FeedCableCheck(st, c, e))
    && (st.PreCharge? ==> Feed(st, c, e, now) == FeedPreCharge(st, c, e))
  }

  lemma FeedOfPreparing(st: State, c: Context, e: Event, now: nat)
    ensures FedInPreparing(st, c, e, now)
  {
    hide Kept, Conforms, FeedAcParameters, FeedDcParameters, FeedScheduleExchange, FeedCableCheck, FeedPreCharge, FeedSetup,
      FeedPowerDelivery, FeedAcLoop, FeedDcLoop, FeedWelding, FeedSessionStop;
  }

  /** Which function it calls from there on. */
  predicate FedInCharging(st: State, c: Context, e: Event, now: nat) {
    hide *;
    && (st.PowerDelivery? ==> Feed(st, c, e, now) == FeedPowerDelivery(st, c, e, now))
    && (st.AcLoop? ==> Feed(st, c, e, now) == FeedAcLoop(st, c, e))
    && (st.DcLoop? ==> Feed(st, c, e, now) == FeedDcLoop(st, c, e))
    && (st.Welding? ==> Feed(st, c, e, now) == FeedWelding(st, c, e))
    && (st.SessionStop? ==> Feed(st, c, e, now) == FeedSessionStop(st, c, e))
  }

  lemma FeedOfCharging(st: State, c: Context, e: Event, now: nat)
    ensures FedInCharging(st, c, e, now)
  {
    hide Kept, Conforms, FeedPowerDelivery, FeedAcLoop, FeedDcLoop, FeedWelding, FeedSessionStop, FeedSetup,
      FeedAcParameters, FeedDcParameters, FeedScheduleExchange, FeedCableCheck, FeedPreCharge;
  }
}
