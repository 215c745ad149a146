/** Safety over all runs: authorization before energy, the AC and DC branches, and how charging ends. */
module Safety {
  import opened Common
  import opened Types
  import opened Machine
  import opened Frame

  // -------------------------------------------------------- authorization first

  /** The last answer of the integrator that was delivered in `Authorization`. */
  function LastAuthorization(events: seq<Delivery>): Option<bool> {
    if events == [] then None
    else
      var d := events[|events| - 1];
      if d.at == AtAuthorization && d.event.Control? && d.event.control.AuthorizationResponse? then
        Some(d.event.control.authorized)
      else LastAuthorization(events[..|events| - 1])
  }

  function StatusOf(last: Option<bool>): AuthStatus {
    match last
    case None => Pending
    case Some(authorized) => if authorized then Accepted else Rejected
  }

  lemma {:induction false} AuthorizationHeard(m: Machine, i: Input)
    ensures StatusOf(LastAuthorization(Step(m, i).log.events)) ==
            if m.state.Authorization? then StatusAfter(i.event, StatusOf(LastAuthorization(m.log.events)))
            else StatusOf(LastAuthorization(m.log.events))
  {
    hide Step, Outcome, Admits, Guarded, Signals, Tells, Moves;
    StepIsOutcome(m, i);
    assert Step(m, i).log.events[..|m.log.events|] == m.log.events;
  }

  lemma NothingHeard(e: Event)
    ensures e.Message? ==> forall s :: StatusAfter(e, s) == s
    ensures e.Message? ==> forall b :: DoneAfter(e, b) == b
  {
  }

  /** Joined by the certificate that the pause context was made with, under a non-zero id,
      and still holding the services of the pause context. */
  predicate Rejoined(m: Machine, p: Option<PauseContext>) {
    && p.Some? && m.ctx.session.id == p.value.id && m.ctx.session.selected == p.value.selected
    && m.ctx.cert == Some(p.value.digest.cert) && p.value.digest.id != 0
    && Joined(p.value.digest.cert, p.value.digest.id, p.value.id, p.value.selected) in m.log.news
  }

  /** The last answer delivered in `Authorization` was positive. */
  predicate Authorized(m: Machine) {
    StatusOf(LastAuthorization(m.log.events)) == Accepted
  }

  /** Negotiation comes after authorization, and the pause context stays as it was until setup. */
  predicate NegotiatesAuthorized(m: Machine, p: Option<PauseContext>) {
    && (Level(m.state) <= 1 ==> m.ctx.pauseCtx == p)
    && (Level(m.state) < Rank(AtAuthorization) ==> StatusOf(LastAuthorization(m.log.events)) == Pending)
    && (m.state.Authorization? ==> m.state.status == StatusOf(LastAuthorization(m.log.events)))
    && (Rank(AtAuthorization) < Level(m.state) < PARAMETERS ==> Authorized(m))
  }

  predicate AuthorizedFirst(m: Machine, p: Option<PauseContext>) {
    && NegotiatesAuthorized(m, p)
    && (Level(m.state) >= PARAMETERS ==> Entitled(m, p))
  }

  /** How the status comes about, and that only a positive one is left behind. */
  predicate StatusMoves(m: Machine, e: Event, n: Machine) {
    && (n.state.Authorization? ==>
          n.state.status == if m.state.Authorization? then StatusAfter(e, m.state.status) else Pending)
    && (m.state.Authorization? && !n.state.Authorization? ==> m.state.status == Accepted && e.Message?)
    && (Level(n.state) <= 1 ==> n.ctx.pauseCtx == m.ctx.pauseCtx)
  }

  lemma {:induction false} StatusStep(m: Machine, i: Input)
    ensures StatusMoves(m, i.event, Step(m, i))
  {
    hide Step, Outcome, Guarded, Signals, Moves, Resumes, Absorb, Recorded;
    StepIsOutcome(m, i);
    StepShows(m, i);
    StepCarries(m, i);
    hide Edge;
    StepClimbs(m, i);
  }

  lemma {:induction false} NegotiatesAuthorizedStep(m: Machine, i: Input, p: Option<PauseContext>)
    requires NegotiatesAuthorized(m, p)
    ensures NegotiatesAuthorized(Step(m, i), p)
  {
    hide Step, LastAuthorization, StatusAfter;
    AuthorizationHeard(m, i);
    StatusStep(m, i);
    StepClimbs(m, i);
    NothingHeard(i.event);
    AuthorizationEdges(m, i);
  }

  lemma {:induction false} AuthorizationEdges(m: Machine, i: Input)
    ensures Rank(AtAuthorization) < Level(Step(m, i).state) < PARAMETERS ==> Level(m.state) >= Rank(AtAuthorization)
  {
    hide Step, Extends;
    StepCarries(m, i);
  }

  /** The session was authorized, or resumed. */
  predicate Entitled(m: Machine, p: Option<PauseContext>) {
    Authorized(m) || Rejoined(m, p)
  }

  lemma {:induction false} EntitledStep(m: Machine, i: Input, p: Option<PauseContext>)
    requires NegotiatesAuthorized(m, p) && (Level(m.state) >= PARAMETERS ==> Entitled(m, p))
    ensures Level(Step(m, i).state) >= PARAMETERS ==> Entitled(Step(m, i), p)
  {
    hide Step, Outcome, Guarded, Signals, Tells, Moves, LastAuthorization;
    AuthorizationHeard(m, i);
    StepIsOutcome(m, i);
    StepCarries(m, i);
    if m.state.SessionSetup? {
    } else {
      hide Resumes, Admits;
    }
  }

  lemma {:induction false} AuthorizedFirstStep(m: Machine, i: Input, p: Option<PauseContext>)
    requires AuthorizedFirst(m, p)
    ensures AuthorizedFirst(Step(m, i), p)
  {
    hide Step, NegotiatesAuthorized, Entitled, Level;
    NegotiatesAuthorizedStep(m, i, p);
    EntitledStep(m, i, p);
  }

  // --------------------------------------------------------- AC and DC branches

  /** The last result of the cable check that was delivered in `CableCheck`. */
  function LastCheck(events: seq<Delivery>): bool {
    if events == [] then false
    else
      var d := events[|events| - 1];
      if d.at == AtCableCheck && d.event.Control? && d.event.control.CableCheckFinished? then d.event.control.ok
      else LastCheck(events[..|events| - 1])
  }

  lemma {:induction false} CheckHeard(m: Machine, i: Input)
    ensures LastCheck(Step(m, i).log.events) ==
            if m.state.CableCheck? then DoneAfter(i.event, LastCheck(m.log.events)) else LastCheck(m.log.events)
  {
    hide Step, Outcome, Admits, Guarded, Signals, Tells, Moves;
    StepIsOutcome(m, i);
    assert Step(m, i).log.events[..|m.log.events|] == m.log.events;
  }

  predicate CableChecked(log: History) {
    StartCableCheck in log.signals && LastCheck(log.events)
  }

  predicate Prepared(log: History) {
    CableChecked(log) && PreChargeStarted in log.signals
  }

  /** The contactor event of either polarity reached `PowerDelivery`. */
  predicate ContactorReported(log: History) {
    exists d <- log.events :: d.at == AtPowerDelivery && IsContactorReport(d.event)
  }

  /** `PowerDelivery` was asked for something else than to start. */
  predicate StartSkipped(log: History) {
    exists d <- log.events :: d.at == AtPowerDelivery && IsSkip(d.event)
  }

  /** States and services agree; a parked request belongs to an AC session. */
  predicate OnBranch(m: Machine) {
    var st, s := m.state, m.ctx.session.selected;
    && (st.AcParameters? || st.AcLoop? ==> s.IsAc())
    && (st.DcParameters? || st.CableCheck? || st.PreCharge? || st.DcLoop? || st.Welding? ==> s.IsDc())
    && (Level(st) >= PARAMETERS ==> s.IsAc() || s.IsDc())
    && (st.PowerDelivery? && st.parked.Some? ==> s.IsAc() && st.parked.value.progress == Start)
    && (st.AcLoop? ==> !st.acFirst)
  }

  /** What must have happened before a DC state is reached. */
  predicate DcReady(m: Machine) {
    var st, s, log := m.state, m.ctx.session.selected, m.log;
    && (st.CableCheck? && st.initiated ==> StartCableCheck in log.signals)
    && (Level(st) < Rank(AtCableCheck) ==> !LastCheck(log.events))
    && (st.CableCheck? ==> st.done == LastCheck(log.events))
    && (st.PreCharge? ==> CableChecked(log))
    && (st.PreCharge? && st.begun ==> PreChargeStarted in log.signals)
    && (Level(st) >= Rank(AtPowerDelivery) && s.IsDc() ==> Prepared(log))
  }

  /** When the contactor must have been reported. */
  predicate AcReady(m: Machine) {
    var st, s, log := m.state, m.ctx.session.selected, m.log;
    && (st.PowerDelivery? ==> (st.closed <==> ContactorReported(log)))
    && (Level(st) < Rank(AtPowerDelivery) ==> !ContactorReported(log))
    && (Level(st) > Rank(AtPowerDelivery) && s.IsAc() ==> ContactorReported(log) || StartSkipped(log))
  }

  predicate Ready(m: Machine) {
    DcReady(m) && AcReady(m)
  }

  lemma {:induction false} OnBranchStep(m: Machine, i: Input)
    requires OnBranch(m)
    ensures OnBranch(Step(m, i))
  {
    hide Step, Outcome, Admits, Guarded, Signals, Tells, Recorded, Extends, IsSkip, IsContactorReport;
    StepCarries(m, i);
    if Id(Step(m, i).state) == Id(m.state) {
      hide Edge;
      StepIsOutcome(m, i);
    } else {
      StepIsOutcome(m, i);
    }
  }

  /** Where the flags of the DC states come from. */
  predicate CheckMoves(m: Machine, e: Event, out: Out, n: Machine) {
    && (n.state.CableCheck? ==> n.state.done == if m.state.CableCheck? then DoneAfter(e, m.state.done) else false)
    && (n.state.CableCheck? && n.state.initiated ==>
          (m.state.CableCheck? && m.state.initiated) || StartCableCheck in out.signals)
    && (n.state.PreCharge? && !m.state.PreCharge? ==>
          && m.state.CableCheck? && m.state.done && e.Message?
          && (m.state.initiated || StartCableCheck in out.signals))
    && (n.state.PreCharge? && n.state.begun ==> (m.state.PreCharge? && m.state.begun) || PreChargeStarted in out.signals)
    && (m.state.PreCharge? && !n.state.PreCharge? ==> m.state.begun || PreChargeStarted in out.signals)
    && n.log.signals == m.log.signals + out.signals
  }

  lemma {:induction false} CheckStep(m: Machine, i: Input)
    ensures CheckMoves(m, i.event, Outcome(m, i), Step(m, i))
  {
    hide Step, Outcome, Admits, Guarded, Signals, Tells, Absorb;
    StepIsOutcome(m, i);
    StepShows(m, i);
  }

  /** The schedule leads to power delivery in AC only. */
  lemma {:induction false} ScheduleBranches(m: Machine, i: Input)
    ensures var n := Step(m, i);
      m.state.ScheduleExchange? && n.state.PowerDelivery? ==>
        n.ctx.session == m.ctx.session && m.ctx.session.selected.IsAc()
  {
    hide Step, Outcome, Admits, Guarded, Signals, Tells, Recorded, Extends, Edge, OnBranch;
    StepIsOutcome(m, i);
    StepCarries(m, i);
  }

  /** DC power delivery is reached from pre-charge only, pre-charge from the cable check. */
  lemma {:induction false} DcEdges(m: Machine, i: Input)
    requires OnBranch(m)
    ensures var n := Step(m, i);
      && (Level(n.state) >= Rank(AtPowerDelivery) && n.ctx.session.selected.IsDc() ==>
            m.state.PreCharge? || (Level(m.state) >= Rank(AtPowerDelivery) && m.ctx.session.selected.IsDc()))
      && (m.state.CableCheck? && n.state.PowerDelivery? ==> false)
  {
    hide Step, Recorded, Extends;
    StepCarries(m, i);
    ScheduleBranches(m, i);
  }

  lemma {:induction false} DcReadyStep(m: Machine, i: Input)
    requires OnBranch(m) && DcReady(m)
    ensures DcReady(Step(m, i))
  {
    hide Step, Outcome, LastCheck, DoneAfter, OnBranch;
    NothingHeard(i.event);
    CheckHeard(m, i);
    CheckStep(m, i);
    DcEdges(m, i);
    StepClimbs(m, i);
  }

  lemma {:induction false} AcReadyStep(m: Machine, i: Input)
    requires OnBranch(m) && AcReady(m)
    ensures AcReady(Step(m, i))
  {
    hide Step, Outcome, Admits, Guarded, Signals, Tells, ContactorReported, StartSkipped, Recorded, Edge, IsSkip, IsContactorReport, Extends;
    StepIsOutcome(m, i);
    StepCarries(m, i);
    ReportsGrow(m, i);
    if Id(m.state) != Id(Step(m, i).state) {
      EdgesAround(Id(m.state), Id(Step(m, i).state));
    }
  }

  /** The charge loops are entered from `PowerDelivery` only. */
  lemma EdgesAround(a: StateId, b: StateId)
    requires Edge(a, b)
    ensures Rank(b) <= Rank(AtPowerDelivery) ==> Rank(a) < Rank(AtPowerDelivery)
    ensures Rank(b) > Rank(AtPowerDelivery) ==> Rank(a) > Rank(AtPowerDelivery) || a == AtPowerDelivery
    ensures a == AtPowerDelivery ==> b == AtAcLoop || b == AtDcLoop
  {
    EdgeClimbs(a, b);
    hide Rank;
    EdgeBefore(a, b);
  }

  lemma EdgeBefore(a: StateId, b: StateId)
    requires Edge(a, b)
    ensures Rank(b) > Rank(AtPowerDelivery) ==> Rank(a) >= Rank(AtPowerDelivery)
    ensures Rank(a) == Rank(AtPowerDelivery) ==> a == AtPowerDelivery
  {
  }

  /** A report or a skip is remembered, and a new one is recorded. */
  lemma ReportsGrow(m: Machine, i: Input)
    ensures ContactorReported(Step(m, i).log) <==>
            ContactorReported(m.log) || (m.state.PowerDelivery? && IsContactorReport(i.event))
    ensures StartSkipped(m.log) || (m.state.PowerDelivery? && IsSkip(i.event)) ==> StartSkipped(Step(m, i).log)
  {
    hide Step, Outcome, Admits, Moves, Guarded, Signals, Tells, IsContactorReport, IsSkip;
    StepIsOutcome(m, i);
    var before, events := m.log.events, Step(m, i).log.events;
    assert events == before + [Delivery(Id(m.state), i.event)];
    assert events[|before|] == Delivery(Id(m.state), i.event);
    assert forall d <- before :: d in events;
  }

  // ------------------------------------------------------------- end of charging

  function Count(x: Signal, signals: seq<Signal>): nat {
    if signals == [] then 0
    else Count(x, signals[..|signals| - 1]) + One(signals[|signals| - 1] == x)
  }

  lemma {:induction false} CountConcat(x: Signal, a: seq<Signal>, b: seq<Signal>)
    ensures Count(x, a + b) == Count(x, a) + Count(x, b)
  {
    if b == [] {
      assert a + b == a;
    } else {
      assert (a + b)[..|a + b| - 1] == a + b[..|b| - 1];
      CountConcat(x, a, b[..|b| - 1]);
    }
  }

  lemma {:induction false} CountAbsent(x: Signal, signals: seq<Signal>)
    requires x !in signals
    ensures Count(x, signals) == 0
  {
    if signals != [] {
      CountAbsent(x, signals[..|signals| - 1]);
    }
  }

  /** Whether the charge loop was left. */
  predicate Ended(st: State) {
    st.Welding? || st.SessionStop?
  }

  predicate Leaves(st: State, out: Out) {
    Looping(Id(st)) && Id(out.state) != Id(st)
  }

  /** The end of charging is signalled once, with the contactor of the service in use. */
  predicate EndsOnce(m: Machine) {
    var s, signals := m.ctx.session.selected, m.log.signals;
    && Count(ChargeLoopFinished, signals) == One(Ended(m.state))
    && Count(AcOpenContactor, signals) == One(Ended(m.state) && s.IsAc())
    && Count(DcOpenContactor, signals) == One(Ended(m.state) && s.IsDc())
    && NotStarted(m)
  }

  /** No start of a charge loop is signalled before it, and none in AC. */
  predicate NotStarted(m: Machine) {
    Level(m.state) < Rank(AtDcLoop) || m.ctx.session.selected.IsAc() ==> ChargeLoopStarted !in m.log.signals
  }

  /** What one `feed` adds to the signals of the end. */
  lemma EndsAdded(st: State, out: Out)
    requires Signals(st, out)
    ensures Count(ChargeLoopFinished, out.signals) == One(Leaves(st, out))
    ensures Count(AcOpenContactor, out.signals) == One(Leaves(st, out) && st.AcLoop?)
    ensures Count(DcOpenContactor, out.signals) == One(Leaves(st, out) && st.DcLoop?)
    ensures Leaves(st, out) ==> ChargeLoopStarted !in out.signals
  {
    if Leaves(st, out) {
      assert out.signals == [ChargeLoopFinished] + [out.signals[1]];
      forall x {
        CountConcat(x, [ChargeLoopFinished], [out.signals[1]]);
      }
    } else {
      forall x | IsEnd(x) {
        CountAbsent(x, out.signals);
      }
    }
  }

  predicate AtEnd(s: StateId) {
    s == AtWelding || s == AtSessionStop
  }

  lemma EndEdges(a: StateId, b: StateId)
    ensures Edge(a, b) ==> a != AtSessionStop && (AtEnd(b) <==> Looping(a) || a == AtWelding)
  {
  }

  /** Charging ends by leaving the loop of the selected service, and not again. */
  lemma {:induction false} EndsByLeaving(m: Machine, i: Input)
    requires OnBranch(m)
    ensures var n, left := Step(m, i), Leaves(m.state, Outcome(m, i));
      && Ended(n.state) == (Ended(m.state) || left)
      && !(Ended(m.state) && left)
      && (Ended(n.state) ==> n.ctx.session == m.ctx.session)
      && (left ==> m.state.AcLoop? == m.ctx.session.selected.IsAc() && m.state.DcLoop? == m.ctx.session.selected.IsDc())
  {
    hide Step, Outcome, Admits, Guarded, Moves, Signals, Tells, Recorded, Edge, Extends;
    StepIsOutcome(m, i);
    StepCarries(m, i);
    EndEdges(Id(m.state), Id(Step(m, i).state));
  }

  lemma {:induction false} NotStartedStep(m: Machine, i: Input)
    requires OnBranch(m) && NotStarted(m)
    ensures NotStarted(Step(m, i))
  {
    hide Step, Outcome, Admits, Guarded, Moves, Tells, IsEnd;
    StepIsOutcome(m, i);
    StepClimbs(m, i);
  }

  lemma {:induction false} EndsOnceStep(m: Machine, i: Input)
    requires OnBranch(m) && EndsOnce(m)
    ensures EndsOnce(Step(m, i))
  {
    hide Step, Outcome, Admits, Guarded, Moves, Tells, Count, OnBranch, Leaves, NotStarted;
    StepIsOutcome(m, i);
    EndsByLeaving(m, i);
    NotStartedStep(m, i);
    EndsAdded(m.state, Outcome(m, i));
    forall x {
      CountConcat(x, m.log.signals, Outcome(m, i).signals);
    }
  }

  // ------------------------------------------------------------------ over runs

  /** Authorization first, services fit the state, the steps before a state were done, and
      charging ends at most once. */
  predicate Safe(m: Machine, p: Option<PauseContext>) {
    AuthorizedFirst(m, p) && OnBranch(m) && Ready(m) && EndsOnce(m)
  }

  lemma {:induction false} SafeStep(m: Machine, i: Input, p: Option<PauseContext>)
    requires Safe(m, p)
    ensures Safe(Step(m, i), p)
  {
    hide Step, AuthorizedFirst, OnBranch, DcReady, AcReady, EndsOnce;
    AuthorizedFirstStep(m, i, p);
    OnBranchStep(m, i);
    DcReadyStep(m, i);
    AcReadyStep(m, i);
    EndsOnceStep(m, i);
  }

  lemma {:induction false} SafeRun(
      config: SessionConfig, cert: Option<CertHash>, p: Option<PauseContext>, inputs: seq<Input>)
    ensures Safe(Run(Init(config, cert, p), inputs), p)
  {
    hide Step;
    if inputs != [] {
      hide Safe;
      SafeRun(config, cert, p, inputs[..|inputs| - 1]);
      SafeStep(Run(Init(config, cert, p), inputs[..|inputs| - 1]), inputs[|inputs| - 1], p);
    }
  }
}
