/** The session id gate: after session setup, only requests under the current id move a session. */
module Gate {
  import opened Common
  import opened Types
  import opened Machine
  import opened Frame

  /** A control event, a timeout, a message without a session id, or a request under another id. */
  predicate IsStranger(e: Event, own: SessionId) {
    !e.Message? || !HasSessionId(e.request) || IsForeign(e, own)
  }

  /** No request of the session itself waits for the contactor. */
  predicate NothingParked(m: Machine) {
    m.state.PowerDelivery? && m.state.parked.Some? ==> m.state.parked.value.sid != m.ctx.session.id
  }

  /** What a request under another id signals: the steps of a preparation that it seems to begin. */
  function ForeignSignals(st: State, s: Selected, r: Request): seq<Signal> {
    if st.CableCheck? && r.CableCheckReq? && !st.initiated then [StartCableCheck]
    else if st.PreCharge? && r.PreChargeReq? && !st.begun then [PreChargeStarted]
    else if st.PowerDelivery? && r.PowerDeliveryReq? && r.progress == Start then
      if s.IsAc() && !st.closed then [SetupFinished, AcCloseContactor] else [SetupFinished]
    else if (st.AcLoop? && r.AcLoopReq? && st.acFirst) || (st.DcLoop? && r.DcLoopReq? && st.dcFirst) then [ChargeLoopStarted]
    else []
  }

  /** What it does to the pause context: a stop request after charging takes effect all the same. */
  function ForeignPause(st: State, c: Context, r: Request): Option<PauseContext> {
    if !(st.Welding? || st.SessionStop?) || !r.SessionStopReq? then c.pauseCtx
    else match r.ending
      case Pause => if c.pauseCtx.Some? then Some(c.pauseCtx.value.(selected := c.session.selected)) else None
      case Terminate => None
      case ServiceRenegotiation => c.pauseCtx
  }

  predicate ForeignEffect(st: State, c: Context, e: Event, out: Out) {
    IsForeign(e, c.session.id) ==>
      out.signals == ForeignSignals(st, c.session.selected, e.request) && out.ctx.pauseCtx == ForeignPause(st, c, e.request)
  }

  lemma {:induction false} ForeignPreparing(st: State, c: Context, e: Event)
    requires IsForeign(e, c.session.id)
    ensures st.CableCheck? ==> ForeignEffect(st, c, e, FeedCableCheck(st, c, e))
    ensures st.PreCharge? ==> ForeignEffect(st, c, e, FeedPreCharge(st, c, e))
  {
    hide Kept, Conforms;
  }

  lemma {:induction false} ForeignStarting(st: State, c: Context, e: Event, now: nat)
    requires st.PowerDelivery? && IsForeign(e, c.session.id)
    ensures ForeignEffect(st, c, e, FeedPowerDelivery(st, c, e, now))
  {
    hide Kept, Conforms, StartTimer, StopTimer;
  }

  lemma {:induction false} ForeignLooping(st: State, c: Context, e: Event)
    requires IsForeign(e, c.session.id)
    ensures st.AcLoop? ==> ForeignEffect(st, c, e, FeedAcLoop(st, c, e))
    ensures st.DcLoop? ==> ForeignEffect(st, c, e, FeedDcLoop(st, c, e))
  {
    hide Kept, Conforms, AcLoopReply, DcLoopReply;
  }

  lemma {:induction false} ForeignEnding(st: State, c: Context, e: Event)
    requires IsForeign(e, c.session.id)
    ensures st.Welding? ==> ForeignEffect(st, c, e, FeedWelding(st, c, e))
    ensures st.SessionStop? ==> ForeignEffect(st, c, e, FeedSessionStop(st, c, e))
  {
    hide Kept, Conforms;
  }

  /** Elsewhere it signals nothing and leaves the pause context alone. */
  lemma {:induction false} ForeignElsewhere(st: State, c: Context, e: Event, now: nat)
    requires Level(st) > Rank(AtSessionSetup) && IsForeign(e, c.session.id)
    requires !st.CableCheck? && !st.PreCharge? && !st.PowerDelivery? && !st.AcLoop? && !st.DcLoop?
    requires !st.Welding? && !st.SessionStop?
    ensures ForeignEffect(st, c, e, Feed(st, c, e, now))
  {
    hide Feed, Admits, Moves, Shown, Ticks, Tells, Edge, SameEquipment, SameCaches;
    assert Kept(st, c, Feed(st, c, e, now)) && Conforms(st, c, e, Feed(st, c, e, now));
  }

  lemma {:induction false} ForeignFed(st: State, c: Context, e: Event, now: nat)
    requires Level(st) > Rank(AtSessionSetup) && IsForeign(e, c.session.id)
    ensures ForeignEffect(st, c, e, Feed(st, c, e, now))
  {
    hide Kept, Conforms, Feed, ForeignEffect, Level, FeedAcParameters, FeedDcParameters, FeedScheduleExchange,
      FeedCableCheck, FeedPreCharge, FeedPowerDelivery, FeedAcLoop, FeedDcLoop, FeedWelding, FeedSessionStop;
    if st.CableCheck? || st.PreCharge? {
      FeedOfPreparing(st, c, e, now);
      ForeignPreparing(st, c, e);
    } else if st.PowerDelivery? {
      FeedOfCharging(st, c, e, now);
      ForeignStarting(st, c, e, now);
    } else if st.AcLoop? || st.DcLoop? {
      FeedOfCharging(st, c, e, now);
      ForeignLooping(st, c, e);
    } else if st.Welding? || st.SessionStop? {
      FeedOfCharging(st, c, e, now);
      ForeignEnding(st, c, e);
    } else {
      ForeignElsewhere(st, c, e, now);
    }
  }

  /** All that a request under another id can do after session setup. */
  predicate Refused(m: Machine, e: Event, n: Machine) {
    && Id(n.state) == Id(m.state) && n.ctx.session == m.ctx.session
    && (n.log.responses == m.log.responses
        || (n.log.responses != [] && n.log.responses[|n.log.responses| - 1].code.IsFailed()
            && n.log.responses[|n.log.responses| - 1].sid == m.ctx.session.id))
    && (e.Message? ==>
          && n.log.signals == m.log.signals + ForeignSignals(m.state, m.ctx.session.selected, e.request)
          && n.ctx.pauseCtx == ForeignPause(m.state, m.ctx, e.request))
  }

  /** A request under another id is parked or refused under the session's own id. It moves nothing, but
      signals what it seems to begin, and a stop request after charging still pauses or ends the session. */
  lemma {:induction false} ForeignRefused(m: Machine, i: Input)
    requires Level(m.state) > Rank(AtSessionSetup) && IsForeign(i.event, m.ctx.session.id)
    ensures Refused(m, i.event, Step(m, i))
  {
    hide Step, Feed, Kept, ForeignSignals, ForeignPause, Admits, Moves, Signals, Shown, Ticks, Tells;
    MessageStep(m, i);
    ForeignFed(m.state, m.ctx, i.event, i.now);
    assert Conforms(m.state, m.ctx, i.event, Feed(m.state, m.ctx, i.event, i.now));
  }

  lemma {:induction false} StrangerStep(m: Machine, i: Input)
    requires Level(m.state) > Rank(AtSessionSetup) && NothingParked(m)
    requires IsStranger(i.event, m.ctx.session.id)
    ensures var n := Step(m, i);
      Id(n.state) == Id(m.state) && n.ctx.session == m.ctx.session && NothingParked(n)
  {
    hide Step, Outcome, Admits, Moves, Signals, Tells;
    StepIsOutcome(m, i);
  }

  /** No run without a request under the session's own id leaves the state or changes the session,
      even when a start request is parked first and judged when the contactor closes. */
  lemma {:induction false} StrangersMoveNothing(m: Machine, inputs: seq<Input>)
    requires Level(m.state) > Rank(AtSessionSetup) && NothingParked(m)
    requires forall i <- inputs :: IsStranger(i.event, m.ctx.session.id)
    ensures var n := Run(m, inputs);
      Id(n.state) == Id(m.state) && n.ctx.session == m.ctx.session && NothingParked(n)
  {
    hide Step;
    if inputs != [] {
      var before := inputs[..|inputs| - 1];
      assert forall i <- before :: i in inputs;
      StrangersMoveNothing(m, before);
      StrangerStep(Run(m, before), inputs[|inputs| - 1]);
    }
  }
}
