/** What the fields of the state objects mean: measured values, wishes of the charger and first requests,
    as functions of the events that a state received. */
module Values {
  import opened Common
  import opened Types
  import opened Machine
  import opened Frame

  // --------------------------------------------------------------- functions of the events

  datatype Measurement = Measurement(voltage: real, current: real)

  /** The last measurement that was delivered to this state. */
  function LastMeasured(at: StateId, events: seq<Delivery>): Measurement {
    if events == [] then Measurement(0.0, 0.0)
    else
      var d := events[|events| - 1];
      if d.at == at && d.event.Control? && d.event.control.PresentVoltageCurrent?
      then Measurement(d.event.control.voltage, d.event.control.current)
      else LastMeasured(at, events[..|events| - 1])
  }

  /** The charger's last word on stopping, delivered to this state. */
  function StopWanted(at: StateId, events: seq<Delivery>): bool {
    if events == [] then false
    else
      var d := events[|events| - 1];
      if d.at == at && d.event.Control? && d.event.control.StopCharging? then d.event.control.stop
      else StopWanted(at, events[..|events| - 1])
  }

  function PauseWanted(at: StateId, events: seq<Delivery>): bool {
    if events == [] then false
    else
      var d := events[|events| - 1];
      if d.at == at && d.event.Control? && d.event.control.PauseCharging? then d.event.control.pause
      else PauseWanted(at, events[..|events| - 1])
  }

  predicate AsksCheck(e: Event) {
    e.Message? && e.request.CableCheckReq?
  }

  predicate AsksPreCharge(e: Event) {
    e.Message? && e.request.PreChargeReq?
  }

  /** Some cable-check request, under whatever id, was delivered to `CableCheck`. */
  predicate CheckAsked(events: seq<Delivery>) {
    exists d <- events :: d.at == AtCableCheck && AsksCheck(d.event)
  }

  predicate PreChargeAsked(events: seq<Delivery>) {
    exists d <- events :: d.at == AtPreCharge && AsksPreCharge(d.event)
  }

  /** Since the loop was entered, or an own power-delivery request came, no loop request did. */
  predicate StartsAnew(own: SessionId, events: seq<Delivery>) {
    if events == [] then true
    else
      var d := events[|events| - 1];
      if d.at == AtDcLoop && d.event.Message? && d.event.request.DcLoopReq? then false
      else if d.at == AtDcLoop && d.event.Message? && d.event.request.PowerDeliveryReq? && d.event.request.sid == own then true
      else StartsAnew(own, events[..|events| - 1])
  }

  // ------------------------------------------------------------------ one event

  function MeasuredAfter(e: Event, v: Measurement): Measurement {
    if e.Control? && e.control.PresentVoltageCurrent? then Measurement(e.control.voltage, e.control.current) else v
  }

  function VoltageAfter(e: Event, v: real): real {
    if e.Control? && e.control.PresentVoltageCurrent? then e.control.voltage else v
  }

  function StopAfter(e: Event, stop: bool): bool {
    if e.Control? && e.control.StopCharging? then e.control.stop else stop
  }

  function PauseAfter(e: Event, pause: bool): bool {
    if e.Control? && e.control.PauseCharging? then e.control.pause else pause
  }

  function AnewAfter(e: Event, own: SessionId, first: bool): bool {
    if e.Message? && e.request.DcLoopReq? then false
    else if e.Message? && e.request.PowerDeliveryReq? && e.request.sid == own then true
    else first
  }

  /** How the fields move: from their initial values on entry, with the events after it. */
  predicate FieldsMove(st: State, own: SessionId, e: Event, s: State) {
    && (s.CableCheck? ==> s.initiated == (st.CableCheck? && (st.initiated || AsksCheck(e))))
    && (s.PreCharge? ==> s.begun == (st.PreCharge? && (st.begun || AsksPreCharge(e))))
    && (s.PreCharge? ==> s.preVoltage == (if st.PreCharge? then VoltageAfter(e, st.preVoltage) else 0.0))
    && (s.PowerDelivery? ==> s.pdVoltage == (if st.PowerDelivery? then VoltageAfter(e, st.pdVoltage) else 0.0))
    && (s.Welding? ==> s.weldVoltage == (if st.Welding? then VoltageAfter(e, st.weldVoltage) else 0.0))
    && (s.AcLoop? ==> s.acStop == (st.AcLoop? && StopAfter(e, st.acStop)))
    && (s.AcLoop? ==> s.acPause == (st.AcLoop? && PauseAfter(e, st.acPause)))
    && (s.DcLoop? ==> s.dcStop == (st.DcLoop? && StopAfter(e, st.dcStop)))
    && (s.DcLoop? ==> s.dcPause == (st.DcLoop? && PauseAfter(e, st.dcPause)))
    && (s.DcLoop? ==> s.dcFirst == (!st.DcLoop? || AnewAfter(e, own, st.dcFirst)))
    && (s.DcLoop? ==>
          Measurement(s.dcVoltage, s.dcCurrent)
          == if st.DcLoop? then MeasuredAfter(e, Measurement(st.dcVoltage, st.dcCurrent)) else Measurement(0.0, 0.0))
  }

  lemma {:induction false} ScheduleFields(st: State, c: Context, e: Event, now: nat)
    requires st.ScheduleExchange?
    ensures FieldsMove(st, c.session.id, e, FeedScheduleExchange(st, c, e, now).state)
  {
    hide Kept, Conforms, ScheduleReply, Code.IsFailed, StartTimer, StopTimer;
  }

  lemma {:induction false} CheckFields(st: State, c: Context, e: Event)
    requires st.CableCheck?
    ensures FieldsMove(st, c.session.id, e, FeedCableCheck(st, c, e).state)
  {
    hide Kept, Conforms;
  }

  lemma {:induction false} PreChargeFields(st: State, c: Context, e: Event)
    requires st.PreCharge?
    ensures FieldsMove(st, c.session.id, e, FeedPreCharge(st, c, e).state)
  {
    hide Kept, Conforms, VoltageReply, Code.IsFailed;
  }

  lemma {:induction false} DeliveryFields(st: State, c: Context, e: Event, now: nat)
    requires st.PowerDelivery?
    ensures FieldsMove(st, c.session.id, e, FeedPowerDelivery(st, c, e, now).state)
  {
    hide Kept, Conforms, VoltageReply, PowerDeliveryReply, Code.IsFailed, StartTimer, StopTimer;
  }

  lemma {:induction false} AcLoopFields(st: State, c: Context, e: Event)
    requires st.AcLoop?
    ensures FieldsMove(st, c.session.id, e, FeedAcLoop(st, c, e).state)
  {
    hide Kept, Conforms, AcLoopReply, PowerDeliveryReply, Code.IsFailed;
  }

  lemma {:induction false} DcLoopFields(st: State, c: Context, e: Event)
    requires st.DcLoop?
    ensures FieldsMove(st, c.session.id, e, FeedDcLoop(st, c, e).state)
  {
    hide Kept, Conforms, DcLoopReply;
  }

  lemma {:induction false} WeldingFields(st: State, c: Context, e: Event)
    requires st.Welding?
    ensures FieldsMove(st, c.session.id, e, FeedWelding(st, c, e).state)
  {
    hide Kept, Conforms, VoltageReply, Code.IsFailed, StopCode;
  }

  /** States before the cable check, and the last one, have none of these fields. */
  lemma NoFields(st: State, own: SessionId, e: Event, s: State)
    requires Level(s) <= Rank(AtScheduleExchange) || Id(s) == AtSessionStop
    ensures FieldsMove(st, own, e, s)
  {
  }

  lemma EarlyEdges(a: StateId, b: StateId)
    ensures Edge(a, b) && Rank(a) < Rank(AtScheduleExchange) ==> Rank(b) <= Rank(AtScheduleExchange)
    ensures !Edge(AtSessionStop, b)
  {
  }

  lemma OtherFields(st: State, c: Context, e: Event, out: Out)
    requires Kept(st, c, out) && (Level(st) < Rank(AtScheduleExchange) || Id(st) == AtSessionStop)
    ensures FieldsMove(st, c.session.id, e, out.state)
  {
    hide Id, Edge, Rank, FieldsMove;
    EarlyEdges(Id(st), Id(out.state));
    NoFields(st, c.session.id, e, out.state);
  }

  predicate FedFieldsMove(st: State, c: Context, e: Event, now: nat) {
    hide *;
    FieldsMove(st, c.session.id, e, Feed(st, c, e, now).state)
  }

  lemma {:induction false} FeedFields(st: State, c: Context, e: Event, now: nat)
    ensures FedFieldsMove(st, c, e, now)
  {
    hide Feed, FeedAcParameters, FeedDcParameters, FeedScheduleExchange, FeedCableCheck, FeedPreCharge, FeedPowerDelivery,
      FeedAcLoop, FeedDcLoop, FeedWelding, FeedSessionStop, FieldsMove, Kept, Conforms;
    if Level(st) < Rank(AtScheduleExchange) || st.SessionStop? {
      assert Kept(st, c, Feed(st, c, e, now));
      OtherFields(st, c, e, Feed(st, c, e, now));
    } else if Level(st) < Rank(AtPowerDelivery) {
      FeedOfPreparing(st, c, e, now);
      if st.ScheduleExchange? {
        ScheduleFields(st, c, e, now);
      } else if st.CableCheck? {
        CheckFields(st, c, e);
      } else {
        PreChargeFields(st, c, e);
      }
    } else {
      FeedOfCharging(st, c, e, now);
      if st.PowerDelivery? {
        DeliveryFields(st, c, e, now);
      } else if st.AcLoop? {
        AcLoopFields(st, c, e);
      } else if st.DcLoop? {
        DcLoopFields(st, c, e);
      } else {
        WeldingFields(st, c, e);
      }
    }
  }

  lemma {:induction false} StepFields(m: Machine, i: Input)
    ensures FieldsMove(m.state, m.ctx.session.id, i.event, Step(m, i).state)
  {
    hide Feed, Absorb, Recorded, FieldsMove;
    ReceiveKeeps(m, i.event);
    FeedFields(m.state, Receive(m, i.event).ctx, i.event, i.now);
  }

  // --------------------------------------------------------------------- over runs

  /** Events were delivered to the current state, or to states of lower rank. */
  predicate Visited(m: Machine) {
    forall d <- m.log.events :: Rank(d.at) < Level(m.state) || d.at == Id(m.state)
  }

  /** A step delivers its event to the state that it finds. */
  lemma {:induction false} StepDelivers(m: Machine, i: Input)
    ensures Step(m, i).log.events == m.log.events + [Delivery(Id(m.state), i.event)]
  {
    hide Step, Outcome, Admits, Guarded, Moves, Signals, Tells;
    StepIsOutcome(m, i);
  }

  lemma {:induction false} VisitedStep(m: Machine, i: Input)
    requires Visited(m)
    ensures Visited(Step(m, i))
  {
    hide Step, Id, Rank;
    StepDelivers(m, i);
    StepClimbs(m, i);
  }

  /** What no event was delivered to has its initial values. */
  lemma {:induction false} NothingDelivered(at: StateId, own: SessionId, events: seq<Delivery>)
    requires forall d <- events :: d.at != at
    ensures LastMeasured(at, events) == Measurement(0.0, 0.0) && !StopWanted(at, events) && !PauseWanted(at, events)
    ensures at == AtDcLoop ==> StartsAnew(own, events)
  {
    if events != [] {
      NothingDelivered(at, own, events[..|events| - 1]);
    }
  }

  lemma {:induction false} OneMore(at: StateId, own: SessionId, events: seq<Delivery>, d: Delivery)
    ensures var all := events + [d];
      if d.at != at then
        && LastMeasured(at, all) == LastMeasured(at, events) && StopWanted(at, all) == StopWanted(at, events)
        && PauseWanted(at, all) == PauseWanted(at, events)
        && (at == AtDcLoop ==> StartsAnew(own, all) == StartsAnew(own, events))
      else
        && LastMeasured(at, all) == MeasuredAfter(d.event, LastMeasured(at, events))
        && StopWanted(at, all) == StopAfter(d.event, StopWanted(at, events))
        && PauseWanted(at, all) == PauseAfter(d.event, PauseWanted(at, events))
        && (at == AtDcLoop ==> StartsAnew(own, all) == AnewAfter(d.event, own, StartsAnew(own, events)))
  {
    assert (events + [d])[..|events|] == events;
  }

  lemma AskedOneMore(events: seq<Delivery>, d: Delivery)
    ensures CheckAsked(events + [d]) <==> CheckAsked(events) || (d.at == AtCableCheck && AsksCheck(d.event))
    ensures PreChargeAsked(events + [d]) <==> PreChargeAsked(events) || (d.at == AtPreCharge && AsksPreCharge(d.event))
  {
    assert d in events + [d];
    hide AsksCheck, AsksPreCharge;
  }

  /** The fields say what the events of their state say. */
  predicate Means(s: State, own: SessionId, events: seq<Delivery>) {
    && (s.CableCheck? ==> s.initiated == CheckAsked(events))
    && (s.PreCharge? ==> s.begun == PreChargeAsked(events) && s.preVoltage == LastMeasured(AtPreCharge, events).voltage)
    && (s.PowerDelivery? ==> s.pdVoltage == LastMeasured(AtPowerDelivery, events).voltage)
    && (s.Welding? ==> s.weldVoltage == LastMeasured(AtWelding, events).voltage)
    && (s.AcLoop? ==> s.acStop == StopWanted(AtAcLoop, events) && s.acPause == PauseWanted(AtAcLoop, events))
    && (s.DcLoop? ==> s.dcStop == StopWanted(AtDcLoop, events) && s.dcPause == PauseWanted(AtDcLoop, events))
    && (s.DcLoop? ==> s.dcFirst == StartsAnew(own, events))
    && (s.DcLoop? ==> Measurement(s.dcVoltage, s.dcCurrent) == LastMeasured(AtDcLoop, events))
  }

  predicate Meaningful(m: Machine) {
    Visited(m) && Means(m.state, m.ctx.session.id, m.log.events)
  }

  /** On entering a state, nothing was delivered to it before. */
  lemma {:induction false} EnteredFresh(m: Machine, i: Input)
    requires Visited(m) && Id(Step(m, i).state) != Id(m.state)
    ensures forall d <- Step(m, i).log.events :: d.at != Id(Step(m, i).state)
  {
    hide Step, Id, Rank;
    StepDelivers(m, i);
    StepClimbs(m, i);
  }

  lemma AskedFresh(events: seq<Delivery>)
    ensures (forall d <- events :: d.at != AtCableCheck) ==> !CheckAsked(events)
    ensures (forall d <- events :: d.at != AtPreCharge) ==> !PreChargeAsked(events)
  {
  }

  lemma {:induction false} MeansStays(s: State, own: SessionId, events: seq<Delivery>, e: Event, next: State)
    requires Means(s, own, events) && FieldsMove(s, own, e, next) && Id(next) == Id(s)
    ensures Means(next, own, events + [Delivery(Id(s), e)])
  {
    hide LastMeasured, StopWanted, PauseWanted, StartsAnew, CheckAsked, PreChargeAsked, AsksCheck, AsksPreCharge;
    OneMore(Id(s), own, events, Delivery(Id(s), e));
    AskedOneMore(events, Delivery(Id(s), e));
  }

  lemma {:induction false} MeansEntered(
      s: State, was: SessionId, e: Event, next: State, own: SessionId, events: seq<Delivery>)
    requires FieldsMove(s, was, e, next) && Id(next) != Id(s)
    requires forall d <- events :: d.at != Id(next)
    ensures Means(next, own, events)
  {
    hide LastMeasured, StopWanted, PauseWanted, StartsAnew, CheckAsked, PreChargeAsked;
    NothingDelivered(Id(next), own, events);
    AskedFresh(events);
  }

  lemma MeansNothing(s: State, own: SessionId, events: seq<Delivery>)
    requires Id(s) == AtSessionSetup
    ensures Means(s, own, events)
  {
  }

  lemma {:induction false} MeaningfulStep(m: Machine, i: Input)
    requires Meaningful(m)
    ensures Meaningful(Step(m, i))
  {
    hide Step, Means, FieldsMove, Edge, Extends, Visited;
    var n := Step(m, i);
    VisitedStep(m, i);
    StepDelivers(m, i);
    StepFields(m, i);
    StepCarries(m, i);
    if Id(n.state) == Id(m.state) {
      if m.state.SessionSetup? {
        MeansNothing(n.state, n.ctx.session.id, n.log.events);
      }
      MeansStays(m.state, m.ctx.session.id, m.log.events, i.event, n.state);
    } else {
      EnteredFresh(m, i);
      MeansEntered(m.state, m.ctx.session.id, i.event, n.state, n.ctx.session.id, n.log.events);
    }
  }

  /** On every run the fields of the current state are those functions of the events. */
  lemma {:induction false} MeaningfulRun(
      config: SessionConfig, cert: Option<CertHash>, p: Option<PauseContext>, inputs: seq<Input>)
    ensures Meaningful(Run(Init(config, cert, p), inputs))
  {
    hide Step;
    if inputs != [] {
      hide Meaningful;
      MeaningfulRun(config, cert, p, inputs[..|inputs| - 1]);
      MeaningfulStep(Run(Init(config, cert, p), inputs[..|inputs| - 1]), inputs[|inputs| - 1]);
    }
  }
}
