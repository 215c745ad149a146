/** What the EV is shown: on every run the values of the last control event of each kind,
    whatever state was active when it arrived. */
module Caches {
  import opened Common
  import opened Types
  import opened Machine
  import opened Frame

  function LastDynamic(inputs: seq<Input>): Option<DynamicParameters> {
    if inputs == [] then None
    else
      var e := inputs[|inputs| - 1].event;
      if e.Control? && e.control.UpdateDynamic? then Some(e.control.dynamic) else LastDynamic(inputs[..|inputs| - 1])
  }

  function LastTarget(inputs: seq<Input>): Option<AcTarget> {
    if inputs == [] then None
    else
      var e := inputs[|inputs| - 1].event;
      if e.Control? && e.control.UpdateAcTarget? then Some(e.control.target) else LastTarget(inputs[..|inputs| - 1])
  }

  function LastPresent(inputs: seq<Input>): Option<AcPresent> {
    if inputs == [] then None
    else
      var e := inputs[|inputs| - 1].event;
      if e.Control? && e.control.UpdateAcPresent? then Some(e.control.present) else LastPresent(inputs[..|inputs| - 1])
  }

  function LastDcLimits(inputs: seq<Input>): Option<DcLimits> {
    if inputs == [] then None
    else
      var e := inputs[|inputs| - 1].event;
      if e.Control? && e.control.UpdateDcLimits? then Some(e.control.dc) else LastDcLimits(inputs[..|inputs| - 1])
  }

  function LastAcLimits(inputs: seq<Input>): Option<AcLimits> {
    if inputs == [] then None
    else
      var e := inputs[|inputs| - 1].event;
      if e.Control? && e.control.UpdateAcLimits? then Some(e.control.ac) else LastAcLimits(inputs[..|inputs| - 1])
  }

  /** Caches, limits and charge-loop fields hold the last values of a run. */
  predicate UpToDate(m: Machine, config: SessionConfig, inputs: seq<Input>) {
    && m.ctx.dynamicCache == LastDynamic(inputs)
    && m.ctx.targetCache == LastTarget(inputs)
    && m.ctx.presentCache == LastPresent(inputs)
    && m.ctx.config.dcLimits == LastDcLimits(inputs).GetOr(config.dcLimits)
    && m.ctx.config.acLimits == LastAcLimits(inputs).GetOr(config.acLimits)
    && (m.state.AcParameters? ==> m.state.present == LastPresent(inputs).GetOr(NO_PRESENT))
    && (m.state.AcLoop? ==>
          && m.state.acDynamic == LastDynamic(inputs).GetOr(NO_DYNAMIC)
          && m.state.acTarget == LastTarget(inputs).GetOr(NO_TARGET)
          && m.state.acPresent == LastPresent(inputs).GetOr(NO_PRESENT))
    && (m.state.DcLoop? ==> m.state.dcDynamic == LastDynamic(inputs).GetOr(NO_DYNAMIC))
  }

  lemma LastAdded(inputs: seq<Input>, i: Input)
    ensures var c, e := inputs + [i], i.event;
      && LastDynamic(c) == (if e.Control? && e.control.UpdateDynamic? then Some(e.control.dynamic) else LastDynamic(inputs))
      && LastTarget(c) == (if e.Control? && e.control.UpdateAcTarget? then Some(e.control.target) else LastTarget(inputs))
      && LastPresent(c) == (if e.Control? && e.control.UpdateAcPresent? then Some(e.control.present) else LastPresent(inputs))
      && LastDcLimits(c) == (if e.Control? && e.control.UpdateDcLimits? then Some(e.control.dc) else LastDcLimits(inputs))
      && LastAcLimits(c) == (if e.Control? && e.control.UpdateAcLimits? then Some(e.control.ac) else LastAcLimits(inputs))
  {
    assert (inputs + [i])[..|inputs|] == inputs;
  }

  /** What one event leaves in the caches and in the limits. */
  predicate Absorbed(c: Context, e: Event, d: Context) {
    && d.dynamicCache == (if e.Control? && e.control.UpdateDynamic? then Some(e.control.dynamic) else c.dynamicCache)
    && d.targetCache == (if e.Control? && e.control.UpdateAcTarget? then Some(e.control.target) else c.targetCache)
    && d.presentCache == (if e.Control? && e.control.UpdateAcPresent? then Some(e.control.present) else c.presentCache)
    && d.config.dcLimits == (if e.Control? && e.control.UpdateDcLimits? then e.control.dc else c.config.dcLimits)
    && d.config.acLimits == (if e.Control? && e.control.UpdateAcLimits? then e.control.ac else c.config.acLimits)
  }

  lemma AbsorbIs(c: Context, e: Event)
    ensures Absorbed(c, e, Absorb(c, e))
  {
  }

  lemma {:induction false} UpToDateStep(m: Machine, config: SessionConfig, inputs: seq<Input>, i: Input)
    requires UpToDate(m, config, inputs)
    ensures UpToDate(Step(m, i), config, inputs + [i])
  {
    hide Step, Outcome, Absorb, LastDynamic, LastTarget, LastPresent, LastDcLimits, LastAcLimits, StatusAfter, DoneAfter;
    StepShows(m, i);
    AbsorbIs(m.ctx, i.event);
    LastAdded(inputs, i);
  }

  lemma {:induction false} UpToDateRun(
      config: SessionConfig, cert: Option<CertHash>, p: Option<PauseContext>, inputs: seq<Input>)
    ensures UpToDate(Run(Init(config, cert, p), inputs), config, inputs)
  {
    hide Step;
    if inputs != [] {
      var before, last := inputs[..|inputs| - 1], inputs[|inputs| - 1];
      UpToDateRun(config, cert, p, before);
      UpToDateStep(Run(Init(config, cert, p), before), config, before, last);
      assert inputs == before + [last];
    }
  }

  /** The last dynamic parameters that reached `ScheduleExchange` itself. */
  function LastScheduleDynamic(events: seq<Delivery>): DynamicParameters {
    if events == [] then NO_DYNAMIC
    else
      var d := events[|events| - 1];
      if d.at == AtScheduleExchange && d.event.Control? && d.event.control.UpdateDynamic? then d.event.control.dynamic
      else LastScheduleDynamic(events[..|events| - 1])
  }

  predicate OnlyOwnUpdates(m: Machine) {
    && (m.state.ScheduleExchange? ==> m.state.seDynamic == LastScheduleDynamic(m.log.events))
    && (Level(m.state) < Rank(AtScheduleExchange) ==> LastScheduleDynamic(m.log.events) == NO_DYNAMIC)
  }

  lemma {:induction false} DynamicHeard(m: Machine, i: Input)
    ensures LastScheduleDynamic(Step(m, i).log.events) ==
            if m.state.ScheduleExchange? then DynamicAfter(i.event, LastScheduleDynamic(m.log.events))
            else LastScheduleDynamic(m.log.events)
  {
    hide Step, Outcome, Admits, Guarded, Signals, Tells, Moves;
    StepIsOutcome(m, i);
    assert Step(m, i).log.events[..|m.log.events|] == m.log.events;
  }

  lemma {:induction false} OnlyOwnUpdatesStep(m: Machine, i: Input)
    requires OnlyOwnUpdates(m)
    ensures OnlyOwnUpdates(Step(m, i))
  {
    hide Step, Outcome, Absorb, SameCaches, LastScheduleDynamic, DynamicAfter, TargetAfter, PresentAfter, StatusAfter, DoneAfter;
    DynamicHeard(m, i);
    StepShows(m, i);
    StepClimbs(m, i);
  }

  /** `ScheduleExchange` knows only the updates that arrive while it is the current state,
      not those that were cached before. */
  lemma {:induction false} ScheduleIgnoresCache(
      config: SessionConfig, cert: Option<CertHash>, p: Option<PauseContext>, inputs: seq<Input>)
    ensures OnlyOwnUpdates(Run(Init(config, cert, p), inputs))
  {
    hide Step;
    if inputs != [] {
      ScheduleIgnoresCache(config, cert, p, inputs[..|inputs| - 1]);
      OnlyOwnUpdatesStep(Run(Init(config, cert, p), inputs[..|inputs| - 1]), inputs[|inputs| - 1]);
    }
  }

  predicate IsUpdate(e: Event) {
    e.Control? && e.control.UpdateDynamic?
  }

  /** An update was delivered to `ScheduleExchange` itself. */
  predicate UpdatedThere(events: seq<Delivery>) {
    exists d <- events :: d.at == AtScheduleExchange && IsUpdate(d.event)
  }

  predicate CacheIgnored(m: Machine) {
    && (m.state.ScheduleExchange? ==>
          if UpdatedThere(m.log.events) then m.ctx.dynamicCache == Some(m.state.seDynamic) else m.state.seDynamic == NO_DYNAMIC)
    && (Level(m.state) < Rank(AtScheduleExchange) ==> !UpdatedThere(m.log.events))
  }

  lemma {:induction false} UpdateHeard(m: Machine, i: Input)
    ensures UpdatedThere(Step(m, i).log.events) <==>
            UpdatedThere(m.log.events) || (m.state.ScheduleExchange? && IsUpdate(i.event))
  {
    hide Step, Outcome, Admits, Guarded, Signals, Tells, Moves, IsUpdate;
    StepIsOutcome(m, i);
    var d := Delivery(Id(m.state), i.event);
    assert Step(m, i).log.events == m.log.events + [d];
    assert d in Step(m, i).log.events;
  }

  lemma {:induction false} CacheIgnoredStep(m: Machine, i: Input)
    requires CacheIgnored(m)
    ensures CacheIgnored(Step(m, i))
  {
    hide Step, Outcome, Absorb, UpdatedThere, TargetAfter, PresentAfter, StatusAfter, DoneAfter;
    UpdateHeard(m, i);
    StepShows(m, i);
    AbsorbIs(m.ctx, i.event);
    StepClimbs(m, i);
  }

  lemma {:induction false} CacheIgnoredRun(
      config: SessionConfig, cert: Option<CertHash>, p: Option<PauseContext>, inputs: seq<Input>)
    ensures CacheIgnored(Run(Init(config, cert, p), inputs))
  {
    hide Step;
    if inputs != [] {
      CacheIgnoredRun(config, cert, p, inputs[..|inputs| - 1]);
      CacheIgnoredStep(Run(Init(config, cert, p), inputs[..|inputs| - 1]), inputs[|inputs| - 1]);
    }
  }

  /** The schedule holds the last update of the run exactly if one reached the state itself, or if no update
      of the run said anything but the initial values. */
  predicate HoldsLastExactly(m: Machine, last: DynamicParameters) {
    m.state.ScheduleExchange? ==>
      (m.state.seDynamic == last <==> UpdatedThere(m.log.events) || last == NO_DYNAMIC)
  }

  lemma {:induction false} ScheduleHoldsLastExactly(
      config: SessionConfig, cert: Option<CertHash>, p: Option<PauseContext>, inputs: seq<Input>)
    ensures HoldsLastExactly(Run(Init(config, cert, p), inputs), LastDynamic(inputs).GetOr(NO_DYNAMIC))
  {
    hide Run, Init, LastDynamic, UpdatedThere;
    UpToDateRun(config, cert, p, inputs);
    CacheIgnoredRun(config, cert, p, inputs);
  }
}
