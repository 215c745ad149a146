/** `Session::poll`: how control events, timeouts and messages reach the state machine, when that
    ends the session, and the delayed close. */
module Polling {
  import opened Common
  import opened Types
  import opened Machine
  import opened Frame
  import opened Safety
  import opened Order
  import opened Caches
  import opened Answers
  import opened Timers
  import opened Twins
  import opened Resume
  import opened TimeoutTable

  const IDLE := 5_000
  const CLOSE_DELAY := 5_000

  // --------------------------------------------------------- the machine in one poll

  function WithTimers(m: Machine, timers: map<TimeoutType, nat>): Machine {
    m.(ctx := m.ctx.(timers := timers))
  }

  function Halted(m: Machine): Machine {
    m.(ctx := m.ctx.(stopped := true))
  }

  /** A step whose event has to be handled, that is, to cause a transition. */
  function MustHandle(m: Machine, i: Input): Machine {
    var n := Step(m, i);
    if Id(n.state) == Id(m.state) then Halted(n) else n
  }

  function ControlInputs(queue: seq<ControlEvent>, now: nat): seq<Input> {
    seq(|queue|, k requires 0 <= k < |queue| => Input(Control(queue[k]), now))
  }

  /** The reached timers, up to the sequence timer, which stops the session at once. */
  function Expire(m: Machine, list: seq<TimeoutType>, now: nat): Machine
    decreases list
  {
    hide MustHandle;
    if list == [] then m
    else if list[0] == Sequence then Halted(m)
    else Expire(MustHandle(m, Input(Expired(list[0]), now)), list[1..], now)
  }

  function TableOf(timers: map<TimeoutType, nat>): Table {
    seq(4, i requires 0 <= i < 4 => if ALL[i] in timers then Some(timers[ALL[i]]) else None)
  }

  /** What `check` returns, or nothing to do. */
  function DueTimers(timers: map<TimeoutType, nat>, now: nat): seq<TimeoutType> {
    TimersOf(Collected(TableOf(timers), now, 4))
  }

  /** A request that is complete, with what the environment would answer for it. */
  datatype Incoming = Incoming(request: Request, newId: SessionId, reply: Option<seq<VasSet>>) {
    function At(now: nat): Input {
      Input(Message(request, newId, reply), now)
    }
  }

  /** There is no sequence timer before the protocol is negotiated. */
  function Received(m: Machine, r: Request): Machine {
    if r.SupportedAppProtocolReq? then m else WithTimers(m, StopTimer(m.ctx.timers, Sequence))
  }

  function Deliver(m: Machine, message: Option<Incoming>, now: nat): Machine {
    hide MustHandle;
    if message.None? then m else MustHandle(Received(m, message.value.request), message.value.At(now))
  }

  /** A response that waits is sent, and the sequence timer runs from now. */
  function Respond(before: Machine, m: Machine, now: nat): Machine {
    if |m.log.responses| > |before.log.responses|
    then WithTimers(m, StartTimer(m.ctx.timers, Sequence, now + TIMEOUT_SEQUENCE))
    else m
  }

  /** One poll: the queue of control events, the message that is complete, if any, and the time. */
  datatype Polled = Polled(queue: seq<ControlEvent>, message: Option<Incoming>, now: nat)

  function Controlled(m: Machine, p: Polled): Machine {
    Run(m, ControlInputs(p.queue, p.now))
  }

  function TimedOut(m: Machine, p: Polled): Machine {
    var n := Controlled(m, p);
    Expire(n, DueTimers(n.ctx.timers, p.now), p.now)
  }

  function PollOnce(m: Machine, p: Polled): Machine {
    Respond(m, Deliver(TimedOut(m, p), p.message, p.now), p.now)
  }

  function PollRun(m: Machine, ps: seq<Polled>): Machine {
    hide PollOnce;
    if ps == [] then m else PollOnce(PollRun(m, ps[..|ps| - 1]), ps[|ps| - 1])
  }

  // ------------------------------------------------------------ how a session ends

  /** No state is entered again, and what is stopped stays stopped. */
  predicate Forward(m: Machine, n: Machine) {
    && Level(m.state) <= Level(n.state) <= LAST_RANK
    && (m.ctx.stopped ==> n.ctx.stopped) && (m.ctx.paused ==> n.ctx.paused)
  }

  lemma {:induction false} StepForward(m: Machine, i: Input)
    ensures Forward(m, Step(m, i))
    ensures Id(Step(m, i).state) != Id(m.state) ==> Level(m.state) < Level(Step(m, i).state)
  {
    hide Step;
    StepCarries(m, i);
    StepClimbs(m, i);
    LevelBounded(Step(m, i).state);
  }

  lemma {:induction false} RunForward(m: Machine, inputs: seq<Input>)
    ensures Forward(m, Run(m, inputs))
  {
    hide Step;
    if inputs != [] {
      RunForward(m, inputs[..|inputs| - 1]);
      StepForward(Run(m, inputs[..|inputs| - 1]), inputs[|inputs| - 1]);
    }
  }

  /** An event that has to be handled climbs or stops the session, and nothing else stops it. */
  lemma {:induction false} MustHandleForward(m: Machine, i: Input)
    ensures var n := MustHandle(m, i);
      && Forward(m, n)
      && (n.ctx.stopped <==> m.ctx.stopped || Id(n.state) == Id(m.state))
      && (Id(n.state) == Id(m.state) || Level(m.state) < Level(n.state))
  {
    hide Step;
    StepForward(m, i);
    StepCarries(m, i);
  }

  /** A session-setup request stops the session exactly if it joins one that never paused. */
  ghost predicate SurvivesExactly(news: seq<News>, cert: Option<CertHash>, e: Event, m: Machine, n: Machine) {
    AsksSetup(e) ==>
      var sid := e.request.sid;
      (n.ctx.stopped <==>
         || m.ctx.stopped
         || (sid != 0 && cert.Some? && exists k: nat :: IsLive(news, k, cert.value, sid) && !PausedAfter(news, k)))
  }

  /** Over all connections, under `poll`: a request for an own session leaves a session running exactly if some
      connection paused since that session was created; any other session-setup request does. */
  lemma {:induction false} ResumeSurvives(visits: seq<Visit>, v: Visit, i: Input)
    requires During(visits, v).state.SessionSetup? && AsksSetup(i.event)
    ensures SurvivesExactly(NewsSoFar(visits, v), v.cert, i.event, During(visits, v), MustHandle(During(visits, v), i))
  {
    hide During, NewsSoFar, Step, IsLive, PausedAfter, LastPaused;
    ResumeExact(visits, v, i);
    MustHandleForward(During(visits, v), i);
  }

  lemma {:induction false} ExpireForward(m: Machine, list: seq<TimeoutType>, now: nat)
    ensures Forward(m, Expire(m, list, now))
    decreases list
  {
    hide MustHandle;
    if list != [] && list[0] != Sequence {
      MustHandleForward(m, Input(Expired(list[0]), now));
      ExpireForward(MustHandle(m, Input(Expired(list[0]), now)), list[1..], now);
    }
  }

  /** A reached timer always stops the session, as no state changes on a timeout. */
  lemma {:induction false} ExpiryStops(m: Machine, list: seq<TimeoutType>, now: nat)
    requires list != []
    ensures Expire(m, list, now).ctx.stopped
  {
    hide MustHandle;
    if list[0] != Sequence {
      var i := Input(Expired(list[0]), now);
      assert MustHandle(m, i).ctx.stopped by {
        ExpiredStays(m, i);
      }
      ExpireForward(MustHandle(m, i), list[1..], now);
    }
  }

  lemma {:induction false} ExpiredStays(m: Machine, i: Input)
    requires i.event.Expired?
    ensures MustHandle(m, i).ctx.stopped
  {
    hide Step, Outcome, Admits, Moves, Signals, Tells;
    StepIsOutcome(m, i);
  }

  predicate NoneDue(m: Machine, p: Polled) {
    DueTimers(Controlled(m, p).ctx.timers, p.now) == []
  }

  /** After one poll the session is stopped exactly if it was after the control events, a timer was
      reached, or a message came and the state is what it was before it; otherwise a message climbs. */
  lemma {:induction false} PollStops(m: Machine, p: Polled)
    ensures var c, n := Controlled(m, p), PollOnce(m, p);
      && Forward(m, n)
      && (n.ctx.stopped <==> c.ctx.stopped || !NoneDue(m, p) || (p.message.Some? && Id(n.state) == Id(c.state)))
      && (p.message.Some? && !n.ctx.stopped ==> Level(m.state) < Level(n.state))
  {
    hide Run, Expire, MustHandle, DueTimers;
    RunForward(m, ControlInputs(p.queue, p.now));
    var c := Controlled(m, p);
    var list := DueTimers(c.ctx.timers, p.now);
    ExpireForward(c, list, p.now);
    if list == [] {
      NothingExpires(c, p.now);
    } else {
      ExpiryStops(c, list, p.now);
    }
    if p.message.Some? {
      MustHandleForward(Received(TimedOut(m, p), p.message.value.request), p.message.value.At(p.now));
    }
  }

  lemma NothingExpires(m: Machine, now: nat)
    ensures Expire(m, [], now) == m
  {
    hide MustHandle;
  }

  /** The poll has no control events, no timer is reached, and its message is an own charge-loop
      request that fits the session. */
  predicate OnlyAsksAcLoop(m: Machine, p: Polled) {
    hide NoneDue, FitsAc;
    && m.state.AcLoop? && p.queue == [] && p.message.Some? && NoneDue(m, p)
    && var r := p.message.value.request;
       r.AcLoopReq? && r.sid == m.ctx.session.id && FitsAc(m.ctx, r.acLoop)
  }

  /** A charge-loop request is answered OK, and stops the session. */
  lemma {:induction false} LoopRequestStops(m: Machine, p: Polled)
    requires OnlyAsksAcLoop(m, p)
    ensures AnsweredOkAndStopped(m, PollOnce(m, p))
  {
    hide Run, Step, Expire, DueTimers, FitsAc, AcLoopReply, Controlled, TimedOut;
    var r, i := p.message.value.request, p.message.value.At(p.now);
    NothingPolled(m, p);
    AcLoopStep(Received(m, r), i);
    FitsStill(m, r, r.acLoop);
    AcLoopAnswer(Received(m, r).ctx, m.state, r.sid, r.acLoop);
  }

  lemma FitsStill(m: Machine, r: Request, mode: AcLoopMode)
    ensures FitsAc(Received(m, r).ctx, mode) == FitsAc(m.ctx, mode)
  {
  }

  predicate AnsweredOkAndStopped(m: Machine, n: Machine) {
    && n.ctx.stopped && Id(n.state) == Id(m.state)
    && Added(m, n).Some? && Added(m, n).value.code == Ok
  }

  /** Without control events and reached timers, the message meets the machine as it was. */
  lemma NothingPolled(m: Machine, p: Polled)
    requires p.queue == [] && NoneDue(m, p)
    ensures Controlled(m, p) == m && TimedOut(m, p) == m
  {
    hide Step, MustHandle, DueTimers;
    assert ControlInputs(p.queue, p.now) == [];
  }

  /** How many polls deliver a message and leave the session running. */
  function LiveMessages(m: Machine, ps: seq<Polled>): nat {
    hide PollRun;
    if ps == [] then 0
    else
      var before := ps[..|ps| - 1];
      LiveMessages(m, before) + One(ps[|ps| - 1].message.Some? && !PollRun(m, ps).ctx.stopped)
  }

  lemma {:induction false} LiveMessagesClimb(m: Machine, ps: seq<Polled>)
    ensures Level(m.state) + LiveMessages(m, ps) <= Level(PollRun(m, ps).state) <= LAST_RANK
  {
    hide PollOnce, Level, Id, Controlled, NoneDue;
    LevelBounded(m.state);
    if ps != [] {
      LiveMessagesClimb(m, ps[..|ps| - 1]);
      PollStops(PollRun(m, ps[..|ps| - 1]), ps[|ps| - 1]);
    }
  }

  lemma StartsAtZero(config: SessionConfig, cert: Option<CertHash>, p: Option<PauseContext>)
    ensures Level(Init(config, cert, p).state) == 0
  {
  }

  /** Under `poll`, a session survives at most fourteen messages, whatever they are: every message
      that does not change the state stops it. */
  lemma {:induction false} FourteenMessages(
      config: SessionConfig, cert: Option<CertHash>, p: Option<PauseContext>, ps: seq<Polled>)
    ensures LiveMessages(Init(config, cert, p), ps) <= 14
  {
    hide PollOnce, PollRun, LiveMessages, Init;
    StartsAtZero(config, cert, p);
    LiveMessagesClimb(Init(config, cert, p), ps);
  }

  // ----------------------------------------------------- what runs of polls keep

  /** The timers that are fed to the state machine. */
  function ExpiredInputs(list: seq<TimeoutType>, now: nat): seq<Input>
    decreases list
  {
    if list == [] || list[0] == Sequence then []
    else [Input(Expired(list[0]), now)] + ExpiredInputs(list[1..], now)
  }

  function Delivered(message: Option<Incoming>, now: nat): seq<Input> {
    if message.Some? then [message.value.At(now)] else []
  }

  /** Everything one poll feeds, in order. */
  function InputsOf(m: Machine, p: Polled): seq<Input> {
    hide Controlled, DueTimers;
    ControlInputs(p.queue, p.now)
    + ExpiredInputs(DueTimers(Controlled(m, p).ctx.timers, p.now), p.now)
    + Delivered(p.message, p.now)
  }

  function AllInputs(m: Machine, ps: seq<Polled>): seq<Input> {
    hide PollRun, InputsOf;
    if ps == [] then []
    else
      var before := ps[..|ps| - 1];
      AllInputs(m, before) + InputsOf(PollRun(m, before), ps[|ps| - 1])
  }

  // ------------------------------------------------- a run of polls is a run of events

  lemma SequenceFree(m: Machine, n: Machine, timers: map<TimeoutType, nat>)
    requires AreTwins(m, n) && StopTimer(timers, Sequence) == StopTimer(m.ctx.timers, Sequence)
    ensures AreTwins(WithTimers(m, timers), n) && AreTwins(Halted(m), n)
  {
  }

  lemma SequenceMoves(timers: map<TimeoutType, nat>, deadline: nat)
    ensures StopTimer(StopTimer(timers, Sequence), Sequence) == StopTimer(timers, Sequence)
    ensures StopTimer(StartTimer(timers, Sequence, deadline), Sequence) == StopTimer(timers, Sequence)
  {
  }

  lemma {:induction false} HandledTwins(m: Machine, n: Machine, i: Input)
    requires AreTwins(m, n) && i.event != Expired(Sequence)
    ensures AreTwins(MustHandle(m, i), Step(n, i))
  {
    hide Step, AreTwins;
    StepTwins(m, n, i);
    SequenceFree(Step(m, i), Step(n, i), Step(m, i).ctx.timers);
  }

  lemma {:induction false} ExpireTwins(m: Machine, n: Machine, list: seq<TimeoutType>, now: nat)
    requires AreTwins(m, n)
    ensures AreTwins(Expire(m, list, now), Run(n, ExpiredInputs(list, now)))
    decreases list
  {
    hide Step, Run, MustHandle, AreTwins;
    RunNothing(n);
    if list != [] && list[0] == Sequence {
      SequenceFree(m, n, m.ctx.timers);
    } else if list != [] {
      var i := Input(Expired(list[0]), now);
      HandledTwins(m, n, i);
      RunOneMore(n, [], i);
      assert [] + [i] == [i];
      RunSplit(n, [i], ExpiredInputs(list[1..], now));
      ExpireTwins(MustHandle(m, i), Step(n, i), list[1..], now);
    }
  }

  lemma {:induction false} DeliverTwins(m: Machine, n: Machine, message: Option<Incoming>, now: nat)
    requires AreTwins(m, n)
    ensures AreTwins(Deliver(m, message, now), Run(n, Delivered(message, now)))
  {
    hide Step, Run, MustHandle, AreTwins, StopTimer;
    RunNothing(n);
    if message.Some? {
      var i := message.value.At(now);
      SequenceMoves(m.ctx.timers, 0);
      SequenceFree(m, n, StopTimer(m.ctx.timers, Sequence));
      HandledTwins(Received(m, message.value.request), n, i);
      RunOneMore(n, [], i);
      assert [] + [i] == [i];
    }
  }

  lemma {:induction false} PollTwins(m: Machine, n: Machine, p: Polled)
    requires AreTwins(m, n)
    ensures AreTwins(PollOnce(m, p), Run(n, InputsOf(m, p)))
  {
    hide Run, Expire, Deliver, DueTimers, AreTwins, ExpiredInputs, Delivered, StartTimer;
    var control := ControlInputs(p.queue, p.now);
    var expired := ExpiredInputs(DueTimers(Controlled(m, p).ctx.timers, p.now), p.now);
    RunTwins(m, n, control);
    ExpireTwins(Controlled(m, p), Run(n, control), DueTimers(Controlled(m, p).ctx.timers, p.now), p.now);
    RunSplit(n, control, expired);
    DeliverTwins(TimedOut(m, p), Run(n, control + expired), p.message, p.now);
    RunSplit(n, control + expired, Delivered(p.message, p.now));
    var d := Deliver(TimedOut(m, p), p.message, p.now);
    SequenceMoves(d.ctx.timers, p.now + TIMEOUT_SEQUENCE);
    SequenceFree(d, Run(n, InputsOf(m, p)), StartTimer(d.ctx.timers, Sequence, p.now + TIMEOUT_SEQUENCE));
  }

  /** A run of polls is the run of all events that it feeds, apart from the sequence timer and from being
      stopped: the same state, history, session, configuration, pause context, caches and other timers. */
  lemma {:induction false} PollRunIsRun(m: Machine, ps: seq<Polled>)
    ensures AreTwins(PollRun(m, ps), Run(m, AllInputs(m, ps)))
  {
    hide Run, PollOnce, InputsOf, SameContext;
    if ps == [] {
      RunNothing(m);
      SameAsItself(m);
    } else {
      var before := ps[..|ps| - 1];
      PollRunIsRun(m, before);
      PollTwins(PollRun(m, before), Run(m, AllInputs(m, before)), ps[|ps| - 1]);
      RunSplit(m, AllInputs(m, before), InputsOf(PollRun(m, before), ps[|ps| - 1]));
    }
  }

  lemma SameAsItself(m: Machine)
    ensures AreTwins(m, m)
  {
    hide StopTimer;
  }

  lemma RunNothing(m: Machine)
    ensures Run(m, []) == m
  {
    hide Step;
  }

  /** Safety, the timer discipline and the values shown to the EV, after these inputs. */
  predicate Holds(m: Machine, config: SessionConfig, p: Option<PauseContext>, inputs: seq<Input>) {
    Safe(m, p) && Disciplined(m) && UpToDate(m, config, inputs)
  }

  lemma HoldsOfTwin(m: Machine, n: Machine, config: SessionConfig, p: Option<PauseContext>, inputs: seq<Input>)
    requires AreTwins(m, n) && Holds(n, config, p, inputs)
    ensures Holds(m, config, p, inputs)
  {
    assert OngoingTimer in StopTimer(m.ctx.timers, Sequence) <==> OngoingTimer in m.ctx.timers;
  }

  /** At every point of a run of polls: the session is safe, ONGOING runs only where it is awaited,
      and what the EV is shown is the last control event of its kind that was drained. */
  lemma {:induction false} PollRunHolds(
      config: SessionConfig, cert: Option<CertHash>, p: Option<PauseContext>, ps: seq<Polled>)
    ensures var m := Init(config, cert, p);
      Holds(PollRun(m, ps), config, p, AllInputs(m, ps))
  {
    hide Run, PollRun, Init, AllInputs, Safe, Disciplined, UpToDate, AreTwins;
    var m := Init(config, cert, p);
    PollRunIsRun(m, ps);
    SafeRun(config, cert, p, AllInputs(m, ps));
    DisciplinedRun(config, cert, p, AllInputs(m, ps));
    UpToDateRun(config, cert, p, AllInputs(m, ps));
    HoldsOfTwin(PollRun(m, ps), Run(m, AllInputs(m, ps)), config, p, AllInputs(m, ps));
  }

  // ----------------------------------------------------------------- the sequence timer

  /** The deadline of the sequence timer, if it runs. */
  function SequenceOf(m: Machine): Option<nat> {
    if Sequence in m.ctx.timers then Some(m.ctx.timers[Sequence]) else None
  }

  lemma {:induction false} ControlsKeepSequence(m: Machine, inputs: seq<Input>)
    requires forall i <- inputs :: i.event.Control?
    ensures SequenceOf(Run(m, inputs)) == SequenceOf(m)
  {
    hide Step, Parks, IsContactorReport;
    if inputs != [] {
      var before, i := Run(m, inputs[..|inputs| - 1]), inputs[|inputs| - 1];
      ControlsKeepSequence(m, inputs[..|inputs| - 1]);
      StepMovesTimers(before, i);
    }
  }

  lemma {:induction false} HandledKeepsSequence(m: Machine, i: Input)
    requires i.event != Expired(Sequence)
    ensures SequenceOf(MustHandle(m, i)) == SequenceOf(m)
  {
    hide Step, Parks, IsContactorReport;
    StepMovesTimers(m, i);
  }

  lemma {:induction false} ExpireKeepsSequence(m: Machine, list: seq<TimeoutType>, now: nat)
    ensures SequenceOf(Expire(m, list, now)) == SequenceOf(m)
    decreases list
  {
    hide MustHandle;
    if list != [] && list[0] != Sequence {
      var i := Input(Expired(list[0]), now);
      HandledKeepsSequence(m, i);
      ExpireKeepsSequence(MustHandle(m, i), list[1..], now);
    }
  }

  /** What a poll does to the sequence timer: a message other than the first kind stops it, a response starts
      it unless it runs, and nothing else moves it. */
  predicate SequenceMoved(m: Machine, p: Polled, n: Machine) {
    var stopped := p.message.Some? && !p.message.value.request.SupportedAppProtocolReq?;
    var kept := if stopped then None else SequenceOf(m);
    SequenceOf(n) ==
    if |n.log.responses| > |m.log.responses| then Some(kept.GetOr(p.now + 60_000)) else kept
  }

  lemma {:induction false} SequenceExact(m: Machine, p: Polled)
    ensures SequenceMoved(m, p, PollOnce(m, p))
  {
    hide Run, Expire, MustHandle, DueTimers;
    ControlsKeepSequence(m, ControlInputs(p.queue, p.now));
    var c, t := Controlled(m, p), TimedOut(m, p);
    ExpireKeepsSequence(c, DueTimers(c.ctx.timers, p.now), p.now);
    if p.message.Some? {
      HandledKeepsSequence(Received(t, p.message.value.request), p.message.value.At(p.now));
    }
  }

  predicate NoMessages(ps: seq<Polled>) {
    forall p <- ps :: p.message.None?
  }

  /** Without messages the sequence timer keeps its deadline, even through responses. */
  lemma {:induction false} SilenceKeepsSequence(m: Machine, ps: seq<Polled>)
    requires SequenceOf(m).Some? && NoMessages(ps)
    ensures SequenceOf(PollRun(m, ps)) == SequenceOf(m)
  {
    hide PollOnce;
    if ps != [] {
      SilenceKeepsSequence(m, ps[..|ps| - 1]);
      SequenceExact(PollRun(m, ps[..|ps| - 1]), ps[|ps| - 1]);
    }
  }

  lemma DueIfReached(timers: map<TimeoutType, nat>, t: TimeoutType, now: nat)
    requires t in timers && timers[t] <= now
    ensures DueTimers(timers, now) != []
  {
    hide Collected;
    CollectedIsDueList(TableOf(timers), now);
    assert Due(TableOf(timers), t, now);
  }

  /** The sequence timer runs, no poll delivers a message, and the last one is at or after the deadline. */
  predicate SilentFor(m: Machine, ps: seq<Polled>, last: Polled) {
    SequenceOf(m).Some? && NoMessages(ps) && SequenceOf(m).value <= last.now
  }

  /** Silence until the sequence timer is reached stops the session, at the first poll at or after it. */
  lemma {:induction false} SilenceStops(m: Machine, ps: seq<Polled>, last: Polled)
    requires SilentFor(m, ps, last)
    ensures PollOnce(PollRun(m, ps), last).ctx.stopped
  {
    hide PollOnce, PollRun, DueTimers, Run;
    var n := PollRun(m, ps);
    SilenceKeepsSequence(m, ps);
    ControlsKeepSequence(n, ControlInputs(last.queue, last.now));
    DueIfReached(Controlled(n, last).ctx.timers, Sequence, last.now);
    PollStops(n, last);
  }
}
