/** The session object: `poll` in the form of the source, and the delayed close. */
module SessionLoop {
  import opened Common
  import opened Types
  import opened Machine
  import opened Frame
  import opened Framing
  import opened SessionFsm
  import opened Polling

  // ------------------------------------------------------------------ delayed close

  /** What a poll sees at its end. */
  datatype Look = Look(now: nat, stopped: bool, paused: bool) {
    predicate Finished() {
      stopped || paused
    }
  }

  /** The connection is closed, and the data link is told how. */
  datatype Close = Close(at: nat, signal: Signal)

  datatype Closing = Closing(connected: bool, closeAt: Option<nat>, closes: seq<Close>)

  function CloseStep(c: Closing, l: Look): Closing {
    if !c.connected || !l.Finished() then c
    else
      var at := c.closeAt.GetOr(l.now + CLOSE_DELAY);
      if l.now >= at then Closing(false, None, c.closes + [Close(l.now, if l.paused then DlinkPause else DlinkTerminate)])
      else c.(closeAt := Some(at))
  }

  /** From the accepted connection on. */
  function CloseRun(looks: seq<Look>): Closing {
    if looks == [] then Closing(true, None, [])
    else CloseStep(CloseRun(looks[..|looks| - 1]), looks[|looks| - 1])
  }

  /** When `poll` wants to be called again. */
  function Wakeup(c: Closing, l: Look): nat {
    if c.connected && c.closeAt.Some? then c.closeAt.value else l.now + IDLE
  }

  /** The wakeup after the last of these polls. */
  function WakeupAfter(looks: seq<Look>): nat {
    if looks == [] then IDLE else Wakeup(CloseRun(looks), looks[|looks| - 1])
  }

  /** What is stopped or paused stays so. */
  predicate Lasting(looks: seq<Look>) {
    forall i, j | 0 <= i < j < |looks| ::
      (looks[i].stopped ==> looks[j].stopped) && (looks[i].paused ==> looks[j].paused)
  }

  /** The first poll that sees the session stopped or paused. */
  function FirstFinished(looks: seq<Look>): (f: nat)
    ensures f <= |looks|
    ensures f < |looks| ==> looks[f].Finished()
    ensures forall k | 0 <= k < f :: !looks[k].Finished()
  {
    if looks == [] then 0
    else
      var f := FirstFinished(looks[..|looks| - 1]);
      if f < |looks| - 1 || looks[|looks| - 1].Finished() then f else |looks|
  }

  /** The first poll from index f on that is at or after the deadline. */
  function FirstDue(looks: seq<Look>, f: nat, deadline: nat): (d: nat)
    requires f <= |looks|
    ensures f <= d <= |looks|
    ensures d < |looks| ==> looks[d].now >= deadline
    ensures forall k | f <= k < d :: looks[k].now < deadline
  {
    if f == |looks| then f
    else
      var d := FirstDue(looks[..|looks| - 1], f, deadline);
      if d < |looks| - 1 || looks[|looks| - 1].now >= deadline then d else |looks|
  }

  /** The close and its signal, exactly: at the first poll 5 s after the first one that saw the
      session over, once; until then the wakeup is that time, before and after it is idle. */
  lemma {:induction false} ClosesExactly(looks: seq<Look>)
    requires Lasting(looks)
    ensures var c, n, f := CloseRun(looks), |looks|, FirstFinished(looks);
      if f == n then c == Closing(true, None, []) && (n > 0 ==> Wakeup(c, looks[n - 1]) == looks[n - 1].now + IDLE)
      else
        var deadline := looks[f].now + CLOSE_DELAY;
        var d := FirstDue(looks, f, deadline);
        if d == n then c == Closing(true, Some(deadline), []) && Wakeup(c, looks[n - 1]) == deadline
        else
          && c == Closing(false, None, [Close(looks[d].now, if looks[d].paused then DlinkPause else DlinkTerminate)])
          && Wakeup(c, looks[n - 1]) == looks[n - 1].now + IDLE
          && looks[d].now >= looks[f].now + 5_000
  {
    if looks != [] {
      var n := |looks| - 1;
      var before := looks[..n];
      ClosesExactly(before);
      var f := FirstFinished(before);
      if f < n {
        assert looks[f].Finished() && looks[n].Finished();
      }
    }
  }

  /** A close is scheduled only for a session that is over. */
  lemma {:induction false} ScheduledWhenFinished(looks: seq<Look>)
    requires Lasting(looks) && CloseRun(looks).closeAt.Some?
    ensures looks != [] && looks[|looks| - 1].Finished()
  {
    ClosesExactly(looks);
    var f := FirstFinished(looks);
    assert looks[f].Finished();
  }

  lemma LastingGrows(looks: seq<Look>, l: Look)
    requires Lasting(looks)
    requires forall k <- looks :: (k.stopped ==> l.stopped) && (k.paused ==> l.paused)
    ensures Lasting(looks + [l])
    ensures CloseRun(looks + [l]) == CloseStep(CloseRun(looks), l)
  {
    assert (looks + [l])[..|looks|] == looks;
  }

  // ------------------------------------------------------------------------ session

  class Driver {
    const fsm: Fsm
    const receiver: Receiver
    var queue: seq<ControlEvent>
    var connected: bool
    var closeAt: Option<nat>
    ghost var accepted: bool
    /** Closed by the peer or by the integrator, not by a poll. */
    ghost var ended: bool
    ghost var closes: seq<Close>
    ghost var looks: seq<Look>
    /** The packets whose requests were fed to the state machine. */
    ghost var packets: seq<seq<uint8>>

    /** Since the connection was accepted, the delayed close is where its looks have brought it, and the
        packets are those of the bytes that were read. */
    ghost predicate Valid()
      reads this, fsm, receiver, receiver.packet, receiver.packet.buffer
    {
      && fsm.Idle() && receiver.Valid() && packets == PacketsOf(receiver.items)
      && Lasting(looks)
      && (forall l <- looks :: (l.stopped ==> fsm.ctx.stopped) && (l.paused ==> fsm.ctx.paused))
      && (accepted && !ended ==> Closing(connected, closeAt, closes) == CloseRun(looks))
      && (ended ==> accepted && !connected)
      && (!accepted ==> !connected && closeAt == None && closes == [] && looks == [])
      && (connected ==> closes == [])
    }

    constructor (config: SessionConfig, cert: Option<CertHash>, pauseCtx: Option<PauseContext>)
      ensures Valid() && fresh(fsm) && fresh(receiver) && fresh(receiver.packet) && fresh(receiver.packet.buffer)
      ensures fsm.View() == Init(config, cert, pauseCtx) && queue == [] && !accepted && packets == []
    {
      fsm := new Fsm(config, cert, pauseCtx);
      receiver := new Receiver();
      queue, connected, closeAt := [], false, None;
      accepted, ended, closes, looks, packets := false, false, [], [], [];
      new;
      NoPackets();
    }

    method PushControlEvent(e: ControlEvent)
      requires Valid()
      modifies this`queue
      ensures Valid() && queue == old(queue) + [e]
    {
      queue := queue + [e];
    }

    /** ACCEPTED: a connection is accepted once. */
    method Accept()
      requires Valid() && !accepted
      modifies this`connected, this`accepted
      ensures Valid() && connected && accepted
    {
      connected, accepted := true, true;
    }

    /** NEW_DATA. */
    method NewData()
      requires Valid() && connected
      modifies receiver`newData
      ensures Valid() && receiver.newData
    {
      receiver.NewData();
    }

    /** CLOSED by the peer: nothing is signalled, now or later. */
    method PeerClosed()
      requires Valid()
      modifies this`connected, this`ended
      ensures Valid() && !connected
      ensures ended <==> old(ended) || old(connected)
    {
      ended := ended || connected;
      connected := false;
    }

    /** `Session::close`: closes the connection at once and stops the session. */
    method ForceClose(now: nat)
      requires Valid() && accepted
      modifies this`connected, this`ended, this`closes, fsm
      ensures Valid() && !connected && ended
      ensures closes == old(closes) + [Close(now, DlinkTerminate)]
      ensures old(connected) ==> closes == [Close(now, DlinkTerminate)]
      ensures fsm.View() == Halted(old(fsm.View()))
    {
      connected, ended := false, true;
      closes := closes + [Close(now, DlinkTerminate)];
      fsm.Stop();
    }

    /** All queued control events, in order. */
    method DrainQueue(now: nat) returns (responded: bool)
      requires fsm.Idle()
      modifies this`queue, fsm
      ensures fsm.Idle() && queue == []
      ensures fsm.View() == Run(old(fsm.View()), ControlInputs(old(queue), now))
      ensures |fsm.log.responses| >= |old(fsm.log.responses)|
      ensures responded <==> |fsm.log.responses| > |old(fsm.log.responses)|
    {
      hide Step;
      responded := false;
      ghost var m, events, k := fsm.View(), queue, 0;
      assert events[..0] == [] && events[0..] == events;
      while queue != []
        invariant k <= |events| && queue == events[k..] && fsm.Idle()
        invariant fsm.View() == Run(m, ControlInputs(events[..k], now))
        invariant |fsm.log.responses| >= |m.log.responses|
        invariant responded <==> |fsm.log.responses| > |m.log.responses|
        decreases |queue|
      {
        var event := queue[0];
        queue := queue[1..];
        var i := Input(Control(event), now);
        assert ControlInputs(events[..k + 1], now) == ControlInputs(events[..k], now) + [i];
        RunOneMore(m, ControlInputs(events[..k], now), i);
        var handled, sent := fsm.Take(i);
        responded := responded || sent.Some?;
        k := k + 1;
      }
      assert events[..k] == events;
    }

    method TakeMandatory(i: Input) returns (responded: bool)
      requires fsm.Idle()
      modifies fsm
      ensures fsm.Idle() && fsm.View() == MustHandle(old(fsm.View()), i)
      ensures |fsm.log.responses| == |old(fsm.log.responses)| + One(responded)
    {
      hide Step;
      var handled, sent := fsm.Take(i);
      if !handled {
        fsm.Stop();
      }
      responded := sent.Some?;
    }

    /** The reached timers, each told to the state machine and reset. */
    method TellTimeouts(list: seq<TimeoutType>, now: nat) returns (responded: bool)
      requires fsm.Idle()
      modifies fsm
      ensures fsm.Idle() && fsm.View() == Expire(old(fsm.View()), list, now)
      ensures |fsm.log.responses| >= |old(fsm.log.responses)|
      ensures responded <==> |fsm.log.responses| > |old(fsm.log.responses)|
    {
      hide MustHandle;
      responded := false;
      ghost var m := fsm.View();
      assert list[0..] == list;
      for k := 0 to |list|
        invariant fsm.Idle() && Expire(m, list, now) == Expire(fsm.View(), list[k..], now)
        invariant |fsm.log.responses| >= |m.log.responses|
        invariant responded <==> |fsm.log.responses| > |m.log.responses|
      {
        if list[k] == Sequence {
          fsm.Stop();
          return;
        }
        var answered := TakeMandatory(Input(Expired(list[k]), now));
        responded := responded || answered;
      }
    }

    /** Control events, then timeouts, then the message, then the response. */
    method FeedAll(now: nat, message: Option<Incoming>)
      requires fsm.Idle()
      modifies this`queue, fsm
      ensures fsm.Idle() && queue == []
      ensures fsm.View() == PollOnce(old(fsm.View()), Polled(old(queue), message, now))
    {
      hide Run, Expire, MustHandle, DueTimers, StartTimer, StopTimer;
      var first := DrainQueue(now);
      var second := TellTimeouts(DueTimers(fsm.ctx.timers, now), now);
      var third := false;
      if message.Some? {
        if !message.value.request.SupportedAppProtocolReq? {
          fsm.StopTimeout(Sequence);
        }
        third := TakeMandatory(message.value.At(now));
      }
      if first || second || third {
        fsm.StartTimeout(Sequence, now + TIMEOUT_SEQUENCE);
      }
    }

    /** The end of a poll: the close is due, scheduled, or not wanted. */
    method CloseWhenDue(now: nat) returns (wakeup: nat)
      requires connected
      modifies this`connected, this`closeAt, this`closes
      ensures var l := Look(now, fsm.ctx.stopped, fsm.ctx.paused);
        var c := CloseStep(Closing(true, old(closeAt), old(closes)), l);
        Closing(connected, closeAt, closes) == c
        && (l.Finished() || old(closeAt).None? ==> wakeup == Wakeup(c, l))
    {
      if fsm.ctx.stopped || fsm.ctx.paused {
        if closeAt.None? {
          closeAt := Some(now + CLOSE_DELAY);
        }
        if now >= closeAt.value {
          connected, closeAt := false, None;
          closes := closes + [Close(now, if fsm.ctx.paused then DlinkPause else DlinkTerminate)];
          return now + IDLE;
        }
        return closeAt.value;
      }
      return now + IDLE;
    }

    /** The packet that is complete by now, if any. */
    method ReadPacket(connection: Connection, ready: nat, more: nat) returns (got: Option<seq<uint8>>)
      requires Valid()
      modifies this`packets, receiver, receiver.packet, receiver.packet.buffer, connection
      ensures Valid() && packets == old(packets) + if got.Some? then [got.value] else []
      ensures receiver.consumed + connection.stream == old(receiver.consumed + connection.stream)
      ensures receiver.newData ==> old(receiver.newData) && |connection.stream| < |old(connection.stream)|
      ensures old(receiver.newData) && !receiver.newData && ready >= BUFFER_SIZE && more >= BUFFER_SIZE ==>
                connection.stream == []
    {
      hide Parse, PacketsOf, CloseRun, Lasting;
      ghost var given;
      got, given := receiver.Poll(connection, ready, more);
      packets := packets + if got.Some? then [got.value] else [];
    }

    method Work(now: nat, message: Option<Incoming>)
      requires Valid()
      modifies this`queue, fsm
      ensures Valid() && queue == []
      ensures fsm.View() == PollOnce(old(fsm.View()), Polled(old(queue), message, now))
    {
      hide PollOnce, Step, CloseRun, Lasting, PacketsOf;
      PollStops(fsm.View(), Polled(queue, message, now));
      FeedAll(now, message);
    }

    /** The end of a poll. */
    method Conclude(now: nat) returns (wakeup: nat)
      requires Valid() && connected
      modifies this`connected, this`closeAt, this`closes, this`looks
      ensures Valid() && looks == old(looks) + [Look(now, fsm.ctx.stopped, fsm.ctx.paused)]
      ensures wakeup == WakeupAfter(looks)
    {
      hide Wakeup, CloseStep, CloseRun, Lasting, PacketsOf;
      if closeAt.Some? {
        ScheduledWhenFinished(looks);
      }
      LastingGrows(looks, Look(now, fsm.ctx.stopped, fsm.ctx.paused));
      wakeup := CloseWhenDue(now);
      looks := looks + [Look(now, fsm.ctx.stopped, fsm.ctx.paused)];
      OpenHasNoCloses(looks);
    }

    /** One turn of the event loop: reads at most one packet, `ready` and `more` being the bytes that
        have arrived at its two reads; `decode`, `newId` and `reply` are what the environment makes of it. */
    method Poll(
        now: nat, connection: Connection, ready: nat, more: nat,
        decode: seq<uint8> -> Request, newId: SessionId, reply: Option<seq<VasSet>>)
      returns (wakeup: nat, got: Option<seq<uint8>>)
      requires Valid()
      modifies this, fsm, receiver, receiver.packet, receiver.packet.buffer, connection
      ensures Valid() && accepted == old(accepted)
      ensures !old(connected) ==>
                && fsm.View() == old(fsm.View()) && queue == old(queue) && got == None
                && looks == old(looks) && closes == old(closes) && wakeup == now + IDLE
      ensures packets == old(packets) + if got.Some? then [got.value] else []
      ensures packets == PacketsOf(Parse(receiver.consumed).items)
      ensures receiver.consumed + connection.stream == old(receiver.consumed + connection.stream)
      ensures old(connected) && receiver.newData ==>
                old(receiver.newData) && |connection.stream| < |old(connection.stream)|
      ensures old(connected && receiver.newData) && !receiver.newData && ready >= BUFFER_SIZE && more >= BUFFER_SIZE ==>
                connection.stream == []
      ensures old(connected) ==>
                && fsm.View() == PollOnce(old(fsm.View()), PolledPacket(old(queue), got, decode, newId, reply, now))
                && queue == []
                && looks == old(looks) + [Look(now, fsm.ctx.stopped, fsm.ctx.paused)]
                && wakeup == WakeupAfter(looks)
    {
      hide PollOnce, WakeupAfter, Parse, PacketsOf, Lasting, CloseRun;
      got := None;
      if !connected {
        return now + IDLE, got;
      }
      got := ReadPacket(connection, ready, more);
      Work(now, DecodedBy(got, decode, newId, reply));
      wakeup := Conclude(now);
    }
  }

  function DecodedBy(
      got: Option<seq<uint8>>, decode: seq<uint8> -> Request, newId: SessionId, reply: Option<seq<VasSet>>)
    : Option<Incoming>
  {
    if got.Some? then Some(Incoming(decode(got.value), newId, reply)) else None
  }

  function PolledPacket(
      queue: seq<ControlEvent>, got: Option<seq<uint8>>,
      decode: seq<uint8> -> Request, newId: SessionId, reply: Option<seq<VasSet>>, now: nat): Polled
  {
    Polled(queue, DecodedBy(got, decode, newId, reply), now)
  }

  /** An open connection was not closed, and none is closed twice. */
  lemma {:induction false} OpenHasNoCloses(looks: seq<Look>)
    requires Lasting(looks)
    ensures |CloseRun(looks).closes| <= 1 && (CloseRun(looks).connected ==> CloseRun(looks).closes == [])
  {
    ClosesExactly(looks);
  }
}
