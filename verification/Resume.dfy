/** Sessions one after another over one pause context: who may join which session, and with what. */
module Resume {
  import opened Common
  import opened Types
  import opened Machine
  import opened Frame
  import opened Safety
  import opened DerSession

  /** One connection: its configuration, the vehicle certificate if there is one, and its events. */
  datatype Visit = Visit(config: SessionConfig, cert: Option<CertHash>, inputs: seq<Input>)

  /** The shared pause context and the news of all sessions so far. */
  datatype World = World(pause: Option<PauseContext>, news: seq<News>)

  /** What a sequence of sessions leaves behind; nothing is paused at first. */
  function After(visits: seq<Visit>): World {
    hide Run, Init;
    if visits == [] then World(None, [])
    else
      var before := After(visits[..|visits| - 1]);
      var v := visits[|visits| - 1];
      var m := Run(Init(v.config, v.cert, before.pause), v.inputs);
      World(m.ctx.pauseCtx, before.news + m.log.news)
  }

  /** A further connection after those before it. */
  function During(visits: seq<Visit>, v: Visit): Machine {
    Run(Init(v.config, v.cert, After(visits).pause), v.inputs)
  }

  // ------------------------------------------------- the pause context is its history

  function Replay(p: Option<PauseContext>, news: seq<News>): Option<PauseContext> {
    if news == [] then p else Apply(Replay(p, news[..|news| - 1]), news[|news| - 1])
  }

  /** A join matches the pause context that its past leads to; a pause under a certificate is one
      of the session that the pause context belongs to. */
  predicate Justified(p: Option<PauseContext>, n: News) {
    && (n.Joined? ==> n.asked != 0 && p == Some(PauseContext(Digest(n.cert, n.asked), n.session, n.selected)))
    && (n.Paused? && p.Some? && n.pauser.Some? ==> p.value.id == n.session)
  }

  predicate AllJustified(p: Option<PauseContext>, news: seq<News>) {
    forall j | 0 <= j < |news| :: Justified(Replay(p, news[..j]), news[j])
  }

  lemma {:induction false} ReplayConcat(p: Option<PauseContext>, a: seq<News>, b: seq<News>)
    ensures Replay(p, a + b) == Replay(Replay(p, a), b)
  {
    if b == [] {
      assert a + b == a;
    } else {
      assert (a + b)[..|a + b| - 1] == a + b[..|b| - 1];
      ReplayConcat(p, a, b[..|b| - 1]);
    }
  }

  lemma {:induction false} JustifiedConcat(p: Option<PauseContext>, a: seq<News>, b: seq<News>)
    requires AllJustified(p, a) && AllJustified(Replay(p, a), b)
    ensures AllJustified(p, a + b)
  {
    forall j | 0 <= j < |a + b|
      ensures Justified(Replay(p, (a + b)[..j]), (a + b)[j])
    {
      if j < |a| {
        assert (a + b)[..j] == a[..j];
      } else {
        assert (a + b)[..j] == a + b[..j - |a|];
        ReplayConcat(p, a, b[..j - |a|]);
      }
    }
  }

  /** Whose the pause context is: under a certificate the session's own, without one as it was. */
  predicate Owned(m: Machine, p: Option<PauseContext>) {
    && (m.ctx.cert.Some? && m.ctx.pauseCtx.Some? && Level(m.state) > Rank(AtSessionSetup) ==>
          m.ctx.pauseCtx.value.id == m.ctx.session.id)
    && (m.ctx.cert.None? && m.ctx.pauseCtx.Some? ==> p.Some? && m.ctx.pauseCtx.value.id == p.value.id)
  }

  predicate Explained(m: Machine, p: Option<PauseContext>) {
    m.ctx.pauseCtx == Replay(p, m.log.news) && AllJustified(p, m.log.news) && Owned(m, p)
  }

  lemma {:induction false} NewsJustified(m: Machine, i: Input, p: Option<PauseContext>)
    requires Explained(m, p)
    ensures AllJustified(m.ctx.pauseCtx, Outcome(m, i).news)
    ensures Step(m, i).ctx.pauseCtx == Replay(m.ctx.pauseCtx, Outcome(m, i).news)
  {
    hide Step, Outcome, Admits, Guarded, Moves, Signals, Replay;
    StepIsOutcome(m, i);
    StepCarries(m, i);
    ReplayNone(m.ctx.pauseCtx);
    var news := Outcome(m, i).news;
    if news != [] {
      assert news == [news[0]];
      ReplayOne(m.ctx.pauseCtx, news[0]);
    }
  }

  lemma {:induction false} OwnedStep(m: Machine, i: Input, p: Option<PauseContext>)
    requires Owned(m, p)
    ensures Owned(Step(m, i), p)
  {
    hide Step, Outcome, Guarded, Moves, Signals, Extends;
    StepIsOutcome(m, i);
    StepCarries(m, i);
  }

  lemma {:induction false} ExplainedStep(m: Machine, i: Input, p: Option<PauseContext>)
    requires Explained(m, p)
    ensures Explained(Step(m, i), p)
  {
    hide Step, Outcome, Admits, Guarded, Moves, Signals, Tells, AllJustified, Replay, Owned;
    StepIsOutcome(m, i);
    NewsJustified(m, i, p);
    OwnedStep(m, i, p);
    ReplayConcat(p, m.log.news, Outcome(m, i).news);
    JustifiedConcat(p, m.log.news, Outcome(m, i).news);
  }

  lemma ReplayNone(p: Option<PauseContext>)
    ensures Replay(p, []) == p
  {
  }

  lemma ReplayOne(p: Option<PauseContext>, n: News)
    ensures Replay(p, [n]) == Apply(p, n)
  {
    assert [n][..0] == [];
  }

  lemma {:induction false} ExplainedRun(
      config: SessionConfig, cert: Option<CertHash>, p: Option<PauseContext>, inputs: seq<Input>)
    ensures Explained(Run(Init(config, cert, p), inputs), p)
  {
    hide Step;
    if inputs != [] {
      ExplainedRun(config, cert, p, inputs[..|inputs| - 1]);
      ExplainedStep(Run(Init(config, cert, p), inputs[..|inputs| - 1]), inputs[|inputs| - 1], p);
    }
  }

  /** The pause context is a function of the news, and every join fits the news before it. */
  lemma {:induction false} PauseIsHistory(visits: seq<Visit>)
    ensures After(visits).pause == Replay(None, After(visits).news)
    ensures AllJustified(None, After(visits).news)
  {
    hide Run, Init, Replay;
    if visits == [] {
      ReplayNone(None);
    } else {
      var before, v := After(visits[..|visits| - 1]), visits[|visits| - 1];
      PauseIsHistory(visits[..|visits| - 1]);
      ExplainedRun(v.config, v.cert, before.pause, v.inputs);
      var news := Run(Init(v.config, v.cert, before.pause), v.inputs).log.news;
      ReplayConcat(None, before.news, news);
      JustifiedConcat(None, before.news, news);
    }
  }

  lemma {:induction false} CertStays(m: Machine, inputs: seq<Input>)
    ensures Run(m, inputs).ctx.cert == m.ctx.cert
  {
    hide Step;
    if inputs != [] {
      CertStays(m, inputs[..|inputs| - 1]);
      StepCarries(Run(m, inputs[..|inputs| - 1]), inputs[|inputs| - 1]);
    }
  }

  // ------------------------------------------------------------ what a history means

  /** The services held at the last pause. */
  function LastPaused(news: seq<News>): Selected {
    if news == [] then NothingSelected
    else if news[|news| - 1].Paused? then news[|news| - 1].selected
    else LastPaused(news[..|news| - 1])
  }

  /** Entry k created what is paused; nothing since ended or replaced it, and it holds the last services paused. */
  predicate MadeBy(news: seq<News>, k: nat, p: PauseContext)
    requires k < |news|
  {
    && p.digest.id == p.id
    && news[k] == Created(Some(p.digest.cert), p.id)
    && (forall l | k < l < |news| :: !news[l].Terminated? && !(news[l].Created? && news[l].owner.Some?))
    && p.selected == LastPaused(news[k + 1..])
  }

  /** What neither terminates nor creates a session under a certificate leaves it made as it was. */
  lemma MadeStays(news: seq<News>, k: nat, p: PauseContext, n: News)
    requires k < |news| && MadeBy(news, k, p) && !n.Terminated? && !(n.Created? && n.owner.Some?)
    ensures MadeBy(news + [n], k, p.(selected := if n.Paused? then n.selected else p.selected))
  {
    var since := (news + [n])[k + 1..];
    assert since == news[k + 1..] + [n];
    assert since[..|since| - 1] == news[k + 1..];
    assert forall l | 0 <= l < |news| :: (news + [n])[l] == news[l];
  }

  lemma {:induction false} PausedSince(news: seq<News>)
    requires Replay(None, news).Some?
    ensures exists k: nat | k < |news| :: MadeBy(news, k, Replay(None, news).value)
  {
    var n := |news| - 1;
    var last, p := news[n], Replay(None, news).value;
    if last.Created? && last.owner.Some? {
      assert news[n + 1..] == [];
      assert MadeBy(news, n, p);
    } else {
      PausedSince(news[..n]);
      var k: nat :| k < n && MadeBy(news[..n], k, Replay(None, news[..n]).value);
      MadeStays(news[..n], k, Replay(None, news[..n]).value, last);
      assert news == news[..n] + [last];
    }
  }

  lemma {:induction false} MadeIsPaused(news: seq<News>, k: nat, p: PauseContext)
    requires k < |news| && MadeBy(news, k, p)
    ensures Replay(None, news) == Some(p)
  {
    var n := |news| - 1;
    if k < n {
      var since := news[..n][k + 1..];
      assert news[k + 1..][..|news[k + 1..]| - 1] == since;
      MadeIsPaused(news[..n], k, p.(selected := LastPaused(since)));
    }
  }

  /** The histories that leave a pause context, exactly. */
  lemma {:induction false} PausedExactly(news: seq<News>, p: PauseContext)
    ensures Replay(None, news) == Some(p) <==> exists k: nat | k < |news| :: MadeBy(news, k, p)
  {
    if Replay(None, news) == Some(p) {
      PausedSince(news);
    }
    if k: nat :| k < |news| && MadeBy(news, k, p) {
      MadeIsPaused(news, k, p);
    }
  }

  // ------------------------------------------------------------ who opened a session

  /** The last creation or join. */
  function LastOpened(news: seq<News>): Option<News> {
    if news == [] then None
    else
      var n := news[|news| - 1];
      if n.Created? || n.Joined? then Some(n) else LastOpened(news[..|news| - 1])
  }

  /** A session of this id was opened under this certificate, or created without one. */
  predicate OpenedAs(n: Option<News>, cert: Option<CertHash>, id: SessionId) {
    n == Some(Created(cert, id)) || (n.Some? && n.value.Joined? && cert == Some(n.value.cert) && n.value.session == id)
  }

  /** Only the session opened last is ever paused. */
  predicate PausedWhenOpen(news: seq<News>) {
    forall j | 0 <= j < |news| && news[j].Paused? :: OpenedAs(LastOpened(news[..j]), news[j].pauser, news[j].session)
  }

  lemma {:induction false} OpenedConcat(a: seq<News>, b: seq<News>)
    ensures LastOpened(a + b) == if LastOpened(b).Some? then LastOpened(b) else LastOpened(a)
  {
    if b == [] {
      assert a + b == a;
    } else {
      assert (a + b)[..|a + b| - 1] == a + b[..|b| - 1];
      OpenedConcat(a, b[..|b| - 1]);
    }
  }

  lemma {:induction false} PausedWhenOpenConcat(a: seq<News>, b: seq<News>)
    requires PausedWhenOpen(a) && PausedWhenOpen(b)
    ensures PausedWhenOpen(a + b)
  {
    hide LastOpened;
    forall j | 0 <= j < |a + b| && (a + b)[j].Paused?
      ensures OpenedAs(LastOpened((a + b)[..j]), (a + b)[j].pauser, (a + b)[j].session)
    {
      if j < |a| {
        assert (a + b)[..j] == a[..j];
      } else {
        assert (a + b)[..j] == a + b[..j - |a|];
        assert OpenedAs(LastOpened(b[..j - |a|]), b[j - |a|].pauser, b[j - |a|].session);
        OpenedConcat(a, b[..j - |a|]);
      }
    }
  }

  predicate Opened(m: Machine) {
    && (Level(m.state) > Rank(AtSessionSetup) ==> OpenedAs(LastOpened(m.log.news), m.ctx.cert, m.ctx.session.id))
    && PausedWhenOpen(m.log.news)
  }

  lemma LastOpenedOne(n: News)
    ensures LastOpened([n]) == if n.Created? || n.Joined? then Some(n) else None
    ensures LastOpened([]) == None
  {
    assert [n][..0] == [];
  }

  /** What one step adds to the news: at most one entry, of the session it ends with or began with. */
  predicate NewsAdded(m: Machine, news: seq<News>, n: Machine) {
    && n.log.news == m.log.news + news && |news| <= 1 && n.ctx.cert == m.ctx.cert
    && (forall x <- news :: x.Created? || x.Joined? ==>
          m.state.SessionSetup? && OpenedAs(Some(x), m.ctx.cert, n.ctx.session.id))
    && (forall x <- news :: x.Paused? ==> !m.state.SessionSetup? && x.session == m.ctx.session.id && x.pauser == m.ctx.cert)
    && (m.state.SessionSetup? && !n.state.SessionSetup? ==> exists x <- news :: x.Created? || x.Joined?)
  }

  lemma {:induction false} NewsStep(m: Machine, i: Input)
    ensures NewsAdded(m, Outcome(m, i).news, Step(m, i))
  {
    hide Step, Outcome, Admits, Guarded, Moves, Signals, Apply;
    StepIsOutcome(m, i);
  }

  /** Before session setup nothing is paused. */
  lemma {:induction false} NoNewsBefore(m: Machine, i: Input)
    requires m.state.SupportedAppProtocol?
    ensures Step(m, i).log.news == m.log.news && Level(Step(m, i).state) <= Rank(AtSessionSetup)
  {
    hide Step, Extends;
    StepCarries(m, i);
  }

  lemma {:induction false} OpenedStep(m: Machine, i: Input)
    requires Opened(m)
    ensures Opened(Step(m, i))
  {
    hide Step, Outcome, LastOpened;
    NewsStep(m, i);
    StepClimbs(m, i);
    IdStays(m, i);
    if m.state.SupportedAppProtocol? {
      NoNewsBefore(m, i);
    }
    var news := Outcome(m, i).news;
    OpenedConcat(m.log.news, news);
    if news == [] {
      assert m.log.news + news == m.log.news;
      LastOpenedOne(Terminated(0));
    } else {
      var x := news[0];
      assert news == [x] && x in news;
      LastOpenedOne(x);
      if !m.state.SupportedAppProtocol? {
        PauseAdded(m.log.news, x);
      }
    }
  }

  lemma {:induction false} IdStays(m: Machine, i: Input)
    ensures !m.state.SessionSetup? ==> Step(m, i).ctx.session.id == m.ctx.session.id
  {
    hide Step, Extends, Edge, Id;
    StepCarries(m, i);
  }

  lemma PauseAdded(news: seq<News>, x: News)
    requires PausedWhenOpen(news)
    requires x.Paused? ==> OpenedAs(LastOpened(news), x.pauser, x.session)
    ensures PausedWhenOpen(news + [x])
  {
    hide LastOpened;
    assert forall j | 0 <= j <= |news| :: (news + [x])[..j] == news[..j];
    assert news[..|news|] == news;
  }

  lemma {:induction false} OpenedRun(
      config: SessionConfig, cert: Option<CertHash>, p: Option<PauseContext>, inputs: seq<Input>)
    ensures Opened(Run(Init(config, cert, p), inputs))
  {
    hide Step;
    if inputs != [] {
      OpenedRun(config, cert, p, inputs[..|inputs| - 1]);
      OpenedStep(Run(Init(config, cert, p), inputs[..|inputs| - 1]), inputs[|inputs| - 1]);
    }
  }

  lemma {:induction false} AlwaysPausedWhenOpen(visits: seq<Visit>)
    ensures PausedWhenOpen(After(visits).news)
  {
    hide Run, Init, PausedWhenOpen;
    if visits == [] {
      NothingPaused();
    } else {
      var before, v := After(visits[..|visits| - 1]), visits[|visits| - 1];
      AlwaysPausedWhenOpen(visits[..|visits| - 1]);
      OpenedRun(v.config, v.cert, before.pause, v.inputs);
      PausedWhenOpenConcat(before.news, Run(Init(v.config, v.cert, before.pause), v.inputs).log.news);
    }
  }

  lemma NothingPaused()
    ensures PausedWhenOpen([])
  {
  }

  // --------------------------------------------------------------------- theorems

  /** Entry k made what entry j joins, under the certificate and the id that it joins with. */
  predicate JoinsOwn(news: seq<News>, j: nat, k: nat)
  {
    && k < j < |news| && news[j].Joined?
    && MadeBy(news[..j], k, PauseContext(Digest(news[j].cert, news[j].asked), news[j].asked, news[j].selected))
  }

  lemma {:induction false} JoinJustified(news: seq<News>, j: nat)
    requires AllJustified(None, news) && j < |news| && news[j].Joined?
    ensures news[j].session == news[j].asked != 0
    ensures exists k: nat :: JoinsOwn(news, j, k)
  {
    assert Justified(Replay(None, news[..j]), news[j]);
    PausedSince(news[..j]);
    var k: nat :| k < j && MadeBy(news[..j], k, Replay(None, news[..j]).value);
    assert JoinsOwn(news, j, k);
  }

  /** A pause after a live creation is of that session exactly if it was made under a certificate,
      or without one by a session that had drawn the same id. */
  lemma {:induction false} PauseOwnExactly(news: seq<News>, k: nat, l: nat, p: PauseContext)
    requires AllJustified(None, news) && PausedWhenOpen(news)
    requires k < l < |news| && news[l].Paused? && MadeBy(news[..l], k, p)
    ensures news[l].session == p.id <==> news[l].pauser.Some? || LastOpened(news[..l]) == Some(Created(None, p.id))
  {
    hide Replay, LastOpened;
    MadeIsPaused(news[..l], k, p);
    assert Justified(Replay(None, news[..l]), news[l]);
    assert OpenedAs(LastOpened(news[..l]), news[l].pauser, news[l].session);
  }

  /** A history that made p keeps making it, with the services of the pauses so far. */
  lemma MadeEarlier(news: seq<News>, k: nat, l: nat, p: PauseContext)
    requires k < l <= |news| && MadeBy(news, k, p)
    ensures MadeBy(news[..l], k, p.(selected := LastPaused(news[..l][k + 1..])))
  {
    hide LastPaused;
    assert forall x | 0 <= x < l :: news[..l][x] == news[x];
  }

  /** A session joined as old has the id the EV asked for, which was created by the same
      certificate and has not been terminated or replaced since; it holds the services last paused. */
  lemma {:induction false} JoinedIsOwn(visits: seq<Visit>, j: nat)
    requires IsJoin(After(visits).news, j)
    ensures JoinsItself(After(visits).news, j)
    ensures exists k: nat :: JoinsOwn(After(visits).news, j, k)
  {
    hide After;
    PauseIsHistory(visits);
    JoinJustified(After(visits).news, j);
  }

  predicate IsJoin(news: seq<News>, j: nat) {
    j < |news| && news[j].Joined?
  }

  predicate IsPause(news: seq<News>, l: nat) {
    l < |news| && news[l].Paused?
  }

  predicate JoinsItself(news: seq<News>, j: nat) {
    IsJoin(news, j) ==> news[j].session == news[j].asked != 0
  }

  /** After a termination an id can only be joined when it has been created anew, under the certificate
      that joins it. */
  lemma {:induction false} TerminatedIsGone(visits: seq<Visit>, t: nat, j: nat)
    requires IsJoin(After(visits).news, j) && t < j && IsTermination(After(visits).news, t)
    ensures exists k :: CreatedBetween(After(visits).news, t, k, j)
  {
    hide After;
    JoinedIsOwn(visits, j);
    var news := After(visits).news;
    var k: nat :| JoinsOwn(news, j, k);
    assert news[..j][k] == news[k] && news[..j][t] == news[t];
    assert CreatedBetween(news, t, k, j);
  }

  predicate IsTermination(news: seq<News>, t: nat) {
    t < |news| && news[t].Terminated?
  }

  predicate CreatedBetween(news: seq<News>, t: nat, k: int, j: nat) {
    t < k < j < |news| && news[j].Joined? && news[k] == Created(Some(news[j].cert), news[j].asked)
  }

  /** Over all connections: between the creation and the join of an id, a pause was one of that id exactly
      if the pausing connection had a certificate, or had none and had drawn that very id. */
  lemma {:induction false} PausesAreOwnExactly(visits: seq<Visit>, j: nat, k: nat, l: nat)
    requires JoinsOwn(After(visits).news, j, k) && k < l < j && IsPause(After(visits).news, l)
    ensures OwnPauseExactly(After(visits).news, j, l)
  {
    hide After;
    PauseIsHistory(visits);
    AlwaysPausedWhenOpen(visits);
    var news := After(visits).news;
    var p := PauseContext(Digest(news[j].cert, news[j].asked), news[j].asked, news[j].selected);
    MadeEarlier(news[..j], k, l, p);
    assert news[..j][..l] == news[..l];
    PauseOwnExactly(news, k, l, p.(selected := LastPaused(news[..l][k + 1..])));
  }

  predicate OwnPauseExactly(news: seq<News>, j: nat, l: nat) {
    IsJoin(news, j) && IsPause(news, l) ==>
      (news[l].session == news[j].asked <==>
         news[l].pauser.Some? || LastOpened(news[..l]) == Some(Created(None, news[j].asked)))
  }

  /** The services that sessions of this id held at their last pause. */
  function LastPausedOf(news: seq<News>, id: SessionId): Selected {
    if news == [] then NothingSelected
    else
      var n := news[|news| - 1];
      if n.Paused? && n.session == id then n.selected else LastPausedOf(news[..|news| - 1], id)
  }

  lemma {:induction false} OwnPausesOnly(news: seq<News>, id: SessionId)
    requires forall n <- news | n.Paused? :: n.session == id
    ensures LastPaused(news) == LastPausedOf(news, id)
  {
    if news != [] && !news[|news| - 1].Paused? {
      OwnPausesOnly(news[..|news| - 1], id);
    }
  }

  /** On every connection, a session that is past negotiation without an accepted authorization
      was created and paused before, and holds exactly the services of its last pause. */
  lemma {:induction false} ResumedWithPausedServices(visits: seq<Visit>, v: Visit)
    requires Level(During(visits, v).state) >= PARAMETERS && !Authorized(During(visits, v))
    ensures exists k: nat :: MadeWith(After(visits).news, k, v.cert, During(visits, v).ctx.session)
  {
    hide Run, After, OnBranch, Ready, EndsOnce, Authorized;
    var p, m := After(visits).pause, During(visits, v);
    PauseIsHistory(visits);
    SafeRun(v.config, v.cert, p, v.inputs);
    CertStays(Init(v.config, v.cert, p), v.inputs);
    PausedSince(After(visits).news);
    var k: nat :| k < |After(visits).news| && MadeBy(After(visits).news, k, p.value);
    assert MadeWith(After(visits).news, k, v.cert, m.ctx.session);
  }

  /** Entry k created this session under this certificate, and it holds what was last paused. */
  predicate MadeWith(news: seq<News>, k: nat, cert: Option<CertHash>, s: Session) {
    && k < |news| && cert.Some? && s.id != 0
    && MadeBy(news, k, PauseContext(Digest(cert.value, s.id), s.id, s.selected))
  }

  /** The connections that paused since entry k had certificates. */
  predicate PausedUnderCertificates(news: seq<News>, k: nat) {
    forall l | k < l < |news| && news[l].Paused? :: news[l].pauser.Some?
  }

  predicate HoldsOwn(news: seq<News>, k: nat, s: Session) {
    k < |news| && s.selected == LastPausedOf(news[k + 1..], s.id)
  }

  /** If the connections that paused since its creation had certificates (whatever the others had), a
      session that is past negotiation without an accepted authorization holds exactly the services
      that its own id held when it was last paused. */
  lemma {:induction false} ResumedWithOwnServices(visits: seq<Visit>, v: Visit, k: nat)
    requires Level(During(visits, v).state) >= PARAMETERS && !Authorized(During(visits, v))
    requires MadeWith(After(visits).news, k, v.cert, During(visits, v).ctx.session)
    requires PausedUnderCertificates(After(visits).news, k)
    ensures HoldsOwn(After(visits).news, k, During(visits, v).ctx.session)
  {
    hide After, During, MadeBy, AllJustified, PausedWhenOpen, PausedUnderCertificates, LastPaused, LastPausedOf;
    var news, s := After(visits).news, During(visits, v).ctx.session;
    PauseIsHistory(visits);
    AlwaysPausedWhenOpen(visits);
    var p := PauseContext(Digest(v.cert.value, s.id), s.id, s.selected);
    OwnSince(news, k, p);
    OwnPausesOnly(news[k + 1..], s.id);
    MadeHolds(news, k, p);
  }

  lemma MadeHolds(news: seq<News>, k: nat, p: PauseContext)
    requires k < |news| && MadeBy(news, k, p)
    ensures p.selected == LastPaused(news[k + 1..])
  {
    hide LastPaused;
  }

  /** Under certificates, all pauses since the creation are of the session created. */
  lemma {:induction false} OwnSince(news: seq<News>, k: nat, p: PauseContext)
    requires AllJustified(None, news) && PausedWhenOpen(news) && PausedUnderCertificates(news, k)
    requires k < |news| && MadeBy(news, k, p)
    ensures forall n <- news[k + 1..] | n.Paused? :: n.session == p.id
  {
    hide AllJustified, PausedWhenOpen, MadeBy, LastPaused, LastOpened;
    var since := news[k + 1..];
    forall n <- since | n.Paused?
      ensures n.session == p.id
    {
      var x :| 0 <= x < |since| && since[x] == n;
      var l := k + 1 + x;
      assert news[l] == n;
      MadeEarlier(news, k, l, p);
      PauseOwnExactly(news, k, l, p.(selected := LastPaused(news[..l][k + 1..])));
    }
  }

  /** Past session setup the pause context is the session's own exactly with a certificate, or if the
      session happens to have the id that was paused when it connected. */
  lemma {:induction false} OwnContextExactly(
      config: SessionConfig, cert: Option<CertHash>, p: Option<PauseContext>, inputs: seq<Input>)
    requires Level(Run(Init(config, cert, p), inputs).state) > Rank(AtSessionSetup)
    ensures ContextOwnedExactly(Run(Init(config, cert, p), inputs), p)
  {
    hide Run;
    ExplainedRun(config, cert, p, inputs);
  }

  predicate ContextOwnedExactly(m: Machine, p: Option<PauseContext>) {
    m.ctx.pauseCtx.Some? ==>
      (m.ctx.pauseCtx.value.id == m.ctx.session.id <==>
         m.ctx.cert.Some? || (p.Some? && p.value.id == m.ctx.session.id))
  }

  predicate AsksSetup(e: Event) {
    e.Message? && e.request.SessionSetupReq?
  }

  /** What a session-setup request does: it joins the paused session exactly when that was made under this
      certificate and the id asked for, and goes on where its services belong, or nowhere if it has none;
      otherwise it makes a new session. */
  predicate SetsUp(m: Machine, e: Event, n: Machine) {
    AsksSetup(e) ==>
      var sid, cert, p := e.request.sid, m.ctx.cert, m.ctx.pauseCtx;
      && |n.log.responses| == |m.log.responses| + 1
      && var r := n.log.responses[|m.log.responses|];
         if sid != 0 && cert.Some? && p.Some? && p.value.digest == Digest(cert.value, sid) then
           && r == Response(p.value.id, OkOldSession, NoBody)
           && n.ctx.session == NewSession(p.value.id).(selected := p.value.selected) && n.ctx.pauseCtx == p
           && (n.state.AcParameters? <==> p.value.selected.IsAc())
           && (n.state.DcParameters? <==> p.value.selected.IsDc())
           && (n.state.SessionSetup? <==> !p.value.selected.IsAc() && !p.value.selected.IsDc())
         else
           && r == Response(e.newId, OkNewSession, NoBody) && n.state.AuthorizationSetup?
           && n.ctx.session == NewSession(e.newId)
           && n.ctx.pauseCtx ==
              if cert.Some? then Some(PauseContext(Digest(cert.value, e.newId), e.newId, NothingSelected)) else p
  }

  lemma {:induction false} SetupExact(m: Machine, i: Input)
    requires m.state.SessionSetup? && AsksSetup(i.event)
    ensures SetsUp(m, i.event, Step(m, i))
  {
    hide Kept, Conforms, Step, Feed;
    MessageStep(m, i);
    FeedOfSetup(m.state, m.ctx, i.event, i.now);
  }

  // ------------------------------------------------------ only charging sessions pause

  predicate IsServed(s: Selected) {
    s.IsAc() || s.IsDc()
  }

  /** Every pause holds services. */
  predicate PausesServed(news: seq<News>) {
    forall n <- news | n.Paused? :: IsServed(n.selected)
  }

  lemma {:induction false} PausesServedStep(m: Machine, i: Input)
    requires OnBranch(m) && PausesServed(m.log.news)
    ensures PausesServed(Step(m, i).log.news)
  {
    hide Step, Outcome, Admits, Guarded, Moves, Signals, Apply, Edge, Extends;
    StepIsOutcome(m, i);
    StepCarries(m, i);
  }

  lemma {:induction false} PausesServedRun(
      config: SessionConfig, cert: Option<CertHash>, p: Option<PauseContext>, inputs: seq<Input>)
    ensures PausesServed(Run(Init(config, cert, p), inputs).log.news)
  {
    hide Step;
    if inputs != [] {
      hide AuthorizedFirst, Ready, EndsOnce, PausesServed;
      var before := inputs[..|inputs| - 1];
      PausesServedRun(config, cert, p, before);
      SafeRun(config, cert, p, before);
      PausesServedStep(Run(Init(config, cert, p), before), inputs[|inputs| - 1]);
    }
  }

  /** Over all connections, every pause holds AC or DC services. */
  lemma {:induction false} AlwaysPausedServed(visits: seq<Visit>)
    ensures PausesServed(After(visits).news)
  {
    hide Run, Init;
    if visits != [] {
      var before, v := After(visits[..|visits| - 1]), visits[|visits| - 1];
      AlwaysPausedServed(visits[..|visits| - 1]);
      PausesServedRun(v.config, v.cert, before.pause, v.inputs);
    }
  }

  predicate PausedAfter(news: seq<News>, k: nat) {
    exists l | k < l < |news| :: news[l].Paused?
  }

  /** What was last paused holds services exactly if anything was paused. */
  lemma {:induction false} LastPausedServed(news: seq<News>)
    requires PausesServed(news)
    ensures IsServed(LastPaused(news)) <==> exists n <- news :: n.Paused?
  {
    if news != [] && !news[|news| - 1].Paused? {
      var before := news[..|news| - 1];
      LastPausedServed(before);
      assert forall n <- news | n.Paused? :: n in before;
    }
  }

  lemma {:induction false} ServedAfter(news: seq<News>, k: nat)
    requires k < |news| && PausesServed(news)
    ensures IsServed(LastPaused(news[k + 1..])) <==> PausedAfter(news, k)
  {
    hide LastPaused, IsServed;
    var since := news[k + 1..];
    LastPausedServed(since);
    if n :| n in since && n.Paused? {
      var x :| 0 <= x < |since| && since[x] == n;
      assert news[k + 1 + x].Paused?;
    }
    if l :| k < l < |news| && news[l].Paused? {
      assert since[l - k - 1] == news[l];
    }
  }

  // ---------------------------------------------------------------- what can be resumed

  /** The news of all sessions before and of this one so far. */
  function NewsSoFar(visits: seq<Visit>, v: Visit): seq<News> {
    After(visits).news + During(visits, v).log.news
  }

  /** Entry k created the session that can be joined under this certificate and id. */
  predicate IsLive(news: seq<News>, k: nat, cert: CertHash, id: SessionId) {
    k < |news| && MadeBy(news, k, PauseContext(Digest(cert, id), id, LastPaused(news[k + 1..])))
  }

  predicate IsJoined(n: Machine) {
    n.log.responses != [] && n.log.responses[|n.log.responses| - 1].code == OkOldSession
  }

  /** The request joins exactly if the history holds a live session of that id and certificate. The session
      goes on, with the services last paused, exactly if some pause is on record after its creation: one
      that never paused is joined all the same, but stays in session setup. */
  ghost predicate JoinsExactly(news: seq<News>, cert: Option<CertHash>, e: Event, n: Machine) {
    AsksSetup(e) ==>
      var sid := e.request.sid;
      && (IsJoined(n) <==> sid != 0 && cert.Some? && exists k: nat :: IsLive(news, k, cert.value, sid))
      && (!IsJoined(n) ==> n.state.AuthorizationSetup?)
      && (IsJoined(n) && cert.Some? ==> forall k: nat | IsLive(news, k, cert.value, sid) ::
            GoesOn(n, LastPaused(news[k + 1..]), PausedAfter(news, k)))
  }

  predicate GoesOn(n: Machine, selected: Selected, moves: bool) {
    && n.ctx.session.selected == selected
    && (n.state.SessionSetup? <==> !moves)
    && (n.state.AcParameters? <==> moves && selected.IsAc())
    && (n.state.DcParameters? <==> moves && selected.IsDc())
  }

  /** Who can be resumed, over all connections: a session created under this certificate that has not been
      terminated or replaced since, and goes on exactly if some connection paused since. */
  lemma {:induction false} ResumeExact(visits: seq<Visit>, v: Visit, i: Input)
    requires During(visits, v).state.SessionSetup? && AsksSetup(i.event)
    ensures JoinsExactly(NewsSoFar(visits, v), v.cert, i.event, Step(During(visits, v), i))
  {
    hide After, Run, Step, LastPaused, MadeBy, AllJustified, PausesServed, JoinsExactly, Owned;
    var m, p := During(visits, v), After(visits).pause;
    var news := NewsSoFar(visits, v);
    PauseIsHistory(visits);
    ExplainedRun(v.config, v.cert, p, v.inputs);
    CertStays(Init(v.config, v.cert, p), v.inputs);
    ReplayConcat(None, After(visits).news, m.log.news);
    AlwaysPausedServed(visits);
    PausesServedRun(v.config, v.cert, p, v.inputs);
    PausesServedConcat(After(visits).news, m.log.news);
    SetupExact(m, i);
    JoinsAsReplayed(m, news, i.event, Step(m, i));
  }

  lemma PausesServedConcat(a: seq<News>, b: seq<News>)
    requires PausesServed(a) && PausesServed(b)
    ensures PausesServed(a + b)
  {
    hide IsServed;
  }

  /** What session setup makes of a pause context, in terms of the history that it replays. */
  lemma {:induction false} JoinsAsReplayed(m: Machine, news: seq<News>, e: Event, n: Machine)
    requires SetsUp(m, e, n) && m.ctx.pauseCtx == Replay(None, news) && PausesServed(news)
    ensures JoinsExactly(news, m.ctx.cert, e, n)
  {
    hide LastPaused, MadeBy, PausesServed, PausedAfter;
    if AsksSetup(e) && m.ctx.cert.Some? {
      var sid, cert, p := e.request.sid, m.ctx.cert.value, m.ctx.pauseCtx;
      if p.Some? && p.value.digest == Digest(cert, sid) {
        PausedSince(news);
        var k: nat :| k < |news| && MadeBy(news, k, p.value);
        MadeIsLive(news, k, p.value);
      }
      forall k: nat | IsLive(news, k, cert, sid)
        ensures p == Some(PauseContext(Digest(cert, sid), sid, LastPaused(news[k + 1..])))
        ensures IsServed(LastPaused(news[k + 1..])) <==> PausedAfter(news, k)
      {
        MadeIsPaused(news, k, PauseContext(Digest(cert, sid), sid, LastPaused(news[k + 1..])));
        ServedAfter(news, k);
      }
    }
  }

  lemma MadeIsLive(news: seq<News>, k: nat, p: PauseContext)
    requires k < |news| && MadeBy(news, k, p)
    ensures IsLive(news, k, p.digest.cert, p.digest.id)
  {
    hide LastPaused;
  }

  predicate AsksPause(e: Event) {
    e.Message? && e.request.SessionStopReq? && e.request.ending == Pause
  }

  /** The pause context as it was, but with the services of the pausing session. */
  predicate Overwritten(m: Machine, n: Machine) {
    && n.ctx.paused && n.state == m.state && n.ctx.session == m.ctx.session
    && (m.ctx.pauseCtx.Some? ==>
          n.ctx.pauseCtx == Some(m.ctx.pauseCtx.value.(selected := m.ctx.session.selected)))
  }

  /** A pause writes the services of the pausing session into the context, whoever created it:
      without a certificate these are the services of another session. */
  lemma {:induction false} PauseOverwrites(m: Machine, i: Input)
    requires Ended(m.state) && AsksPause(i.event)
    ensures Overwritten(m, Step(m, i))
  {
    hide Kept, Conforms, StopCode, Step, Feed, Recorded, TerminateSession, AnswerWelding, HearVoltage, Ignore, SequenceError,
      FeedPowerDelivery, FeedAcLoop, FeedDcLoop;
    MessageStep(m, i);
    FeedOfCharging(m.state, m.ctx, i.event, i.now);
  }

  /** Across all sessions, a paused or running DER selection carries every mandatory function. */
  lemma {:induction false} VisitsCarryAll(visits: seq<Visit>, v: Visit)
    ensures PausedCarriesAll(After(visits).pause) && AllCarry(During(visits, v).ctx)
    decreases |visits|
  {
    hide Run, Init, CarriesAll, AllCarry;
    if visits != [] {
      CarryOver(During(visits[..|visits| - 1], visits[|visits| - 1]));
      VisitsCarryAll(visits[..|visits| - 1], visits[|visits| - 1]);
    }
    assert AllCarry(Init(v.config, v.cert, After(visits).pause).ctx) by {
      FreshCarries(v, After(visits).pause);
    }
    RunCarriesAll(Init(v.config, v.cert, After(visits).pause), v.inputs);
  }

  predicate PausedCarriesAll(p: Option<PauseContext>) {
    p.Some? ==> CarriesAll(p.value.selected)
  }

  lemma CarryOver(m: Machine)
    ensures AllCarry(m.ctx) ==> PausedCarriesAll(m.ctx.pauseCtx)
  {
  }

  lemma FreshCarries(v: Visit, p: Option<PauseContext>)
    requires PausedCarriesAll(p)
    ensures AllCarry(Init(v.config, v.cert, p).ctx)
  {
  }
}
