/** A terminated session is gone: over all later connections it can only be joined when created anew. */
module Termination {
  import opened Common
  import opened Types
  import opened Machine
  import opened Frame
  import opened Safety
  import opened Resume
  import opened Charging

  /** The connection up to its k-th event. */
  function UpTo(v: Visit, k: nat): Visit {
    v.(inputs := Prefix(v.inputs, k))
  }

  /** The k-th event of this connection is a request to terminate, after charging and under any id. */
  predicate TerminatesAt(visits: seq<Visit>, v: Visit, k: nat) {
    hide During, UpTo, Ended;
    && k < |v.inputs| && Ended(During(visits, UpTo(v, k)).state)
    && AsksEnd(v.inputs[k].event) && v.inputs[k].event.request.ending == Terminate
  }

  /** How much had happened before that event, over all connections. */
  function HappenedBefore(visits: seq<Visit>, v: Visit, k: nat): nat {
    hide NewsSoFar;
    |NewsSoFar(visits, UpTo(v, k))|
  }

  lemma {:induction false} NewsGrow(visits: seq<Visit>, more: seq<Visit>)
    ensures After(visits).news <= After(visits + more).news
  {
    hide Run, Init;
    if more == [] {
      assert visits + more == visits;
    } else {
      assert (visits + more)[..|visits + more| - 1] == visits + more[..|more| - 1];
      NewsGrow(visits, more[..|more| - 1]);
    }
  }

  lemma AfterOneMore(visits: seq<Visit>, v: Visit)
    ensures After(visits + [v]).news == After(visits).news + During(visits, v).log.news
  {
    hide Run, Init;
    assert (visits + [v])[..|visits|] == visits;
  }

  /** The termination is on record where it happened, and stays there. */
  lemma {:induction false} TerminationRecorded(visits: seq<Visit>, v: Visit, k: nat)
    requires TerminatesAt(visits, v, k)
    ensures IsTermination(NewsSoFar(visits, v), HappenedBefore(visits, v, k))
  {
    hide Run, Step, Init, After;
    var m0, i := Init(v.config, v.cert, After(visits).pause), v.inputs[k];
    var before, after := v.inputs[..k], v.inputs[k + 1..];
    var m := Run(m0, before);
    EndExact(v.config, v.cert, After(visits).pause, before, i);
    RunOneMore(m0, before, i);
    RunSplit(m0, before + [i], after);
    assert v.inputs == before + [i] + after;
    HistoryExtends(Run(m0, before + [i]), after);
    var n := Run(m0, v.inputs);
    assert m.log.news + [Terminated(m.ctx.session.id)] <= n.log.news;
    assert n.log.news[|m.log.news|] == Terminated(m.ctx.session.id);
  }

  /** This id was created under this certificate after the first t entries. */
  predicate CreatedAfter(news: seq<News>, t: nat, cert: Option<CertHash>, id: SessionId) {
    exists k | t < k < |news| :: news[k] == Created(cert, id)
  }

  /** A request of some later connection that joins a session. */
  predicate JoinsLater(all: seq<Visit>, w: Visit, i: Input) {
    During(all, w).state.SessionSetup? && AsksSetup(i.event) && IsJoined(Step(During(all, w), i))
  }

  predicate AnewAfter(news: seq<News>, t: nat, cert: Option<CertHash>, e: Event) {
    AsksSetup(e) ==> CreatedAfter(news, t, cert, e.request.sid)
  }

  /** Over all connections: what is joined after a request to terminate was created after it, under the
      certificate and the id that join it. */
  lemma {:induction false} TerminatedStaysGone(
      visits: seq<Visit>, v: Visit, k: nat, more: seq<Visit>, w: Visit, i: Input)
    requires TerminatesAt(visits, v, k)
    requires JoinsLater(visits + [v] + more, w, i)
    ensures AnewAfter(NewsSoFar(visits + [v] + more, w), HappenedBefore(visits, v, k), w.cert, i.event)
  {
    hide Run, Init, Step, After, LastPaused, TerminatesAt;
    var all := visits + [v] + more;
    var news, t := NewsSoFar(all, w), HappenedBefore(visits, v, k);
    TerminationRecorded(visits, v, k);
    AfterOneMore(visits, v);
    NewsGrow(visits + [v], more);
    assert NewsSoFar(visits, v) <= news;
    assert news[t].Terminated?;
    ResumeExact(all, w, i);
    var j: nat :| IsLive(news, j, w.cert.value, i.event.request.sid);
    assert news[j] == Created(w.cert, i.event.request.sid);
    assert j > t;
  }
}
