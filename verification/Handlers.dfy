/** The request handlers that loop over lists and maps, in the form of the source, against the
    functions of Negotiation and Machine. */
module Handlers {
  import opened Common
  import opened Types
  import opened Negotiation
  import opened Machine

  // ------------------------------------------------------------------ negotiation

  /** Later entries of a priority overwrite earlier ones; the lowest number wins. */
  method Negotiate(protocols: seq<AppProtocol>, custom: string) returns (chosen: Option<AppProtocol>)
    ensures chosen == Negotiated(protocols, custom)
  {
    var supported: map<uint8, AppProtocol> := map[];
    ghost var best: Option<AppProtocol> := None;
    for k := 0 to |protocols|
      invariant best == Negotiated(protocols[..k], custom)
      invariant best.None? ==> supported == map[]
      invariant best.Some? ==> best.value.priority in supported && supported[best.value.priority] == best.value
      invariant best.Some? ==> forall q <- supported :: best.value.priority <= q
    {
      assert protocols[..k + 1][..k] == protocols[..k];
      var p := protocols[k];
      if p.name == ISO20_DC {
        supported := supported[p.priority := p];
      } else if p.name == ISO20_AC {
        supported := supported[p.priority := p];
      } else if p.name == custom {
        supported := supported[p.priority := p];
      }
      best := Negotiated(protocols[..k + 1], custom);
    }
    assert protocols[..|protocols|] == protocols;
    if supported == map[] {
      return None;
    }
    assert best.value.priority in supported;
    var first :| first in supported && forall q <- supported :: first <= q;
    return Some(supported[first]);
  }

  /** Entry k is acceptable; every other acceptable one has a higher number, or the same and is listed before. */
  predicate FirstChoice(ps: seq<AppProtocol>, custom: string, k: nat) {
    && k < |ps| && Acceptable(ps[k], custom)
    && (forall j | 0 <= j < |ps| && j != k && Acceptable(ps[j], custom) ::
          ps[k].priority < ps[j].priority || (ps[k].priority == ps[j].priority && j < k))
  }

  lemma {:induction false} NoneAcceptable(ps: seq<AppProtocol>, custom: string, k: nat)
    requires Negotiated(ps, custom).None? && k < |ps|
    ensures !Acceptable(ps[k], custom)
  {
    if k < |ps| - 1 {
      hide Acceptable;
      NoneAcceptable(ps[..|ps| - 1], custom, k);
    }
  }

  lemma {:induction false} ChosenAt(ps: seq<AppProtocol>, custom: string) returns (k: nat)
    requires Negotiated(ps, custom).Some?
    ensures FirstChoice(ps, custom, k) && Negotiated(ps, custom) == Some(ps[k])
  {
    hide Acceptable;
    var n := |ps| - 1;
    var before := ps[..n];
    assert forall j | 0 <= j < n :: before[j] == ps[j];
    if Negotiated(before, custom).None? {
      k := n;
      forall j | 0 <= j < n
        ensures !Acceptable(ps[j], custom)
      {
        NoneAcceptable(before, custom, j);
      }
    } else {
      k := ChosenAt(before, custom);
      if Acceptable(ps[n], custom) && ps[n].priority <= ps[k].priority {
        k := n;
      }
    }
  }

  /** Negotiation finds the acceptable protocol of the lowest priority number, the last one listed on a tie,
      and fails exactly if none is acceptable. */
  lemma {:induction false} NegotiatedExact(ps: seq<AppProtocol>, custom: string, p: AppProtocol)
    ensures Negotiated(ps, custom) == Some(p) <==> exists k: nat :: FirstChoice(ps, custom, k) && ps[k] == p
    ensures Negotiated(ps, custom).None? <==> forall q <- ps :: !Acceptable(q, custom)
  {
    hide Acceptable;
    if Negotiated(ps, custom).Some? {
      var j := ChosenAt(ps, custom);
      assert ps[j] in ps;
    } else {
      forall k | 0 <= k < |ps|
        ensures !Acceptable(ps[k], custom)
      {
        NoneAcceptable(ps, custom, k);
      }
    }
  }

  // -------------------------------------------------------------------- discovery

  method FilterServices(all: seq<uint16>, wanted: Option<seq<uint16>>) returns (kept: seq<uint16>)
    ensures kept == Keep(all, wanted)
  {
    kept := [];
    if wanted.None? {
      for k := 0 to |all|
        invariant kept == all[..k]
      {
        kept := kept + [all[k]];
      }
      return;
    }
    for k := 0 to |all|
      invariant kept == Keep(all[..k], wanted)
    {
      assert all[..k + 1][..k] == all[..k];
      if all[k] in wanted.value {
        kept := kept + [all[k]];
      }
    }
    assert all[..|all|] == all;
  }

  method DiscoverServices(session: Session, config: SessionConfig, supported: Option<seq<uint16>>)
    returns (found: Session)
    ensures found == Discover(session, config, supported)
  {
    found := session.(renegotiation := false, offered := NOTHING_OFFERED);
    var energy := FilterServices(config.energy, supported);
    var vas := FilterServices(config.vas, supported);
    found := found.(offered := found.offered.(energy := energy));
    found := found.(offered := found.offered.(vas := vas));
  }

  // ----------------------------------------------------------------------- detail

  lemma UsableOneMore(s: Service, sets: seq<ParameterSet>, p: ParameterSet)
    ensures Usable(s, sets + [p]) == if s != AC_DER || Complete(p) then Usable(s, sets) + [p] else Usable(s, sets)
  {
    assert (sets + [p])[..|sets|] == sets;
  }

  lemma OfferOneMore(earlier: map<uint8, ParameterSet>, sets: seq<ParameterSet>, p: ParameterSet)
    ensures Offer(earlier, sets + [p]) == Offer(earlier, sets)[ToUint8(|sets|) := p]
  {
    assert (sets + [p])[..|sets|] == sets;
  }

  lemma AdvertiseOneMore(sets: seq<ParameterSet>, p: ParameterSet)
    ensures Advertise(sets + [p]) == Advertise(sets) + [EnergySet(ToUint8(|sets|), p)]
  {
  }

  lemma NothingOffered(earlier: map<uint8, ParameterSet>, s: Service)
    ensures Usable(s, []) == [] && Offer(earlier, []) == earlier && Advertise([]) == []
  {
  }

  /** Stores and advertises the usable sets under a running id of eight bits. */
  method OfferSets(earlier: map<uint8, ParameterSet>, service: Service, sets: seq<ParameterSet>)
    returns (stored: map<uint8, ParameterSet>, list: seq<Advertised>)
    ensures stored == Offer(earlier, Usable(service, sets))
    ensures list == Advertise(Usable(service, sets))
  {
    hide Complete, Offer, Usable, Advertise;
    var id: uint8 := 0;
    stored, list := earlier, [];
    NothingOffered(earlier, service);
    ghost var usable: seq<ParameterSet> := [];
    for k := 0 to |sets|
      invariant usable == Usable(service, sets[..k])
      invariant stored == Offer(earlier, usable) && list == Advertise(usable) && id == ToUint8(|usable|)
    {
      assert sets[..k + 1] == sets[..k] + [sets[k]];
      UsableOneMore(service, sets[..k], sets[k]);
      if service == AC_DER && !Complete(sets[k]) {
        continue;
      }
      OfferOneMore(earlier, usable, sets[k]);
      AdvertiseOneMore(usable, sets[k]);
      stored := stored[id := sets[k]];
      list := list + [EnergySet(id, sets[k])];
      id := ToUint8(id + 1);
      usable := usable + [sets[k]];
    }
    assert sets[..|sets|] == sets;
  }

  lemma IdsOneMore(list: seq<Advertised>, a: Advertised)
    ensures IdsOf(list + [a]) == IdsOf(list) + {ToUint8(a.id)}
  {
  }

  lemma NoIds()
    ensures IdsOf([]) == {}
  {
  }

  lemma FirstId(ports: seq<uint8>)
    ensures InternetId(ports, 0) == 0 && IdsOf([]) == {}
  {
  }

  lemma NextId(ports: seq<uint8>, k: nat)
    requires k < |ports|
    ensures InternetId(ports, k + 1) == if 1 <= ports[k] <= 4 then ports[k] else InternetId(ports, k)
  {
  }

  method OfferInternet(earlier: set<uint8>, ports: seq<uint8>) returns (stored: set<uint8>, list: seq<Advertised>)
    ensures stored == earlier + IdsOf(InternetIds(ports)) && list == InternetIds(ports)
  {
    hide IdsOf, InternetId;
    var id: uint8 := 0;
    stored, list := earlier, [];
    FirstId(ports);
    for k := 0 to |ports|
      invariant id == InternetId(ports, k)
      invariant list == InternetIds(ports)[..k] && stored == earlier + IdsOf(list)
    {
      NextId(ports, k);
      if 1 <= ports[k] <= 4 {
        id := ports[k];
      }
      IdsOneMore(list, OtherSet(id));
      stored := stored + {id};
      list := list + [OtherSet(id)];
    }
    assert list == InternetIds(ports);
  }

  method OfferParking(earlier: set<uint8>, n: nat) returns (stored: set<uint8>, list: seq<Advertised>)
    ensures stored == earlier + IdsOf(ParkingIds(n)) && list == ParkingIds(n)
  {
    hide IdsOf;
    var id: uint8 := 0;
    stored, list := earlier, [];
    NoIds();
    for k := 0 to n
      invariant id == ToUint8(k)
      invariant list == ParkingIds(n)[..k] && stored == earlier + IdsOf(list)
    {
      IdsOneMore(list, OtherSet(id));
      stored := stored + {id};
      list := list + [OtherSet(id)];
      id := ToUint8(id + 1);
    }
    assert list == ParkingIds(n);
  }

  method DetailService(session: Session, config: SessionConfig, wanted: uint16, reply: Option<seq<VasSet>>)
    returns (r: DetailResult)
    ensures r == Detail(session, config, wanted, reply)
  {
    hide Offer, Usable, Advertise, InternetIds, ParkingIds, IdsOf;
    var o := session.offered;
    if wanted !in o.energy && wanted !in o.vas {
      return DetailResult(session, FailedServiceId, []);
    }
    if reply.Some? {
      var ids: seq<uint16> := [];
      for k := 0 to |reply.value|
        invariant ids == CustomIds(reply.value)[..k]
      {
        ids := ids + [reply.value[k].id];
      }
      assert ids == CustomIds(reply.value);
      var list := seq(|ids|, i requires 0 <= i < |ids| => OtherSet(ids[i]));
      return DetailResult(session.(offered := o.(custom := o.custom[wanted := ids])), Ok, list);
    }
    if HasSets(wanted) {
      var stored, list := OfferSets(SetsOf(o, wanted), wanted, ListOf(config, wanted));
      if wanted == AC_DER && list == [] {
        NothingUsable(ListOf(config, wanted));
        return DetailResult(session, FailedServiceId, []);
      }
      NothingUsable(ListOf(config, wanted));
      return DetailResult(session.(offered := o.(sets := o.sets[wanted := stored])), Ok, list);
    } else if wanted == INTERNET {
      var stored, list := OfferInternet(o.internet, config.internet);
      return DetailResult(session.(offered := o.(internet := stored)), Ok, list);
    } else if wanted == PARKING_STATUS {
      var stored, list := OfferParking(o.parking, config.parking);
      return DetailResult(session.(offered := o.(parking := stored)), Ok, list);
    }
    return DetailResult(session, Ok, []);
  }

  lemma NothingUsable(sets: seq<ParameterSet>)
    ensures Advertise(Usable(AC_DER, sets)) == [] <==> Usable(AC_DER, sets) == []
  {
  }

  // -------------------------------------------------------------------- selection

  method AllVasOffered(o: OfferedServices, choices: seq<VasChoice>) returns (found: bool)
    ensures found == AllOffered(o, choices)
  {
    found := false;
    for k := 0 to |choices|
      invariant forall c <- choices[..k] :: c.service in o.vas
      invariant found == (k > 0)
    {
      if choices[k].service !in o.vas {
        assert choices[k] in choices;
        return false;
      }
      found := true;
    }
    assert choices[..|choices|] == choices;
  }

  /** `handle_request` of a selection that names the current session. */
  method SelectRequested(session: Session, energy: Service, setId: uint16, vas: Option<seq<VasChoice>>)
    returns (chosen: Session, code: Code)
    ensures (chosen, code) == SelectServices(session, energy, setId, vas)
  {
    hide FindEnergy, FindVas, DerSetUsable, SelectEnergy, SelectOneVas, AllOffered;
    chosen := session;
    if energy !in session.offered.energy {
      return chosen, FailedNoEnergyService;
    }
    if vas.Some? {
      var found := AllVasOffered(session.offered, vas.value);
      if !found {
        return chosen, FailedSelection;
      }
    }
    if !FindEnergy(session.offered, energy, ToInt16(setId)) {
      return chosen, FailedSelection;
    }
    if energy == AC_DER {
      if !DerSetUsable(session.offered, setId) {
        return chosen, FailedSelection;
      }
    }
    chosen := SelectEnergy(chosen, energy, setId);
    if vas.Some? {
      ghost var start := chosen;
      assert vas.value[0..] == vas.value;
      for k := 0 to |vas.value|
        invariant SelectVas(start, vas.value) == SelectVas(chosen, vas.value[k..])
      {
        var c := vas.value[k];
        if !FindVas(chosen.offered, c.service, ToInt16(c.setId)) {
          return chosen, FailedSelection;
        }
        chosen := SelectOneVas(chosen, c);
      }
    }
    return chosen, Ok;
  }

  method OfferAuthorization(session: Session, configured: seq<Types.Authorization>) returns (offering: Session)
    ensures offering == session.(offered := session.offered.(auth := OfferedAuth(configured)))
  {
    var services := configured;
    if configured == [] {
      services := [EIM];
    }
    offering := session.(offered := session.offered.(auth := services));
  }
}
