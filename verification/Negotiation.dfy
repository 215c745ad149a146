/** Service discovery, detail and selection: what each request handler does to the session. */
module Negotiation {
  import opened Common
  import opened Types
  import opened AcDerControl

  // ------------------------------------------------------------------ discovery

  /** The offered ids that the EV also supports, in the charger's order. */
  function Keep(all: seq<uint16>, wanted: Option<seq<uint16>>): seq<uint16> {
    if wanted.None? || all == [] then all
    else
      var rest := Keep(all[..|all| - 1], wanted);
      if all[|all| - 1] in wanted.value then rest + [all[|all| - 1]] else rest
  }

  function Discover(s: Session, config: SessionConfig, supported: Option<seq<uint16>>): Session {
    s.(renegotiation := false,
       offered := NOTHING_OFFERED.(energy := Keep(config.energy, supported), vas := Keep(config.vas, supported)))
  }

  // --------------------------------------------------------------------- detail

  /** The seven services that have parameter sets. */
  predicate HasSets(s: Service) {
    IsAcService(s) || IsDcService(s)
  }

  function SetsOf(o: OfferedServices, s: Service): map<uint8, ParameterSet> {
    if s in o.sets then o.sets[s] else map[]
  }

  function ListOf(config: SessionConfig, s: Service): seq<ParameterSet> {
    if s in config.lists then config.lists[s] else []
  }

  predicate Complete(p: ParameterSet) {
    p.AcDerSet? && HasRequired(p.functions)
  }

  /** DER sets that lack a mandatory function are passed over. */
  function Usable(s: Service, sets: seq<ParameterSet>): (r: seq<ParameterSet>)
    ensures forall p <- r :: p in sets && (s == AC_DER ==> Complete(p))
  {
    if s != AC_DER || sets == [] then sets
    else
      var last := sets[|sets| - 1];
      var rest := Usable(s, sets[..|sets| - 1]);
      if Complete(last) then rest + [last] else rest
  }

  /** Sets are stored under a running `uint8_t` id, so id 256 overwrites id 0. */
  function Offer(earlier: map<uint8, ParameterSet>, sets: seq<ParameterSet>): map<uint8, ParameterSet> {
    if sets == [] then earlier
    else
      var n := |sets| - 1;
      Offer(earlier, sets[..n])[ToUint8(n) := sets[n]]
  }

  function Advertise(sets: seq<ParameterSet>): seq<Advertised> {
    seq(|sets|, i requires 0 <= i < |sets| => EnergySet(ToUint8(i), sets[i]))
  }

  /** The id of the n-th internet entry: by port, or the previous id for an unknown port. */
  function InternetId(ports: seq<uint8>, n: nat): uint8
    requires n <= |ports|
  {
    if n == 0 then 0
    else if 1 <= ports[n - 1] <= 4 then ports[n - 1]
    else InternetId(ports, n - 1)
  }

  function InternetIds(ports: seq<uint8>): seq<Advertised> {
    seq(|ports|, i requires 0 <= i < |ports| => OtherSet(InternetId(ports, i + 1)))
  }

  function ParkingIds(n: nat): seq<Advertised> {
    seq(n, i => OtherSet(ToUint8(i)))
  }

  function IdsOf(list: seq<Advertised>): set<uint8> {
    set a <- list :: ToUint8(a.id)
  }

  function CustomIds(list: seq<VasSet>): seq<uint16> {
    seq(|list|, i requires 0 <= i < |list| => list[i].id)
  }

  datatype DetailResult = DetailResult(session: Session, code: Code, sets: seq<Advertised>)

  function Detail(s: Session, config: SessionConfig, wanted: uint16, reply: Option<seq<VasSet>>): (r: DetailResult)
    ensures r.session.id == s.id && r.session.selected == s.selected
  {
    var o := s.offered;
    if wanted !in o.energy && wanted !in o.vas then
      DetailResult(s, FailedServiceId, [])
    else if reply.Some? then
      var ids := CustomIds(reply.value);
      DetailResult(
        s.(offered := o.(custom := o.custom[wanted := ids])), Ok,
        seq(|ids|, i requires 0 <= i < |ids| => OtherSet(ids[i])))
    else if HasSets(wanted) then
      var sets := Usable(wanted, ListOf(config, wanted));
      if wanted == AC_DER && sets == [] then
        DetailResult(s, FailedServiceId, [])
      else
        DetailResult(
          s.(offered := o.(sets := o.sets[wanted := Offer(SetsOf(o, wanted), sets)])), Ok, Advertise(sets))
    else if wanted == INTERNET then
      var list := InternetIds(config.internet);
      DetailResult(s.(offered := o.(internet := o.internet + IdsOf(list))), Ok, list)
    else if wanted == PARKING_STATUS then
      var list := ParkingIds(config.parking);
      DetailResult(s.(offered := o.(parking := o.parking + IdsOf(list))), Ok, list)
    else
      DetailResult(s, Ok, [])
  }

  /** A known port is listed as it is, an unknown one as the entry before it. */
  predicate ListsPorts(sets: seq<Advertised>, ports: seq<uint8>) {
    && |sets| == |ports|
    && forall i | 0 <= i < |sets| :: sets[i] ==
         (if 1 <= ports[i] <= 4 then OtherSet(ports[i]) else if i > 0 then sets[i - 1] else OtherSet(0))
  }

  /** What a detail response lists, entry by entry. */
  predicate ListsSets(sets: seq<Advertised>, config: SessionConfig, wanted: uint16, reply: Option<seq<VasSet>>) {
    if reply.Some? then
      |sets| == |reply.value| && forall i | 0 <= i < |sets| :: sets[i] == OtherSet(reply.value[i].id)
    else if HasSets(wanted) then
      var usable := Usable(wanted, ListOf(config, wanted));
      |sets| == |usable| && forall i | 0 <= i < |sets| :: sets[i] == EnergySet(i % 0x100, usable[i])
    else if wanted == INTERNET then
      ListsPorts(sets, config.internet)
    else if wanted == PARKING_STATUS then
      |sets| == config.parking && forall i | 0 <= i < |sets| :: sets[i] == OtherSet(i % 0x100)
    else sets == []
  }

  lemma InternetExact(ports: seq<uint8>)
    ensures ListsPorts(InternetIds(ports), ports)
  {
    forall i | 0 <= i < |ports|
      ensures InternetId(ports, i + 1) == if 1 <= ports[i] <= 4 then ports[i] else InternetId(ports, i)
    {
    }
  }

  /** A detail request fails exactly for a service that was not offered, and for AC_DER without a complete set;
      what a success lists is what is stored for the selection. */
  lemma {:induction false} DetailExact(s: Session, config: SessionConfig, wanted: uint16, reply: Option<seq<VasSet>>)
    ensures var r, o := Detail(s, config, wanted, reply), s.offered;
      && (r.code == Ok || r.code == FailedServiceId)
      && (r.code == Ok <==>
            && (wanted in o.energy || wanted in o.vas)
            && (wanted == AC_DER && reply.None? ==> exists p <- ListOf(config, wanted) :: Complete(p)))
      && (r.code == Ok ==> ListsSets(r.sets, config, wanted, reply))
      && (r.code != Ok ==> r.session == s)
  {
    var r := Detail(s, config, wanted, reply);
    if wanted == AC_DER && reply.None? {
      var sets := Usable(wanted, ListOf(config, wanted));
      if sets != [] {
        assert sets[0] in sets;
      }
      if p :| p in ListOf(config, wanted) && Complete(p) {
        UsableExact(wanted, ListOf(config, wanted), p);
      }
    }
    hide Usable, InternetId, InternetIds, ListsPorts, Complete;
    InternetExact(config.internet);
  }

  // ------------------------------------------------------------------ selection

  /** `SelectedServiceParameters` built from one parameter set. */
  function SelectedFrom(s: Service, p: ParameterSet): (r: Selected)
    ensures r.Energy() == s
    ensures p.AcDerSet? ==> r.Functions() == Some(p.functions)
  {
    match p
    case AcSet(a) =>
      Selected(s, AcConnector(a.phases), a.mode, a.mobility, a.pricing, None, Some(a.voltage), None, None)
    case AcBptSet(a, b, g) =>
      Selected(s, AcConnector(a.phases), a.mode, a.mobility, a.pricing, Some(b), Some(a.voltage), Some(g), None)
    case AcDerSet(a, b, g, f) =>
      Selected(s, AcConnector(a.phases), a.mode, a.mobility, a.pricing, Some(b), Some(a.voltage), Some(g), Some(f))
    case DcSet(d) =>
      Selected(s, DcConnector(d.connector), d.mode, d.mobility, d.pricing, None, None, None, None)
    case DcBptSet(d, b) =>
      Selected(s, DcConnector(d.connector), d.mode, d.mobility, d.pricing, Some(b), None, None, None)
    case McsSet(d) =>
      Selected(s, McsConnector(d.connector), d.mode, d.mobility, d.pricing, None, None, None, None)
    case McsBptSet(d, b) =>
      Selected(s, McsConnector(d.connector), d.mode, d.mobility, d.pricing, Some(b), None, None, None)
  }

  /** `find_energy_parameter_set_id`: the `int16_t` argument is narrowed again to the map's key. */
  predicate FindEnergy(o: OfferedServices, s: Service, id: int16) {
    HasSets(s) && ToUint8(id) in SetsOf(o, s)
  }

  /** `find_vas_parameter_set_id`: a custom id is compared as a signed number. */
  predicate FindVas(o: OfferedServices, service: uint16, id: int16) {
    if service == INTERNET then ToUint8(id) in o.internet
    else if service == PARKING_STATUS then ToUint8(id) in o.parking
    else service in o.custom && id in o.custom[service]
  }

  predicate AllOffered(o: OfferedServices, choices: seq<VasChoice>) {
    choices != [] && forall c <- choices :: c.service in o.vas
  }

  /** Select the value-added services in order, up to the first unknown parameter set. */
  function SelectVas(s: Session, choices: seq<VasChoice>): (r: (Session, Code))
    ensures r.0.id == s.id && r.0.offered == s.offered && r.0.selected == s.selected
    decreases choices
  {
    if choices == [] then (s, Ok)
    else if !FindVas(s.offered, choices[0].service, ToInt16(choices[0].setId)) then (s, FailedSelection)
    else SelectVas(SelectOneVas(s, choices[0]), choices[1..])
  }

  function SelectOneVas(s: Session, c: VasChoice): Session {
    if (c.service == INTERNET && ToUint8(c.setId) in s.offered.internet)
       || (c.service == PARKING_STATUS && ToUint8(c.setId) in s.offered.parking)
    then s.(selectedVas := s.selectedVas + [c.service])
    else s
  }

  predicate DerSetUsable(o: OfferedServices, setId: uint16) {
    var sets := SetsOf(o, AC_DER);
    ToUint8(setId) in sets && Complete(sets[ToUint8(setId)])
  }

  /** `selected_service_parameters` of an energy service: checked as `int16_t`, read as `uint16_t`. */
  function SelectEnergy(s: Session, energy: Service, setId: uint16): Session {
    if FindEnergy(s.offered, energy, ToInt16(setId)) then
      NarrowingAgrees(setId);
      s.(selected := SelectedFrom(energy, SetsOf(s.offered, energy)[ToUint8(setId)]))
    else s
  }

  function SelectServices(s: Session, energy: Service, setId: uint16, vas: Option<seq<VasChoice>>): (r: (Session, Code))
    ensures r.0.id == s.id && r.0.offered == s.offered
  {
    if energy !in s.offered.energy then (s, FailedNoEnergyService)
    else if vas.Some? && !AllOffered(s.offered, vas.value) then (s, FailedSelection)
    else if !FindEnergy(s.offered, energy, ToInt16(setId)) then (s, FailedSelection)
    else if energy == AC_DER && !DerSetUsable(s.offered, setId) then (s, FailedSelection)
    else
      var chosen := SelectEnergy(s, energy, setId);
      if vas.Some? then SelectVas(chosen, vas.value) else (chosen, Ok)
  }

  // ----------------------------------------------------------------- properties

  /** `uint16_t` to `int16_t` to `uint8_t` and `uint16_t` to `uint8_t` give the same key. */
  lemma NarrowingAgrees(x: uint16)
    ensures ToUint8(ToInt16(x)) == ToUint8(x) == x % 0x100
  {
  }

  /** The ids that `Keep` returns: exactly the offered ones the EV listed. */
  lemma {:induction false} KeepExact(all: seq<uint16>, wanted: Option<seq<uint16>>, x: uint16)
    ensures x in Keep(all, wanted) <==> x in all && (wanted.Some? ==> x in wanted.value)
  {
    if wanted.Some? && all != [] {
      KeepExact(all[..|all| - 1], wanted, x);
      assert all == all[..|all| - 1] + [all[|all| - 1]];
    }
  }

  /** `Keep` goes through the list in order. */
  lemma {:induction false} KeepInOrder(a: seq<uint16>, b: seq<uint16>, wanted: Option<seq<uint16>>)
    ensures Keep(a + b, wanted) == Keep(a, wanted) + Keep(b, wanted)
  {
    if b == [] {
      assert a + b == a;
    } else if wanted.Some? {
      assert (a + b)[..|a + b| - 1] == a + b[..|b| - 1];
      KeepInOrder(a, b[..|b| - 1], wanted);
    }
  }

  /** The usable sets are exactly the listed ones, less the incomplete DER sets. */
  lemma {:induction false} UsableExact(s: Service, sets: seq<ParameterSet>, p: ParameterSet)
    ensures p in Usable(s, sets) <==> p in sets && (s == AC_DER ==> Complete(p))
  {
    if s == AC_DER && sets != [] {
      UsableExact(s, sets[..|sets| - 1], p);
      assert sets == sets[..|sets| - 1] + [sets[|sets| - 1]];
    }
  }

  /** The largest index below n that is stored under key k, or -1. */
  function LastIndex(k: uint8, n: nat): (i: int)
    ensures -1 <= i < n
    ensures i >= 0 ==> ToUint8(i) == k
    ensures forall j | i < j < n :: ToUint8(j) != k
  {
    if n == 0 then -1 else if ToUint8(n - 1) == k then n - 1 else LastIndex(k, n - 1)
  }

  /** Each key holds the last set numbered with it, or keeps its old entry. */
  lemma {:induction false} OfferExact(earlier: map<uint8, ParameterSet>, sets: seq<ParameterSet>, k: uint8)
    ensures var i := LastIndex(k, |sets|);
      if i >= 0 then k in Offer(earlier, sets) && Offer(earlier, sets)[k] == sets[i]
      else (k in Offer(earlier, sets) <==> k in earlier) && (k in earlier ==> Offer(earlier, sets)[k] == earlier[k])
  {
    if sets != [] {
      OfferExact(earlier, sets[..|sets| - 1], k);
    }
  }

  /** Sets that share an id modulo 256 are the same set. */
  predicate NoClash(sets: seq<ParameterSet>) {
    forall i, j | 0 <= i < j < |sets| && ToUint8(i) == ToUint8(j) :: sets[i] == sets[j]
  }

  /** Every advertised id finds the set it was advertised with. */
  predicate FindsAdvertised(stored: map<uint8, ParameterSet>, sets: seq<ParameterSet>) {
    forall i | 0 <= i < |sets| :: ToUint8(i) in stored && stored[ToUint8(i)] == sets[i]
  }

  lemma {:induction false} OfferFinds(earlier: map<uint8, ParameterSet>, sets: seq<ParameterSet>, i: nat)
    requires i < |sets|
    ensures i <= LastIndex(ToUint8(i), |sets|) < |sets|
    ensures ToUint8(i) in Offer(earlier, sets)
    ensures Offer(earlier, sets)[ToUint8(i)] == sets[LastIndex(ToUint8(i), |sets|)]
  {
    OfferExact(earlier, sets, ToUint8(i));
  }

  /** Advertised ids are reliable exactly when no id is reused for another set;
      256 sets or fewer are enough for that. */
  lemma {:induction false} AdvertisedIsStored(earlier: map<uint8, ParameterSet>, sets: seq<ParameterSet>)
    ensures NoClash(sets) <==> FindsAdvertised(Offer(earlier, sets), sets)
    ensures |sets| <= 256 ==> NoClash(sets)
  {
    var stored := Offer(earlier, sets);
    if NoClash(sets) {
      forall i | 0 <= i < |sets|
        ensures ToUint8(i) in stored && stored[ToUint8(i)] == sets[i]
      {
        OfferFinds(earlier, sets, i);
      }
    }
    if FindsAdvertised(stored, sets) {
      forall i, j | 0 <= i < j < |sets| && ToUint8(i) == ToUint8(j)
        ensures sets[i] == sets[j]
      {
        assert stored[ToUint8(i)] == sets[i];
      }
    }
  }

  /** With 257 distinct sets the id 0 is advertised twice, and stands for the last set only. */
  lemma {:induction false} WrapLosesFirstSet(sets: seq<ParameterSet>)
    requires |sets| == 257 && sets[0] != sets[256]
    ensures Advertise(sets)[0] == EnergySet(0, sets[0])
    ensures 0 in Offer(map[], sets) && Offer(map[], sets)[0] == sets[256]
  {
    OfferExact(map[], sets, 0);
  }

  /** A custom value-added set can be chosen only if its id is below 2^15. */
  lemma {:induction false} CustomVasIds(o: OfferedServices, service: uint16, wire: uint16)
    requires service != INTERNET && service != PARKING_STATUS
    ensures FindVas(o, service, ToInt16(wire)) <==>
            service in o.custom && wire in o.custom[service] && wire < 0x8000
  {
    if FindVas(o, service, ToInt16(wire)) {
      var i :| 0 <= i < |o.custom[service]| && o.custom[service][i] == ToInt16(wire);
    }
  }

  /** Internet and parking sets are found by their id modulo 256 among the ids offered for that service. */
  lemma KnownVasIds(o: OfferedServices, wire: uint16)
    ensures FindVas(o, INTERNET, ToInt16(wire)) <==> wire % 0x100 in o.internet
    ensures FindVas(o, PARKING_STATUS, ToInt16(wire)) <==> wire % 0x100 in o.parking
  {
    NarrowingAgrees(wire);
  }

  /** The internet and parking services among the choices, in order; custom ones are not recorded. */
  function Recordable(choices: seq<VasChoice>): seq<uint16>
    decreases choices
  {
    if choices == [] then []
    else
      (if choices[0].service in {INTERNET, PARKING_STATUS} then [choices[0].service] else []) + Recordable(choices[1..])
  }

  /** What a successful choice of value-added services leaves in the session. */
  lemma {:induction false} SelectVasRecords(s: Session, choices: seq<VasChoice>)
    requires SelectVas(s, choices).1 == Ok
    ensures SelectVas(s, choices).0 == s.(selectedVas := s.selectedVas + Recordable(choices))
    decreases choices
  {
    if choices != [] {
      KnownVasIds(s.offered, choices[0].setId);
      NarrowingAgrees(choices[0].setId);
      SelectVasRecords(SelectOneVas(s, choices[0]), choices[1..]);
    }
  }

  lemma {:induction false} SelectVasKeeps(s: Session, choices: seq<VasChoice>)
    ensures SelectVas(s, choices).0 == s.(selectedVas := SelectVas(s, choices).0.selectedVas)
    ensures SelectVas(s, choices).1 == Ok || SelectVas(s, choices).1 == FailedSelection
    ensures SelectVas(s, choices).1 == Ok <==>
            forall c <- choices :: FindVas(s.offered, c.service, ToInt16(c.setId))
    decreases choices
  {
    if choices != [] && FindVas(s.offered, choices[0].service, ToInt16(choices[0].setId)) {
      SelectVasKeeps(SelectOneVas(s, choices[0]), choices[1..]);
      assert choices == [choices[0]] + choices[1..];
    }
  }

  /** When a selection succeeds, and that it then holds the set stored under the id modulo 256. */
  lemma {:induction false} SelectionExact(s: Session, energy: Service, setId: uint16, vas: Option<seq<VasChoice>>)
    ensures var r := SelectServices(s, energy, setId, vas);
      && (r.1 == Ok <==>
          && energy in s.offered.energy && HasSets(energy) && setId % 0x100 in SetsOf(s.offered, energy)
          && (energy == AC_DER ==> Complete(SetsOf(s.offered, energy)[setId % 0x100]))
          && (vas.Some? ==> AllOffered(s.offered, vas.value))
          && (vas.Some? ==> forall c <- vas.value :: FindVas(s.offered, c.service, ToInt16(c.setId))))
      && (r.1 == Ok ==> r.0.selected == SelectedFrom(energy, SetsOf(s.offered, energy)[setId % 0x100]))
      && (r.1 != Ok ==> r.1 == if energy in s.offered.energy then FailedSelection else FailedNoEnergyService)
      && (r.1 == Ok ==> r.0.selectedVas == s.selectedVas + if vas.Some? then Recordable(vas.value) else [])
      && r.0 == s.(selected := r.0.selected, selectedVas := r.0.selectedVas)
  {
    NarrowingAgrees(setId);
    if vas.Some? {
      SelectVasKeeps(SelectEnergy(s, energy, setId), vas.value);
      if SelectVas(SelectEnergy(s, energy, setId), vas.value).1 == Ok {
        SelectVasRecords(SelectEnergy(s, energy, setId), vas.value);
      }
    }
  }

  /** A selection keeps everything its parameter set says: two sets of one list never look alike. */
  lemma {:induction false} SelectionLosesNothing(s: Service, p: ParameterSet, q: ParameterSet)
    requires KindOf(p) == KindOf(q) && SelectedFrom(s, p) == SelectedFrom(s, q)
    ensures p == q
  {
    match p
    case AcSet(_) =>
    case AcBptSet(_, _, _) =>
    case AcDerSet(_, _, _, _) =>
    case DcSet(_) =>
    case DcBptSet(_, _) =>
    case McsSet(_) =>
    case McsBptSet(_, _) =>
  }
}
