/**
 * What the lead proposes and what every member checks before signing it: the body
 * generator, the structural validator, and validation against one's own
 * registrations.
 *
 * Exchange keys, URLs and policies are opaque names.  Real-valued cover rates stand
 * for `f32`, the square root in the aggregator count is the integer one, and the
 * wire-size estimator is a parameter.
 */
module Proposals {
  import opened Basics
  import opened Cadence
  import Controller

  type Key = nat
  type Tag = nat
  type Name = nat

  const MAX_COMMITTEE_RELAYS: nat := 16
  const MAX_VECTOR_BYTES: nat := 131072
  const AGGREGATION_THRESHOLD: nat := 16
  const U16_MAX: nat := 65535

  datatype Kind = KPanetiere | KScheduledPanetiere | KScheduledAdcnet | KNoop | KAdcnet

  datatype Protocol =
    | Noop(durMs: nat, messageSize: nat, setMin: nat, setMax: nat)
    | Adcnet(durMs: nat, messageSize: nat, estimated: nat, setMin: nat, setMax: nat, aggregation: Option<seq<Key>>)
    | Panetiere(durMs: nat, messageSize: nat, estimated: nat, setMin: nat, setMax: nat, threshold: nat, formation: SetFormation)
    | ScheduledPanetiere(durMs: nat, messageSize: nat, vectorBytes: nat, estimated: nat, setMin: nat, setMax: nat,
                         threshold: nat, formation: SetFormation)
    | ScheduledAdcnet(durMs: nat, messageSize: nat, auctionSlots: nat, minMessageSize: nat, setMin: nat, setMax: nat)

  datatype Subnet = Subnet(id: nat, relays: seq<Key>, protocol: Protocol, coverRate: real, attested: bool)

  datatype Body = Body(
    epochMs: nat,
    services: seq<(Tag, Key)>,
    exchangeKeys: seq<(Key, Name)>,
    subnets: seq<Subnet>,
    nodeUrls: seq<(Key, Name)>,
    serviceUrls: seq<(Tag, Name)>,
    attestation: Name)

  datatype Params = Params(
    durMs: nat,
    minRelays: nat,
    minServices: nat,
    messageSize: nat,
    vectorBytes: nat,
    pin: Option<Kind>,
    aggregation: bool,
    formation: SetFormation,
    attested: set<nat>,
    attestation: Name,
    sideline: bool,
    renegotiate: bool,
    sizing: Controller.Params)

  /** The largest message a subnet of this protocol and roster size broadcasts, and the budget for it. */
  datatype Wire = Wire(estimate: (Protocol, nat) -> nat, budget: nat)

  // ---------------------------------------------------------------- structural validation

  function Firsts(s: seq<(nat, nat)>): seq<nat> { seq(|s|, i requires 0 <= i < |s| => s[i].0) }

  function Ids(s: seq<Subnet>): seq<nat> { seq(|s|, i requires 0 <= i < |s| => s[i].id) }

  predicate AggregationOk(a: Option<seq<Key>>) {
    a.Some? ==> a.value != [] && Unique(a.value)
  }

  predicate ThresholdOk(n: nat, t: nat) { n / 2 + 1 <= t <= Max(n, 1) }

  predicate ProtocolOk(p: Protocol, n: nat) {
    && p.durMs > 0 && p.messageSize > 0 && p.setMin <= p.setMax
    && p.setMax >= Controller.MIN_CAPACITY
    && match p
       case Noop(_, _, _, _) => true
       case Adcnet(_, _, estimated, _, _, agg) => estimated > 0 && AggregationOk(agg)
       case Panetiere(durMs, _, estimated, _, _, t, formation) =>
         estimated > 0 && ThresholdOk(n, t) && CadenceFits(durMs, formation, n, t)
       case ScheduledPanetiere(durMs, size, vectorBytes, estimated, _, _, t, formation) =>
         estimated > 0 && ThresholdOk(n, t) && size <= U16_MAX && vectorBytes > 0 && CadenceFits(durMs, formation, n, t)
       case ScheduledAdcnet(_, length, slots, minSize, _, _) =>
         0 < slots <= Controller.MAX_SUBNET_CLIENTS && 1024 <= length <= MAX_VECTOR_BYTES && length % 1024 == 0
         && 0 < minSize <= length
  }

  predicate SubnetOk(w: Wire, s: Subnet) {
    && s.relays != [] && |s.relays| <= MAX_COMMITTEE_RELAYS && Unique(s.relays)
    && 0.0 <= s.coverRate <= 1.0
    && ProtocolOk(s.protocol, |s.relays|)
    && w.estimate(s.protocol, |s.relays|) <= w.budget
  }

  predicate ValidStructure(w: Wire, b: Body) {
    && 0 < |b.subnets| <= Controller.MAX_SUBNETS
    && Unique(Ids(b.subnets)) && Unique(Firsts(b.services)) && Unique(Firsts(b.exchangeKeys))
    && forall i :: 0 <= i < |b.subnets| ==> SubnetOk(w, b.subnets[i])
  }

  // ---------------------------------------------------------------- one member's registrations

  datatype State = State(
    registered: set<Key>,
    sidelined: set<Key>,
    offenders: set<Key>,
    exchangeKeys: map<Key, Name>,
    services: map<Tag, Key>,
    nodeUrls: map<Key, Name>,
    serviceUrls: map<Tag, Name>,
    epoch: Option<nat>,
    vectors: map<nat, nat>,
    coverRate: real,
    sizing: Controller.State)

  function New(p: Params): State {
    State({}, {}, {}, map[], map[], map[], map[], None, map[], 1.0, Controller.Start(p.sizing))
  }

  /** Every name in the body is one this member saw registered. */
  predicate BornOut(s: State, b: Body) {
    && (forall e :: e in b.services ==> e.0 in s.services && s.services[e.0] == e.1)
    && (forall e :: e in b.nodeUrls ==> e.0 in s.nodeUrls && s.nodeUrls[e.0] == e.1)
    && (forall e :: e in b.serviceUrls ==> e.0 in s.serviceUrls && s.serviceUrls[e.0] == e.1)
    && (forall e :: e in b.exchangeKeys ==> e.0 in s.exchangeKeys && s.exchangeKeys[e.0] == e.1)
  }

  /** Endpoints are only for relays and services the body places. */
  predicate EndpointsPlaced(b: Body) {
    (forall e :: e in b.nodeUrls ==> e.0 in Firsts(b.exchangeKeys))
    && (forall e :: e in b.serviceUrls ==> e.0 in Firsts(b.services))
  }

  predicate SubnetsBornOut(p: Params, s: State, b: Body) {
    forall i :: 0 <= i < |b.subnets| ==> ValidSubnet(p, s, b.subnets[i])
  }

  /** A member signs only what its own registrations bear out. */
  predicate ValidBody(w: Wire, p: Params, s: State, b: Body) {
    && ValidStructure(w, b)
    && (s.epoch.Some? ==> s.epoch.value == b.epochMs)
    && BornOut(s, b) && EndpointsPlaced(b)
    && b.attestation == p.attestation
    && SubnetsBornOut(p, s, b)
  }

  predicate ValidSubnet(p: Params, s: State, n: Subnet) {
    && n.attested == (n.id in p.attested)
    && (forall k :: k in n.relays ==> k in s.registered)
    && (n.protocol.Adcnet? ==>
          AggregationOk(n.protocol.aggregation)
          && (n.protocol.aggregation.Some? ==> forall k :: k in n.protocol.aggregation.value ==> k in s.registered))
  }

  datatype Event =
    | Relay(key: Key, exchangeKey: Name, url: Option<Name>)
    | Service(tag: Tag, owner: Key, descriptor: Option<Name>)
    | Fault(culprits: set<Key>, integrity: bool)
    | Forgive(keys: set<Key>)
    | CoverRate(rate: real)
    | Learn(epochMs: nat)
    | Size(input: Controller.Input)
    | Stamp(nowMs: nat, decoded: nat -> nat)

  function Assign(m: map<nat, nat>, k: nat, v: Option<nat>): map<nat, nat> {
    if v.Some? then m[k := v.value] else m - {k}
  }

  function ExpectedActive(clients: nat): nat { Max(DivCeil(clients, 2), Controller.MIN_CAPACITY / 2) }

  function RoundUp(x: nat, to: nat): nat
    requires to > 0
  {
    DivCeil(x, to) * to
  }

  function MinVector(p: Params, capacity: nat): nat { RoundUp(ExpectedActive(capacity) * p.messageSize / 2, 8192) }

  function DesiredVector(p: Params, capacity: nat, decoded: nat): nat { DesiredFrom(p.vectorBytes, MinVector(p, capacity), decoded) }

  /** The operator's width if fixed, else half as much again as was decoded, between the least width and the cap. */
  function DesiredFrom(fixedWidth: nat, least: nat, decoded: nat): nat {
    if fixedWidth > 0 then fixedWidth else Min(Max(RoundUp(decoded * 3 / 2, 8192), least), MAX_VECTOR_BYTES)
  }

  /** One subnet's vector width, re-sized only past a quarter's change. */
  function Resized(p: Params, capacity: nat, held: nat, decoded: nat): nat {
    var desired := DesiredVector(p, capacity, decoded);
    if held == 0 || 4 * Controller.Distance(desired, held) >= held then desired else held
  }

  function PinnedKind(p: Params): Kind { if p.pin.Some? then p.pin.value else KPanetiere }

  function ResizeVectors(p: Params, capacity: nat, vectors: map<nat, nat>, decoded: nat -> nat, n: nat): map<nat, nat> {
    if n == 0 then vectors
    else
      var before := ResizeVectors(p, capacity, vectors, decoded, n - 1);
      var id := n - 1;
      if PinnedKind(p) != KScheduledPanetiere then before - {id}
      else before[id := Resized(p, capacity, if id in before then before[id] else 0, decoded(id))]
  }

  function Clamp(r: real): real { if r < 0.0 then 0.0 else if r > 1.0 then 1.0 else r }

  function Step(p: Params, s: State, e: Event): State {
    match e
    case Relay(k, xk, url) =>
      if k in s.offenders then s
      else s.(registered := s.registered + {k}, sidelined := s.sidelined - {k},
              exchangeKeys := s.exchangeKeys[k := xk], nodeUrls := Assign(s.nodeUrls, k, url))
    case Service(tag, owner, descriptor) =>
      s.(services := s.services[tag := owner], serviceUrls := Assign(s.serviceUrls, tag, descriptor))
    case Fault(culprits, integrity) =>
      if !p.renegotiate || !p.sideline then s
      else s.(registered := s.registered - culprits, sidelined := s.sidelined + culprits,
              offenders := if integrity then s.offenders + culprits else s.offenders)
    case Forgive(keys) => s.(offenders := s.offenders - keys)
    case CoverRate(rate) => s.(coverRate := Clamp(rate))
    case Learn(epochMs) => s.(epoch := Some(epochMs))
    case Size(input) =>
      var t := Controller.Tick(p.sizing, input, s.sizing);
      s.(sizing := t, vectors := map id | id in s.vectors && id < t.count :: s.vectors[id])
    case Stamp(nowMs, decoded) =>
      s.(vectors := ResizeVectors(p, s.sizing.capacity, s.vectors, decoded, Max(s.sizing.count, 1)),
         epoch := if s.epoch.Some? then s.epoch else Some(nowMs))
  }

  function Run(p: Params, events: seq<Event>): State {
    if events == [] then New(p) else Step(p, Run(p, events[..|events| - 1]), events[|events| - 1])
  }

  // ---------------------------------------------------------------- the body generator

  function Placed(s: State): seq<Key> {
    var all := Sorted(s.registered);
    if |all| > MAX_COMMITTEE_RELAYS then all[..MAX_COMMITTEE_RELAYS] else all
  }

  /** `filter_map` over the keys: those the map knows, with their values. */
  function Known(keys: seq<nat>, m: map<nat, nat>): (r: seq<(nat, nat)>)
    ensures forall e :: e in r <==> e.0 in keys && e.0 in m && m[e.0] == e.1
  {
    if keys == [] then []
    else
      assert forall k :: k in keys <==> k == keys[0] || k in keys[1..];
      (if keys[0] in m then [(keys[0], m[keys[0]])] else []) + Known(keys[1..], m)
  }

  function Threshold(n: nat): nat { Max(n / 2 + 1, SatSub(n, 2)) }

  function SqrtFrom(x: nat, r: nat): nat {
    if r == 0 || r * r <= x then r else SqrtFrom(x, r - 1)
  }

  function GroupCount(capacity: nat, n: nat): Option<nat> {
    if capacity <= AGGREGATION_THRESHOLD || n == 0 then None
    else Some(Max(Min(Min(1 + capacity / 16, SqrtFrom(capacity, capacity) / 2), n), 1))
  }

  function BuildAggregation(capacity: nat, relays: seq<Key>): Option<seq<Key>> {
    var g := GroupCount(capacity, |relays|);
    if g.None? then None else Some(relays[..Min(g.value, |relays|)])
  }

  function VectorFor(p: Params, s: State, id: nat): nat {
    if p.vectorBytes > 0 then p.vectorBytes
    else if id in s.vectors && s.vectors[id] > 0 then s.vectors[id]
    else Min(MinVector(p, s.sizing.capacity), MAX_VECTOR_BYTES)
  }

  function ProtocolFor(p: Params, s: State, id: nat): Protocol {
    var c := s.sizing.capacity;
    var n := |Placed(s)|;
    match PinnedKind(p)
    case KPanetiere => Panetiere(p.durMs, p.messageSize, ExpectedActive(c), 0, c, Threshold(n), p.formation)
    case KScheduledPanetiere =>
      ScheduledPanetiere(p.durMs, p.messageSize, VectorFor(p, s, id), c, 0, c, Threshold(n), p.formation)
    case KScheduledAdcnet => ScheduledAdcnet(p.durMs, RoundUp(p.messageSize, 1024), ExpectedActive(c), 1, 0, c)
    case KNoop => Noop(p.durMs, p.messageSize, 0, c)
    case KAdcnet =>
      Adcnet(p.durMs, p.messageSize, ExpectedActive(c), 0, c,
             if p.aggregation then BuildAggregation(c, Placed(s)) else None)
  }

  function SubnetFor(p: Params, s: State, id: nat): Subnet {
    Subnet(id, Placed(s), ProtocolFor(p, s, id), s.coverRate, id in p.attested)
  }

  function BuildBody(p: Params, s: State, nowMs: nat): Body {
    var relays := Placed(s);
    Body(
      if s.epoch.Some? then s.epoch.value else nowMs,
      Known(Sorted(s.services.Keys), s.services),
      Known(relays, s.exchangeKeys),
      seq(Max(s.sizing.count, 1), i requires 0 <= i < Max(s.sizing.count, 1) => SubnetFor(p, s, i)),
      Known(Sorted(set k | k in s.nodeUrls && k in relays), s.nodeUrls),
      Known(Sorted(set t | t in s.serviceUrls && t in s.services), s.serviceUrls),
      p.attestation)
  }

  // ---------------------------------------------------------------- what every run keeps

  predicate Inv(s: State) {
    && s.registered <= s.exchangeKeys.Keys
    && 0.0 <= s.coverRate <= 1.0
    && Controller.InRange(s.sizing)
  }

  lemma SizeKeeps(p: Params, s: State, input: Controller.Input)
    requires Inv(s)
    ensures Inv(Step(p, s, Size(input)))
  {
    Controller.TickInRange(p.sizing, input, s.sizing);
  }

  lemma StepKeeps(p: Params, s: State, e: Event)
    requires Inv(s) && !e.Size?
    ensures Inv(Step(p, s, e))
  {
    assert Step(p, s, e).sizing == s.sizing;
  }

  lemma {:induction false} RunKeeps(p: Params, events: seq<Event>)
    ensures Inv(Run(p, events))
  {
    if events != [] {
      var s, e := Run(p, events[..|events| - 1]), events[|events| - 1];
      RunKeeps(p, events[..|events| - 1]);
      if e.Size? { SizeKeeps(p, s, e.input); } else { StepKeeps(p, s, e); }
    }
  }

  // ---------------------------------------------------------------- the generated body is well formed

  lemma {:induction false} KnownUnique(keys: seq<nat>, m: map<nat, nat>)
    requires Unique(keys)
    ensures Unique(Firsts(Known(keys, m)))
  {
    if keys != [] {
      KnownUnique(keys[1..], m);
      var rest := Known(keys[1..], m);
      assert keys[0] !in keys[1..];
      assert forall i :: 0 <= i < |rest| ==> rest[i] in rest;
      assert forall i :: 0 <= i < |rest| ==> Firsts(rest)[i] != keys[0];
      if keys[0] in m {
        assert Firsts([(keys[0], m[keys[0]])] + rest) == [keys[0]] + Firsts(rest);
      } else {
        assert Known(keys, m) == rest;
      }
    }
  }

  lemma FirstsHas(s: seq<(nat, nat)>, e: (nat, nat))
    requires e in s
    ensures e.0 in Firsts(s)
  {
    var i :| 0 <= i < |s| && s[i] == e;
    assert Firsts(s)[i] == e.0;
  }

  lemma PlacedFacts(s: State)
    ensures Unique(Placed(s)) && |Placed(s)| <= MAX_COMMITTEE_RELAYS
    ensures forall k :: k in Placed(s) ==> k in s.registered
    ensures s.registered != {} <==> Placed(s) != []
  {
    var all := Sorted(s.registered);
    if s.registered != {} {
      var k :| k in s.registered;
      assert k in all;
    }
    HeadIn(all);
    assert forall k :: k in Placed(s) ==> k in all;
  }

  lemma AggregationFacts(capacity: nat, relays: seq<Key>)
    requires relays != [] && Unique(relays)
    ensures var a := BuildAggregation(capacity, relays);
      AggregationOk(a) && (a.Some? ==> forall k :: k in a.value ==> k in relays)
  {
  }

  lemma CeilBounds(x: nat, to: nat)
    requires to > 0
    ensures x <= DivCeil(x, to) * to < x + to
  {
    var q := DivCeil(x, to);
    Quotient(x + to - 1, to, q);
    Quotient(x + to - 1, to, q + 1);
    assert (q + 1) * to == q * to + to;
  }

  lemma CeilLeast(x: nat, to: nat, m: nat)
    requires to > 0 && x <= m * to
    ensures DivCeil(x, to) <= m && DivCeil(x, to) * to <= m * to
  {
    Quotient(x + to - 1, to, m + 1);
    assert (m + 1) * to == m * to + to;
  }

  lemma RoundUpFacts(x: nat, to: nat)
    requires to > 0
    ensures RoundUp(x, to) % to == 0 && x <= RoundUp(x, to) < x + to
    ensures x > 0 ==> RoundUp(x, to) >= to
    ensures forall m: nat :: x <= m * to ==> RoundUp(x, to) <= m * to
  {
    CeilBounds(x, to);
    MultipleOf(DivCeil(x, to), to);
    if x > 0 { CeilPositive(x, to); }
    forall m: nat | x <= m * to ensures RoundUp(x, to) <= m * to {
      CeilLeast(x, to, m);
    }
  }

  lemma CeilPositive(x: nat, to: nat)
    requires to > 0 && x > 0
    ensures DivCeil(x, to) * to >= to
  {
    Quotient(x + to - 1, to, 1);
    assert DivCeil(x, to) * to >= 1 * to;
  }

  lemma MultipleOf(q: nat, to: nat)
    requires to > 0
    ensures (q * to) % to == 0
  {
    var d, r := q * to / to, (q * to) % to;
    assert q * to == d * to + r;
    assert d < q ==> (d + 1) * to <= q * to;
    assert d > q ==> (q + 1) * to <= d * to;
  }

  /** What the parameters and the current registrations must satisfy for the lead's proposal to pass. */
  predicate Proposable(w: Wire, p: Params, s: State) {
    && s.registered != {}
    && p.durMs > 0 && p.messageSize > 0
    && (PinnedKind(p) in {KPanetiere, KScheduledPanetiere} ==>
          Threshold(|Placed(s)|) <= Max(|Placed(s)|, 1) && CadenceFits(p.durMs, p.formation, |Placed(s)|, Threshold(|Placed(s)|)))
    && (PinnedKind(p) == KScheduledPanetiere ==> p.messageSize <= U16_MAX)
    && (PinnedKind(p) == KScheduledAdcnet ==> p.messageSize <= MAX_VECTOR_BYTES)
    && forall id :: 0 <= id < Max(s.sizing.count, 1) ==> w.estimate(ProtocolFor(p, s, id), |Placed(s)|) <= w.budget
  }

  lemma HalfProduct(a: nat, b: nat)
    requires a >= 4 && b >= 1
    ensures a * b / 2 >= 2
  {
    assert a * b >= a * 1;
  }

  lemma VectorPositive(p: Params, s: State, id: nat)
    requires p.messageSize > 0
    ensures VectorFor(p, s, id) > 0
  {
    MinVectorFacts(p, s.sizing.capacity);
  }

  /** The threshold formula always lands between a majority and the whole roster. */
  lemma ThresholdInRange(n: nat)
    requires n > 0
    ensures ThresholdOk(n, Threshold(n)) && Threshold(n) + 2 >= n
  {
  }

  lemma LengthFacts(p: Params)
    ensures var length := RoundUp(p.messageSize, 1024);
      0 < p.messageSize <= MAX_VECTOR_BYTES <==> 1024 <= length <= MAX_VECTOR_BYTES
    ensures RoundUp(p.messageSize, 1024) % 1024 == 0
    ensures p.messageSize > 0 <==> RoundUp(p.messageSize, 1024) > 0
  {
    RoundUpFacts(p.messageSize, 1024);
    assert MAX_VECTOR_BYTES == 128 * 1024;
  }

  lemma ProtocolExact(p: Params, s: State, id: nat)
    requires Inv(s) && s.sizing.capacity <= Controller.MAX_SUBNET_CLIENTS && s.registered != {}
    ensures ProtocolOk(ProtocolFor(p, s, id), |Placed(s)|) <==>
      && p.durMs > 0 && p.messageSize > 0
      && (PinnedKind(p) in {KPanetiere, KScheduledPanetiere} ==>
            Threshold(|Placed(s)|) <= Max(|Placed(s)|, 1) && CadenceFits(p.durMs, p.formation, |Placed(s)|, Threshold(|Placed(s)|)))
      && (PinnedKind(p) == KScheduledPanetiere ==> p.messageSize <= U16_MAX)
      && (PinnedKind(p) == KScheduledAdcnet ==> p.messageSize <= MAX_VECTOR_BYTES)
  {
    PlacedFacts(s);
    ThresholdInRange(|Placed(s)|);
    LengthFacts(p);
    if p.messageSize > 0 { VectorPositive(p, s, id); }
    AggregationFacts(s.sizing.capacity, Placed(s));
  }

  lemma StructureExact(w: Wire, p: Params, s: State, nowMs: nat)
    requires Inv(s) && s.sizing.capacity <= Controller.MAX_SUBNET_CLIENTS
    ensures ValidStructure(w, BuildBody(p, s, nowMs)) <==> Proposable(w, p, s)
  {
    var b := BuildBody(p, s, nowMs);
    PlacedFacts(s);
    KnownUnique(Sorted(s.services.Keys), s.services);
    KnownUnique(Placed(s), s.exchangeKeys);
    assert Unique(Ids(b.subnets));
    if s.registered == {} {
      assert !SubnetOk(w, b.subnets[0]);
    } else {
      forall id | 0 <= id < |b.subnets|
        ensures SubnetOk(w, b.subnets[id]) <==>
          ProtocolOk(ProtocolFor(p, s, id), |Placed(s)|) && w.estimate(ProtocolFor(p, s, id), |Placed(s)|) <= w.budget
      {
      }
      forall id: nat { ProtocolExact(p, s, id); }
      if ValidStructure(w, b) {
        forall id | 0 <= id < |b.subnets| ensures w.estimate(ProtocolFor(p, s, id), |Placed(s)|) <= w.budget {
          assert SubnetOk(w, b.subnets[id]);
        }
        assert SubnetOk(w, b.subnets[0]);
      }
    }
  }

  // ---------------------------------------------------------------- the generator satisfies the validator

  /** `m` has registered everything the lead's body would carry, and shares its epoch and policy. */
  predicate Sees(p: Params, s: State, nowMs: nat, q: Params, m: State) {
    && s.registered <= m.registered
    && (forall k :: k in s.registered && k in s.exchangeKeys ==> k in m.exchangeKeys && m.exchangeKeys[k] == s.exchangeKeys[k])
    && (forall t :: t in s.services ==> t in m.services && m.services[t] == s.services[t])
    && (forall k :: k in s.nodeUrls && k in s.registered ==> k in m.nodeUrls && m.nodeUrls[k] == s.nodeUrls[k])
    && (forall t :: t in s.serviceUrls && t in s.services ==> t in m.serviceUrls && m.serviceUrls[t] == s.serviceUrls[t])
    && (m.epoch.Some? ==> m.epoch.value == BuildBody(p, s, nowMs).epochMs)
    && q.attestation == p.attestation && q.attested == p.attested
  }

  lemma EndpointsListed(p: Params, s: State, nowMs: nat)
    requires Inv(s)
    ensures EndpointsPlaced(BuildBody(p, s, nowMs))
  {
    var b := BuildBody(p, s, nowMs);
    PlacedFacts(s);
    forall e | e in b.nodeUrls ensures e.0 in Firsts(b.exchangeKeys) {
      FirstsHas(b.exchangeKeys, (e.0, s.exchangeKeys[e.0]));
    }
    forall e | e in b.serviceUrls ensures e.0 in Firsts(b.services) {
      FirstsHas(b.services, (e.0, s.services[e.0]));
    }
  }

  lemma RegistrationsBearOut(p: Params, s: State, nowMs: nat, q: Params, m: State)
    requires Inv(s) && Sees(p, s, nowMs, q, m)
    ensures BornOut(m, BuildBody(p, s, nowMs))
  {
    PlacedFacts(s);
  }

  lemma SubnetIs(p: Params, s: State, i: nat)
    requires s.registered != {}
    ensures var n := SubnetFor(p, s, i);
      && n.relays == Placed(s) && n.attested == (n.id in p.attested)
      && (n.protocol.Adcnet? ==>
            AggregationOk(n.protocol.aggregation)
            && (n.protocol.aggregation.Some? ==> forall k :: k in n.protocol.aggregation.value ==> k in Placed(s)))
  {
    PlacedFacts(s);
    AggregationFacts(s.sizing.capacity, Placed(s));
  }

  lemma SubnetBearsOut(p: Params, s: State, nowMs: nat, q: Params, m: State, i: nat)
    requires Inv(s) && Sees(p, s, nowMs, q, m) && s.registered != {} && i < Max(s.sizing.count, 1)
    ensures ValidSubnet(q, m, SubnetFor(p, s, i))
  {
    PlacedFacts(s);
    SubnetIs(p, s, i);
  }

  lemma SubnetsBearOut(p: Params, s: State, nowMs: nat, q: Params, m: State)
    requires Inv(s) && Sees(p, s, nowMs, q, m) && s.registered != {}
    ensures SubnetsBornOut(q, m, BuildBody(p, s, nowMs))
  {
    var b := BuildBody(p, s, nowMs);
    forall i | 0 <= i < |b.subnets| ensures ValidSubnet(q, m, b.subnets[i]) {
      SubnetBearsOut(p, s, nowMs, q, m, i);
    }
  }

  lemma SameHeader(p: Params, s: State, nowMs: nat, q: Params, m: State)
    requires Sees(p, s, nowMs, q, m)
    ensures var b := BuildBody(p, s, nowMs);
      (m.epoch.Some? ==> m.epoch.value == b.epochMs) && b.attestation == q.attestation
  {
  }

  /**
   * A member that has seen the lead's registrations accepts the lead's body exactly
   * when the lead's parameters and roster are proposable: registrations and
   * policies never get in the way.
   */
  lemma MembersAccept(w: Wire, p: Params, s: State, nowMs: nat, q: Params, m: State)
    requires Inv(s) && s.sizing.capacity <= Controller.MAX_SUBNET_CLIENTS
    requires Sees(p, s, nowMs, q, m)
    ensures ValidBody(w, q, m, BuildBody(p, s, nowMs)) <==> Proposable(w, p, s)
  {
    StructureExact(w, p, s, nowMs);
    if Proposable(w, p, s) {
      EndpointsListed(p, s, nowMs);
      RegistrationsBearOut(p, s, nowMs, q, m);
      SubnetsBearOut(p, s, nowMs, q, m);
      SameHeader(p, s, nowMs, q, m);
    }
  }

  /**
   * From every reachable state, right after sizing and stamping, the lead's own
   * validator accepts the lead's body exactly when it is proposable.
   */
  lemma GeneratorSatisfiesValidator(w: Wire, p: Params, events: seq<Event>, input: Controller.Input, nowMs: nat, decoded: nat -> nat)
    ensures var s := Run(p, events + [Size(input), Stamp(nowMs, decoded)]);
      ValidBody(w, p, s, BuildBody(p, s, nowMs)) <==> Proposable(w, p, s)
  {
    var sized := events + [Size(input)];
    var all := events + [Size(input), Stamp(nowMs, decoded)];
    assert all[..|all| - 1] == sized && sized[..|sized| - 1] == events;
    RunKeeps(p, events);
    Controller.TickInRange(p.sizing, input, Run(p, events).sizing);
    assert Run(p, sized) == Step(p, Run(p, events), Size(input));
    assert Run(p, all) == Step(p, Run(p, sized), Stamp(nowMs, decoded));
    RunKeeps(p, all);
    MembersAccept(w, p, Run(p, all), nowMs, p, Run(p, all));
  }

  // ---------------------------------------------------------------- resizing in place

  /** The `scheduled_vectors` table, resized subnet by subnet. */
  class VectorTable {
    const params: Params
    var vectors: map<nat, nat>

    constructor (p: Params)
      ensures params == p && vectors == map[]
    {
      params, vectors := p, map[];
    }

    method ResizeScheduledVectors(capacity: nat, count: nat, decoded: nat -> nat)
      modifies this
      ensures vectors == ResizeVectors(params, capacity, old(vectors), decoded, count)
    {
      var id := 0;
      while id < count
        invariant id <= count
        invariant vectors == ResizeVectors(params, capacity, old(vectors), decoded, id)
      {
        if PinnedKind(params) != KScheduledPanetiere {
          vectors := vectors - {id};
        } else {
          var held := if id in vectors then vectors[id] else 0;
          var desired := DesiredVector(params, capacity, decoded(id));
          if held == 0 || 4 * Controller.Distance(desired, held) >= held {
            vectors := vectors[id := desired];
          } else {
            vectors := vectors[id := held];
          }
        }
        id := id + 1;
      }
    }
  }

  /**
   * Sized vectors stay a positive multiple of the 8 KiB step within the cap, unless
   * the width is fixed by the operator, and lie within a quarter of what is wanted.
   */
  lemma {:induction false} VectorsSized(p: Params, capacity: nat, vectors: map<nat, nat>, decoded: nat -> nat, n: nat, id: nat)
    requires PinnedKind(p) == KScheduledPanetiere && p.messageSize > 0 && id < n
    requires p.vectorBytes == 0 ==> forall j :: j in vectors ==> vectors[j] % 8192 == 0 && vectors[j] <= MAX_VECTOR_BYTES
    ensures var after := ResizeVectors(p, capacity, vectors, decoded, n);
      id in after && after[id] > 0
      && (p.vectorBytes == 0 ==> after[id] % 8192 == 0 && after[id] <= MAX_VECTOR_BYTES)
      && (var desired := DesiredVector(p, capacity, decoded(id));
          after[id] == desired || 4 * Controller.Distance(desired, after[id]) < after[id])
  {
    MinVectorFacts(p, capacity);
    DesiredFacts(p.vectorBytes, MinVector(p, capacity), decoded(id));
    if id < n - 1 {
      VectorsSized(p, capacity, vectors, decoded, n - 1, id);
    } else {
      Untouched(p, capacity, vectors, decoded, id, id);
    }
  }

  lemma DesiredFacts(fixedWidth: nat, least: nat, decoded: nat)
    requires least > 0 && least % 8192 == 0
    ensures var desired := DesiredFrom(fixedWidth, least, decoded);
      desired > 0 && (fixedWidth == 0 ==> desired % 8192 == 0 && desired <= MAX_VECTOR_BYTES)
  {
    RoundUpFacts(decoded * 3 / 2, 8192);
  }

  lemma MinVectorFacts(p: Params, capacity: nat)
    requires p.messageSize > 0
    ensures MinVector(p, capacity) > 0 && MinVector(p, capacity) % 8192 == 0
  {
    HalfProduct(ExpectedActive(capacity), p.messageSize);
    RoundUpFacts(ExpectedActive(capacity) * p.messageSize / 2, 8192);
  }

  lemma {:induction false} Untouched(p: Params, capacity: nat, vectors: map<nat, nat>, decoded: nat -> nat, n: nat, id: nat)
    requires n <= id
    ensures var after := ResizeVectors(p, capacity, vectors, decoded, n);
      (id in after <==> id in vectors) && (id in vectors ==> after[id] == vectors[id])
  {
    if n > 0 { Untouched(p, capacity, vectors, decoded, n - 1, id); }
  }
}
