/**
 * No scheduled payload is lost: what was staged is delivered or still held, step by
 * step and over every run.  Multisets of payloads are read as counts, one per
 * non-empty payload; an empty payload is cover.
 */
module Conservation {
  import opened Basics
  import opened ScheduledClients

  /** How often `x` occurs in a list of payloads. */
  function Count(ps: seq<Bytes>, x: Bytes): nat {
    if ps == [] then 0 else Count(ps[..|ps| - 1], x) + (if ps[|ps| - 1] == x then 1 else 0)
  }

  lemma {:induction false} CountConcat(a: seq<Bytes>, b: seq<Bytes>, x: Bytes)
    ensures Count(a + b, x) == Count(a, x) + Count(b, x)
  {
    if b == [] {
      assert a + b == a;
    } else {
      CountConcat(a, b[..|b| - 1], x);
      assert (a + b)[..|a + b| - 1] == a + b[..|b| - 1];
    }
  }

  lemma CountAppend(a: seq<Bytes>, p: Bytes, x: Bytes)
    ensures Count(a + [p], x) == Count(a, x) + (if p == x then 1 else 0)
  {
    assert (a + [p])[..|a + [p]| - 1] == a;
  }

  lemma {:induction false} CountReal(ps: seq<Bytes>, x: Bytes)
    requires x != []
    ensures Count(Real(ps), x) == Count(ps, x)
  {
    if ps != [] {
      var n := |ps| - 1;
      CountReal(ps[..n], x);
      if ps[n] == [] { assert Real(ps) == Real(ps[..n]); } else { CountAppend(Real(ps[..n]), ps[n], x); }
    }
  }

  lemma {:induction false} CountIsMultiset(ps: seq<Bytes>, x: Bytes)
    ensures Count(ps, x) == multiset(ps)[x]
  {
    if ps != [] {
      var n := |ps| - 1;
      CountIsMultiset(ps[..n], x);
      assert ps == ps[..n] + [ps[n]];
    }
  }

  // ---------------------------------------------------------------- what is held

  function CountAt(m: map<nat, seq<Reservation>>, k: nat, x: Bytes): nat { Count(PayloadsAt(m, k), x) }

  function CountFlat(m: map<nat, seq<Reservation>>, ks: seq<nat>, x: Bytes): nat {
    if ks == [] then 0 else CountFlat(m, ks[..|ks| - 1], x) + CountAt(m, ks[|ks| - 1], x)
  }

  function CountReserved(m: map<nat, seq<Reservation>>, x: Bytes): nat { CountFlat(m, Sorted(m.Keys), x) }

  function CountGrants(gs: seq<Grant>, x: Bytes): nat { Count(GrantData(gs), x) }

  /** How often the client still holds `x`. */
  function Held(c: Client, x: Bytes): nat {
    CountGrants(c.granted, x) + CountReserved(c.reserved, x) + Count(c.deferred, x) + Count(c.staged, x)
  }

  lemma {:induction false} FlatCounts(m: map<nat, seq<Reservation>>, ks: seq<nat>, x: Bytes)
    ensures Count(Flat(m, ks), x) == CountFlat(m, ks, x)
  {
    if ks != [] {
      FlatCounts(m, ks[..|ks| - 1], x);
      CountConcat(Flat(m, ks[..|ks| - 1]), PayloadsAt(m, ks[|ks| - 1]), x);
    }
  }

  lemma PendingCounts(c: Client, x: Bytes)
    requires x != []
    ensures Count(Pending(c), x) == Held(c, x)
  {
    var g, f := GrantData(c.granted), Flat(c.reserved, Sorted(c.reserved.Keys));
    CountReal(g + f + c.deferred + c.staged, x);
    CountConcat(g + f + c.deferred, c.staged, x);
    CountConcat(g + f, c.deferred, x);
    CountConcat(g, f, x);
    FlatCounts(c.reserved, Sorted(c.reserved.Keys), x);
  }

  // ---------------------------------------------------------------- the reserved table

  function Without(ks: seq<nat>, i: nat): seq<nat>
    requires i < |ks|
  {
    ks[..i] + ks[i + 1..]
  }

  lemma WithoutInit(ks: seq<nat>, i: nat)
    requires i < |ks| - 1
    ensures Without(ks, i) != [] && Without(ks, i)[|ks| - 2] == ks[|ks| - 1]
    ensures Without(ks, i)[..|ks| - 2] == Without(ks[..|ks| - 1], i)
  {
  }

  lemma {:induction false} CountTake(m: map<nat, seq<Reservation>>, ks: seq<nat>, i: nat, x: Bytes)
    requires i < |ks|
    ensures CountFlat(m, ks, x) == CountAt(m, ks[i], x) + CountFlat(m, Without(ks, i), x)
    decreases |ks|
  {
    if i < |ks| - 1 {
      CountTake(m, ks[..|ks| - 1], i, x);
      WithoutInit(ks, i);
    } else {
      assert Without(ks, i) == ks[..i];
    }
  }

  lemma {:induction false} CountSame(m: map<nat, seq<Reservation>>, m': map<nat, seq<Reservation>>, ks: seq<nat>, x: Bytes)
    requires forall k :: k in ks ==> PayloadsAt(m, k) == PayloadsAt(m', k)
    ensures CountFlat(m, ks, x) == CountFlat(m', ks, x)
  {
    if ks != [] { CountSame(m, m', ks[..|ks| - 1], x); }
  }

  lemma WithoutHas(ks: seq<nat>, i: nat, y: nat)
    requires i < |ks| && Ascending(ks)
    ensures Ascending(Without(ks, i))
    ensures y in Without(ks, i) <==> y in ks && y != ks[i]
  {
    var w := Without(ks, i);
    if y in ks && y != ks[i] {
      var j :| 0 <= j < |ks| && ks[j] == y;
      assert w[if j < i then j else j - 1] == y;
    }
  }

  lemma SortedWithout(keys: set<nat>, k: nat) returns (i: nat)
    requires k in keys
    ensures i < |Sorted(keys)| && Sorted(keys)[i] == k
    ensures Sorted(keys - {k}) == Without(Sorted(keys), i)
  {
    var ks := Sorted(keys);
    i :| 0 <= i < |ks| && ks[i] == k;
    WithoutHas(ks, i, k);
    forall y ensures y in Without(ks, i) <==> y in Sorted(keys - {k}) { WithoutHas(ks, i, y); }
    AscendingUnique(Sorted(keys - {k}), Without(ks, i));
  }

  lemma TakeOne(m: map<nat, seq<Reservation>>, k: nat, x: Bytes)
    requires k in m
    ensures CountReserved(m, x) == CountReserved(m - {k}, x) + CountAt(m, k, x)
  {
    var i := SortedWithout(m.Keys, k);
    CountTake(m, Sorted(m.Keys), i, x);
    var rest := m - {k};
    assert rest.Keys == m.Keys - {k};
    forall j | j in Sorted(rest.Keys) ensures PayloadsAt(m, j) == PayloadsAt(rest, j) {
      assert j in rest.Keys;
    }
    CountSame(m, rest, Sorted(rest.Keys), x);
  }

  lemma PutThenTake(m: map<nat, seq<Reservation>>, k: nat, rs: seq<Reservation>)
    ensures m[k := rs] - {k} == m - {k}
    ensures k !in m ==> m - {k} == m && PayloadsAt(m, k) == []
    ensures PayloadsAt(m[k := rs], k) == Payloads(rs)
  {
  }

  lemma TakeAny(m: map<nat, seq<Reservation>>, rest: map<nat, seq<Reservation>>, k: nat, x: Bytes)
    requires rest == m - {k}
    ensures CountReserved(m, x) == CountReserved(rest, x) + CountAt(m, k, x)
  {
    if k in m {
      TakeOne(m, k, x);
    } else {
      assert rest == m;
    }
  }

  lemma PutOne(m: map<nat, seq<Reservation>>, k: nat, rs: seq<Reservation>, x: Bytes)
    ensures CountReserved(m[k := rs], x) + CountAt(m, k, x) == CountReserved(m, x) + Count(Payloads(rs), x)
  {
    PutThenTake(m, k, rs);
    var rest, put := m - {k}, m[k := rs];
    TakeAny(put, rest, k, x);
    TakeAny(m, rest, k, x);
  }

  lemma TakeNext(m: map<nat, seq<Reservation>>, before: map<nat, seq<Reservation>>, after: map<nat, seq<Reservation>>, k: nat, x: Bytes)
    requires after == before - {k} && PayloadsAt(before, k) == PayloadsAt(m, k)
    ensures CountReserved(before, x) == CountReserved(after, x) + CountAt(m, k, x)
  {
    TakeAny(before, after, k, x);
  }

  lemma CountFlatNext(m: map<nat, seq<Reservation>>, ks: seq<nat>, i: nat, x: Bytes)
    requires i < |ks|
    ensures CountFlat(m, ks[..i + 1], x) == CountFlat(m, ks[..i], x) + CountAt(m, ks[i], x)
  {
    assert ks[..i + 1][..i] == ks[..i];
  }

  lemma TakeStep(m: map<nat, seq<Reservation>>, ks: seq<nat>, i: nat, x: Bytes)
    requires Ascending(ks) && Members(ks) <= m.Keys && i < |ks|
    ensures CountReserved(m - Members(ks[..i]), x) + CountFlat(m, ks[..i], x)
      == CountReserved(m - Members(ks[..i + 1]), x) + CountFlat(m, ks[..i + 1], x)
  {
    var before, after := m - Members(ks[..i]), m - Members(ks[..i + 1]);
    NextStale(before, m, ks, i);
    TakeNext(m, before, after, ks[i], x);
    CountFlatNext(m, ks, i, x);
  }

  lemma {:induction false} TakeMany(m: map<nat, seq<Reservation>>, ks: seq<nat>, i: nat, x: Bytes)
    requires Ascending(ks) && Members(ks) <= m.Keys && i <= |ks|
    ensures CountReserved(m, x) == CountReserved(m - Members(ks[..i]), x) + CountFlat(m, ks[..i], x)
    decreases i
  {
    if i == 0 {
      assert m - Members(ks[..0]) == m;
    } else {
      TakeMany(m, ks, i - 1, x);
      TakeStep(m, ks, i - 1, x);
    }
  }

  // ---------------------------------------------------------------- the list-splitting steps

  lemma GrantsAppend(gs: seq<Grant>, g: Grant, x: Bytes)
    ensures CountGrants(gs + [g], x) == CountGrants(gs, x) + (if g.data == x then 1 else 0)
  {
    assert GrantData(gs + [g]) == GrantData(gs) + [g.data];
    CountAppend(GrantData(gs), g.data, x);
  }

  lemma PlaceOne(pl: Placement, g: Grant, x: Bytes)
    ensures Count(pl.delivered + [g.data], x) == Count(pl.delivered, x) + (if g.data == x then 1 else 0)
    ensures Count(pl.missed + [g.data], x) == Count(pl.missed, x) + (if g.data == x then 1 else 0)
    ensures CountGrants(pl.remaining + [g], x) == CountGrants(pl.remaining, x) + (if g.data == x then 1 else 0)
  {
    CountAppend(pl.delivered, g.data, x);
    CountAppend(pl.missed, g.data, x);
    GrantsAppend(pl.remaining, g, x);
  }

  lemma CountGrantsLast(gs: seq<Grant>, x: Bytes)
    requires gs != []
    ensures CountGrants(gs, x) == CountGrants(gs[..|gs| - 1], x) + (if gs[|gs| - 1].data == x then 1 else 0)
  {
    assert gs == gs[..|gs| - 1] + [gs[|gs| - 1]];
    GrantsAppend(gs[..|gs| - 1], gs[|gs| - 1], x);
  }

  lemma {:induction false} PlaceSplits(gs: seq<Grant>, round: nat, width: nat, x: Bytes)
    ensures var pl := Place(gs, round, width);
      CountGrants(gs, x) == Count(pl.delivered, x) + Count(pl.missed, x) + CountGrants(pl.remaining, x)
  {
    if gs == [] {
      assert GrantData([]) == [];
    } else {
      PlaceSplits(gs[..|gs| - 1], round, width, x);
      CountGrantsLast(gs, x);
      PlaceOne(Place(gs[..|gs| - 1], round, width), gs[|gs| - 1], x);
    }
  }

  lemma {:induction false} DrainSplits(ps: seq<Bytes>, flips: nat -> bool, x: Bytes)
    ensures Count(ps, x) == Count(Drain(ps, flips).0, x) + Count(Drain(ps, flips).1, x)
  {
    if ps != [] {
      var n := |ps| - 1;
      DrainSplits(ps[..n], flips, x);
      CountAppend(Drain(ps[..n], flips).0, ps[n], x);
      CountAppend(Drain(ps[..n], flips).1, ps[n], x);
    }
  }

  lemma {:induction false} SettleSplits(es: seq<Entry>, offs: seq<Option<nat>>, target: nat, mine: seq<Reservation>, x: Bytes)
    requires |offs| == |es| && x != []
    ensures Count(Payloads(mine), x) == CountGrants(Settle(es, offs, target, mine).0, x) + Count(Settle(es, offs, target, mine).1, x)
  {
    if mine != [] {
      var n := |mine| - 1;
      var (grants, back) := Settle(es, offs, target, mine[..n]);
      SettleSplits(es, offs, target, mine[..n], x);
      var r := mine[n];
      assert Payloads(mine)[..n] == Payloads(mine[..n]);
      if Placing(es, offs, r).Some? {
        GrantsAppend(grants, Grant(target, Placing(es, offs, r).value, r.data), x);
      } else if r.data != [] {
        CountAppend(back, r.data, x);
      } else {
        assert back + [] == back;
      }
    }
  }

  // ---------------------------------------------------------------- each step

  function Admitted(p: Params, payload: Bytes, x: Bytes): nat {
    if payload == x && |payload| <= Min(p.vectorBytes, U16_MAX) then 1 else 0
  }

  lemma StageHeld(p: Params, c: Client, payload: Bytes, x: Bytes)
    ensures Held(Stage(p, c, payload), x) == Held(c, x) + Admitted(p, payload, x)
  {
    CountAppend(c.staged, payload, x);
  }

  lemma AdvanceHeld(c: Client, round: nat, x: Bytes)
    requires x != []
    ensures Held(Advance(c, round), x) == Held(c, x)
  {
    var stale := StaleRounds(c.reserved, SatSub(round, RETENTION));
    var ks := Sorted(stale);
    assert Members(ks) == stale;
    assert ks[..|ks|] == ks;
    TakeMany(c.reserved, ks, |ks|, x);
    CountConcat(c.deferred, Real(Flat(c.reserved, ks)), x);
    CountReal(Flat(c.reserved, ks), x);
    FlatCounts(c.reserved, ks, x);
  }

  lemma CountGrantsConcat(a: seq<Grant>, b: seq<Grant>, x: Bytes)
    ensures CountGrants(a + b, x) == CountGrants(a, x) + CountGrants(b, x)
  {
    assert GrantData(a + b) == GrantData(a) + GrantData(b);
    CountConcat(GrantData(a), GrantData(b), x);
  }

  lemma AcceptHeld(p: Params, c: Client, round: nat, es: seq<Entry>, signed: bool, x: Bytes)
    requires Answers(p.slots) && x != []
    ensures Held(Accept(p, c, round, es, signed), x) == Held(c, x)
  {
    if signed && InWindow(round, c.cur) && round in c.reserved {
      var offs := p.slots.allocate(es, p.vectorBytes);
      var (grants, back) := Settle(es, offs, round + GAP, c.reserved[round]);
      TakeOne(c.reserved, round, x);
      SettleSplits(es, offs, round + GAP, c.reserved[round], x);
      CountGrantsConcat(c.granted, grants, x);
      CountConcat(c.deferred, back, x);
      var t := Accept(p, c, round, es, signed);
      assert t.granted == c.granted + grants && t.deferred == c.deferred + back && t.staged == c.staged;
      assert t.reserved == c.reserved - {round};
    }
  }

  /** What a completed finalize of `round` would reserve for. */
  function Reserving(p: Params, c: Client, round: nat, ch: Chance): seq<Bytes>
    requires Answers(p.slots)
  {
    ToReserve(c, Place(c.granted, round, Width(p, c.entries, round)).missed, ch)
  }

  /** The payloads a finalize overwrites: those still reserved under the same round, if it reserves again. */
  function Overwritten(p: Params, c: Client, round: nat, complete: bool, ch: Chance): seq<Bytes>
    requires Answers(p.slots)
  {
    if complete && Reserving(p, c, round, ch) != [] then PayloadsAt(c.reserved, round) else []
  }

  lemma ToReserveCounts(c: Client, missed: seq<Bytes>, ch: Chance, x: Bytes)
    requires x != []
    ensures Count(ToReserve(c, missed, ch), x) + Count(Drain(c.deferred + missed, ch.flips).1, x)
      == Count(c.staged, x) + Count(c.deferred, x) + Count(missed, x)
  {
    CountConcat(c.deferred, missed, x);
    DrainSplits(c.deferred + missed, ch.flips, x);
    var out := c.staged + Drain(c.deferred + missed, ch.flips).0;
    CountConcat(c.staged, Drain(c.deferred + missed, ch.flips).0, x);
    if out == [] && ch.cover {
      CountAppend(out, [], x);
      assert out + [[]] == [[]];
    }
  }

  lemma FinalizeHeld(p: Params, c: Client, round: nat, complete: bool, ch: Chance, x: Bytes)
    requires Answers(p.slots) && x != []
    ensures var (t, sub) := Finalize(p, c, round, complete, ch);
      Held(c, x) == Held(t, x) + Count(sub.delivered, x) + Count(Overwritten(p, c, round, complete, ch), x)
  {
    if complete {
      var pl := Place(c.granted, round, Width(p, c.entries, round));
      PlaceSplits(c.granted, round, Width(p, c.entries, round), x);
      ToReserveCounts(c, pl.missed, ch, x);
      var out := ToReserve(c, pl.missed, ch);
      var rs := Tagged(out, ch.draw);
      assert Payloads(rs) == out;
      if rs != [] { PutOne(c.reserved, round, rs, x); }
    }
  }

  lemma {:induction false} SomeReal(ps: seq<Bytes>) returns (x: Bytes)
    requires Real(ps) != []
    ensures x != [] && Count(ps, x) > 0
  {
    var n := |ps| - 1;
    if ps[n] != [] { x := ps[n]; } else { x := SomeReal(ps[..n]); }
  }

  lemma {:induction false} NoReal(ps: seq<Bytes>, x: Bytes)
    requires x != [] && Real(ps) == []
    ensures Count(ps, x) == 0
  {
    CountReal(ps, x);
  }

  /** Nothing but cover is reserved under the round already, or the call will not reserve. */
  predicate Harmless(p: Params, c: Client, round: nat, complete: bool, ch: Chance)
    requires Answers(p.slots)
  {
    !complete || Reserving(p, c, round, ch) == [] || round !in c.reserved || Real(Payloads(c.reserved[round])) == []
  }

  lemma HarmlessIs(p: Params, c: Client, round: nat, complete: bool, ch: Chance)
    requires Answers(p.slots)
    ensures Harmless(p, c, round, complete, ch) <==> Real(Overwritten(p, c, round, complete, ch)) == []
  {
  }

  /** A finalize loses nothing exactly when it does not reserve over payloads still reserved in its round. */
  lemma FinalizeConservesExactly(p: Params, c: Client, round: nat, complete: bool, ch: Chance)
    requires Answers(p.slots)
    ensures var (t, sub) := Finalize(p, c, round, complete, ch);
      (forall x: Bytes :: x != [] ==> Held(c, x) == Held(t, x) + Count(sub.delivered, x)) <==> Harmless(p, c, round, complete, ch)
  {
    var (t, sub) := Finalize(p, c, round, complete, ch);
    var lost := Overwritten(p, c, round, complete, ch);
    HarmlessIs(p, c, round, complete, ch);
    if Real(lost) == [] {
      forall x: Bytes | x != [] ensures Held(c, x) == Held(t, x) + Count(sub.delivered, x) {
        FinalizeHeld(p, c, round, complete, ch, x);
        NoReal(lost, x);
      }
    } else {
      var x := SomeReal(lost);
      FinalizeHeld(p, c, round, complete, ch, x);
    }
  }

  /** The guard a caller can check: a round with no reservations outstanding is finalized without loss. */
  lemma FreshRoundConserves(p: Params, c: Client, round: nat, complete: bool, ch: Chance, x: Bytes)
    requires Answers(p.slots) && round !in c.reserved && x != []
    ensures var (t, sub) := Finalize(p, c, round, complete, ch); Held(c, x) == Held(t, x) + Count(sub.delivered, x)
  {
    FinalizeConservesExactly(p, c, round, complete, ch);
  }

  // ---------------------------------------------------------------- runs

  datatype Event =
    | Stages(payload: Bytes)
    | Advances(round: nat)
    | Accepts(round: nat, es: seq<Entry>, signed: bool)
    | Finalizes(round: nat, complete: bool, ch: Chance)

  /** A client with the payloads it admitted and those it wrote into vectors. */
  datatype Ledger = Ledger(client: Client, admitted: seq<Bytes>, delivered: seq<Bytes>)

  const Opening: Ledger := Ledger(NewClient, [], [])

  function Step(p: Params, l: Ledger, e: Event): Ledger
    requires Answers(p.slots)
  {
    match e
    case Stages(payload) =>
      l.(client := Stage(p, l.client, payload),
         admitted := if |payload| <= Min(p.vectorBytes, U16_MAX) then l.admitted + [payload] else l.admitted)
    case Advances(round) => l.(client := Advance(l.client, round))
    case Accepts(round, es, signed) => l.(client := Accept(p, l.client, round, es, signed))
    case Finalizes(round, complete, ch) =>
      var (t, sub) := Finalize(p, l.client, round, complete, ch);
      l.(client := t, delivered := l.delivered + sub.delivered)
  }

  function Run(p: Params, events: seq<Event>): Ledger
    requires Answers(p.slots)
  {
    if events == [] then Opening else Step(p, Run(p, events[..|events| - 1]), events[|events| - 1])
  }

  predicate FinalizedIn(events: seq<Event>, round: nat) {
    exists i :: 0 <= i < |events| && events[i].Finalizes? && events[i].round == round
  }

  /** No round is finalized twice. */
  predicate FinalizesOnce(events: seq<Event>) {
    forall i :: 0 <= i < |events| && events[i].Finalizes? ==> !FinalizedIn(events[..i], events[i].round)
  }

  /** The payloads finalizes overwrote over a run. */
  function Lost(p: Params, events: seq<Event>): seq<Bytes>
    requires Answers(p.slots)
  {
    if events == [] then [] else Lost(p, events[..|events| - 1]) + LostNow(p, Run(p, events[..|events| - 1]).client, events[|events| - 1])
  }

  function LostNow(p: Params, c: Client, e: Event): seq<Bytes>
    requires Answers(p.slots)
  {
    if e.Finalizes? then Overwritten(p, c, e.round, e.complete, e.ch) else []
  }

  predicate Balanced(l: Ledger, lost: seq<Bytes>, x: Bytes) {
    Count(l.admitted, x) == Count(l.delivered, x) + Held(l.client, x) + Count(lost, x)
  }

  lemma StepBalances(p: Params, l: Ledger, e: Event, lost: seq<Bytes>, x: Bytes)
    requires Answers(p.slots) && Balanced(l, lost, x) && x != []
    ensures Balanced(Step(p, l, e), lost + LostNow(p, l.client, e), x)
  {
    CountConcat(lost, LostNow(p, l.client, e), x);
    match e
    case Stages(payload) =>
      StageHeld(p, l.client, payload, x);
      CountAppend(l.admitted, payload, x);
    case Advances(round) => AdvanceHeld(l.client, round, x);
    case Accepts(round, es, signed) => AcceptHeld(p, l.client, round, es, signed, x);
    case Finalizes(round, complete, ch) =>
      FinalizeHeld(p, l.client, round, complete, ch, x);
      CountConcat(l.delivered, Finalize(p, l.client, round, complete, ch).1.delivered, x);
  }

  /** Over every run each payload is admitted as often as it is delivered, held or overwritten. */
  lemma {:induction false} RunBalances(p: Params, events: seq<Event>, x: Bytes)
    requires Answers(p.slots) && x != []
    ensures Balanced(Run(p, events), Lost(p, events), x)
  {
    if events == [] {
      NothingReserved(x);
      OpeningHolds(x);
    } else {
      var n := |events| - 1;
      RunBalances(p, events[..n], x);
      StepBalances(p, Run(p, events[..n]), events[n], Lost(p, events[..n]), x);
    }
  }

  lemma OpeningHolds(x: Bytes)
    requires CountReserved(map[], x) == 0
    ensures Held(NewClient, x) == 0
  {
    assert GrantData([]) == [];
  }

  /** Every finalize of the run finds its round harmless to reserve under. */
  predicate AllHarmless(p: Params, events: seq<Event>)
    requires Answers(p.slots)
  {
    forall i :: 0 <= i < |events| ==> HarmlessAt(p, events, i)
  }

  predicate HarmlessAt(p: Params, events: seq<Event>, i: nat)
    requires Answers(p.slots) && i < |events|
  {
    events[i].Finalizes? ==> Harmless(p, Run(p, events[..i]).client, events[i].round, events[i].complete, events[i].ch)
  }

  lemma HarmlessPrefix(p: Params, events: seq<Event>, init: seq<Event>, i: nat)
    requires Answers(p.slots) && events != [] && init == events[..|events| - 1] && i < |init|
    ensures HarmlessAt(p, events, i) <==> HarmlessAt(p, init, i)
  {
    assert init[..i] == events[..i];
  }

  lemma HarmlessInit(p: Params, events: seq<Event>, init: seq<Event>)
    requires Answers(p.slots) && events != [] && init == events[..|events| - 1]
    ensures AllHarmless(p, events) <==> AllHarmless(p, init) && HarmlessAt(p, events, |init|)
  {
    forall i | 0 <= i < |init| ensures HarmlessAt(p, events, i) <==> HarmlessAt(p, init, i) {
      HarmlessPrefix(p, events, init, i);
    }
  }

  lemma HarmlessLast(p: Params, c: Client, e: Event)
    requires Answers(p.slots)
    ensures Real(LostNow(p, c, e)) == [] <==> (e.Finalizes? ==> Harmless(p, c, e.round, e.complete, e.ch))
  {
    if e.Finalizes? { HarmlessIs(p, c, e.round, e.complete, e.ch); }
  }

  predicate NothingLost(p: Params, events: seq<Event>)
    requires Answers(p.slots)
  {
    Real(Lost(p, events)) == []
  }

  lemma LostLast(p: Params, events: seq<Event>, init: seq<Event>, c: Client, e: Event)
    requires Answers(p.slots) && events != [] && init == events[..|events| - 1] && e == events[|events| - 1]
    requires c == Run(p, init).client
    ensures Lost(p, events) == Lost(p, init) + LostNow(p, c, e)
  {
  }

  lemma LostInit(p: Params, events: seq<Event>, init: seq<Event>, c: Client, e: Event)
    requires Answers(p.slots) && events != [] && init == events[..|events| - 1] && e == events[|events| - 1]
    requires c == Run(p, init).client
    ensures NothingLost(p, events) <==> NothingLost(p, init) && Real(LostNow(p, c, e)) == []
  {
    LostLast(p, events, init, c, e);
    RealConcat(Lost(p, init), LostNow(p, c, e));
  }

  lemma HarmlessNow(p: Params, events: seq<Event>, init: seq<Event>, c: Client, e: Event)
    requires Answers(p.slots) && events != [] && init == events[..|events| - 1] && e == events[|events| - 1]
    requires c == Run(p, init).client
    ensures HarmlessAt(p, events, |init|) <==> (e.Finalizes? ==> Harmless(p, c, e.round, e.complete, e.ch))
  {
  }

  lemma {:induction false} NothingLostExactly(p: Params, events: seq<Event>)
    requires Answers(p.slots)
    ensures NothingLost(p, events) <==> AllHarmless(p, events)
  {
    if events != [] {
      var init, e := events[..|events| - 1], events[|events| - 1];
      NothingLostExactly(p, init);
      LostInit(p, events, init, Run(p, init).client, e);
      HarmlessNow(p, events, init, Run(p, init).client, e);
      HarmlessLast(p, Run(p, init).client, e);
      HarmlessInit(p, events, init);
    }
  }

  /** A payload is admitted as often as it is delivered or held. */
  predicate Conserved(l: Ledger, x: Bytes) { Count(l.admitted, x) == Count(l.delivered, x) + Held(l.client, x) }

  ghost predicate AllConserved(l: Ledger) { forall x: Bytes :: x != [] ==> Conserved(l, x) }

  lemma ConservedExactly(l: Ledger, lost: seq<Bytes>)
    requires forall x: Bytes :: x != [] ==> Balanced(l, lost, x)
    ensures AllConserved(l) <==> Real(lost) == []
  {
    if Real(lost) == [] {
      forall x: Bytes | x != [] ensures Conserved(l, x) {
        assert Balanced(l, lost, x);
        NoReal(lost, x);
      }
    } else {
      var x := SomeReal(lost);
      assert Balanced(l, lost, x) && !Conserved(l, x);
    }
  }

  /** A run conserves every payload if and only if each of its finalizes was harmless when it was made. */
  lemma RunConservesExactly(p: Params, events: seq<Event>)
    requires Answers(p.slots)
    ensures AllConserved(Run(p, events)) <==> AllHarmless(p, events)
  {
    forall x: Bytes | x != [] ensures Balanced(Run(p, events), Lost(p, events), x) { RunBalances(p, events, x); }
    ConservedExactly(Run(p, events), Lost(p, events));
    NothingLostExactly(p, events);
  }

  lemma {:induction false} OnlyFinalizedReserve(p: Params, events: seq<Event>, r: nat)
    requires Answers(p.slots) && r in Run(p, events).client.reserved
    ensures FinalizedIn(events, r)
  {
    var n := |events| - 1;
    if r in Run(p, events[..n]).client.reserved {
      OnlyFinalizedReserve(p, events[..n], r);
      var i :| 0 <= i < n && events[..n][i].Finalizes? && events[..n][i].round == r;
      assert events[i].round == r;
    } else {
      assert events[n].Finalizes? && events[n].round == r;
    }
  }

  lemma FreshAt(p: Params, events: seq<Event>, i: nat)
    requires Answers(p.slots) && i < |events| && (events[i].Finalizes? ==> !FinalizedIn(events[..i], events[i].round))
    ensures HarmlessAt(p, events, i)
  {
    if events[i].Finalizes? && events[i].round in Run(p, events[..i]).client.reserved {
      OnlyFinalizedReserve(p, events[..i], events[i].round);
    }
  }

  /** Over every run that finalizes each round at most once, each payload is admitted as often as it is delivered or held. */
  lemma PayloadsConserved(p: Params, events: seq<Event>, x: Bytes)
    requires Answers(p.slots) && FinalizesOnce(events) && x != []
    ensures var l := Run(p, events); Count(l.admitted, x) == Count(l.delivered, x) + Held(l.client, x)
  {
    forall i | 0 <= i < |events| ensures HarmlessAt(p, events, i) { FreshAt(p, events, i); }
    RunConservesExactly(p, events);
    assert Conserved(Run(p, events), x);
  }

  lemma NothingReserved(x: Bytes)
    ensures CountReserved(map[], x) == 0
  {
    var none: map<nat, seq<Reservation>> := map[];
    HeadIn(Sorted(none.Keys));
    assert Sorted(none.Keys) == [];
  }

  /** What a dropped session returns to the outbox: every payload admitted and not delivered, and no cover. */
  lemma PendingIsOwed(p: Params, events: seq<Event>, x: Bytes)
    requires Answers(p.slots) && FinalizesOnce(events)
    ensures var l := Run(p, events);
      multiset(Pending(l.client))[x] == if x == [] then 0 else Count(l.admitted, x) - Count(l.delivered, x)
  {
    var c := Run(p, events).client;
    CountIsMultiset(Pending(c), x);
    if x == [] {
      NoneEmpty(GrantData(c.granted) + Flat(c.reserved, Sorted(c.reserved.Keys)) + c.deferred + c.staged);
    } else {
      PayloadsConserved(p, events, x);
      PendingCounts(c, x);
    }
  }

  lemma {:induction false} NoneEmpty(ps: seq<Bytes>)
    ensures Count(Real(ps), []) == 0
  {
    if ps != [] {
      NoneEmpty(ps[..|ps| - 1]);
      if ps[|ps| - 1] != [] { CountAppend(Real(ps[..|ps| - 1]), ps[|ps| - 1], []); }
      else { assert Real(ps) == Real(ps[..|ps| - 1]); }
    }
  }

  // ---------------------------------------------------------------- finalizing a round twice

  lemma FinalizeReserves(p: Params, c: Client, round: nat, ch: Chance)
    requires Answers(p.slots) && Reserving(p, c, round, ch) != []
    ensures PayloadsAt(Finalize(p, c, round, true, ch).0.reserved, round) == Reserving(p, c, round, ch)
  {
    var out := Reserving(p, c, round, ch);
    assert Payloads(Tagged(out, ch.draw)) == out;
  }

  lemma StagedIsReserved(p: Params, c: Client, round: nat, ch: Chance, x: Bytes)
    requires Answers(p.slots) && c.staged != []
    ensures Reserving(p, c, round, ch) != [] && Count(Reserving(p, c, round, ch), x) >= Count(c.staged, x)
  {
    CountConcat(c.staged, Drain(c.deferred + Place(c.granted, round, Width(p, c.entries, round)).missed, ch.flips).0, x);
  }

  /**
   * Finalizing one round twice, whatever the client holds: if payloads are staged before
   * each of the two calls, the second loses all that the first reserved for, what was
   * staged before it included.
   */
  lemma SecondFinalizeLoses(p: Params, c: Client, other: Bytes, round: nat, first: Chance, second: Chance, x: Bytes)
    requires Answers(p.slots) && x != [] && round !in c.reserved
    requires c.staged != [] && |other| <= Min(p.vectorBytes, U16_MAX)
    ensures var (once, sub) := Finalize(p, c, round, true, first);
      var (twice, again) := Finalize(p, Stage(p, once, other), round, true, second);
      var lost := Reserving(p, c, round, first);
      && Count(lost, x) >= Count(c.staged, x)
      && Held(c, x) + (if x == other then 1 else 0)
         == Held(twice, x) + Count(sub.delivered, x) + Count(again.delivered, x) + Count(lost, x)
  {
    var (once, sub) := Finalize(p, c, round, true, first);
    var staged := Stage(p, once, other);
    FreshRoundConserves(p, c, round, true, first, x);
    StagedIsReserved(p, c, round, first, x);
    FinalizeReserves(p, c, round, first);
    StageHeld(p, once, other, x);
    StagedIsReserved(p, staged, round, second, x);
    FinalizeHeld(p, staged, round, true, second, x);
  }
}
