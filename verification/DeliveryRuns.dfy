/**
 * Delivery over whole runs: what a client that finalized a round and heard its list
 * submits two rounds later, and what the sum of all such clients' submissions unpacks to.
 */
module DeliveryRuns {
  import opened Basics
  import opened ScheduledClients
  import Conservation
  import opened Delivery

  type Event = Conservation.Event

  function ClientAfter(p: Params, events: seq<Event>): Client
    requires Answers(p.slots)
  {
    Conservation.Run(p, events).client
  }

  /** The driver's clock: it never goes back, and the round finalized is the one it shows. */
  predicate OnTime(c: Client, e: Event) {
    match e
    case Advances(round) => c.cur.Some? ==> c.cur.value <= round
    case Finalizes(round, _, _) => c.cur == Some(round)
    case _ => true
  }

  predicate Timely(p: Params, events: seq<Event>)
    requires Answers(p.slots)
  {
    events == [] || (Timely(p, events[..|events| - 1]) && OnTime(ClientAfter(p, events[..|events| - 1]), events[|events| - 1]))
  }

  function StepClient(p: Params, c: Client, e: Event): Client
    requires Answers(p.slots)
  {
    match e
    case Stages(payload) => Stage(p, c, payload)
    case Advances(round) => Advance(c, round)
    case Accepts(round, es, signed) => Accept(p, c, round, es, signed)
    case Finalizes(round, complete, ch) => Finalize(p, c, round, complete, ch).0
  }

  lemma AfterStep(p: Params, events: seq<Event>, j: nat)
    requires Answers(p.slots) && j < |events|
    ensures ClientAfter(p, events[..j + 1]) == StepClient(p, ClientAfter(p, events[..j]), events[j])
  {
    assert events[..j + 1][..j] == events[..j];
  }

  lemma {:induction false} TimelyAt(p: Params, events: seq<Event>, j: nat)
    requires Answers(p.slots) && Timely(p, events) && j < |events|
    ensures Timely(p, events[..j]) && OnTime(ClientAfter(p, events[..j]), events[j])
    decreases |events|
  {
    var n := |events| - 1;
    if j < n {
      TimelyAt(p, events[..n], j);
      assert events[..n][..j] == events[..j];
    }
  }

  // ---------------------------------------------------------------- the clock

  predicate NotLater(a: Option<nat>, b: Option<nat>) { a.Some? ==> b.Some? && a.value <= b.value }

  lemma ClockStep(p: Params, c: Client, e: Event)
    requires Answers(p.slots) && OnTime(c, e)
    ensures NotLater(c.cur, StepClient(p, c, e).cur)
  {
  }

  lemma {:induction false} ClockRises(p: Params, events: seq<Event>, j: nat, m: nat)
    requires Answers(p.slots) && Timely(p, events) && j <= m <= |events|
    ensures NotLater(ClientAfter(p, events[..j]).cur, ClientAfter(p, events[..m]).cur)
    decreases m
  {
    if j < m {
      ClockRises(p, events, j, m - 1);
      TimelyAt(p, events, m - 1);
      AfterStep(p, events, m - 1);
      ClockStep(p, ClientAfter(p, events[..m - 1]), events[m - 1]);
    }
  }

  // ---------------------------------------------------------------- grants come from lists

  /** The grant's list is at hand, or aged out. */
  predicate Listed(c: Client, g: Grant) {
    g.target >= GAP && (g.target - GAP in c.entries || (c.cur.Some? && g.target - GAP + ENTRIES_RETENTION < c.cur.value))
  }

  ghost predicate GrantsListed(c: Client) { forall g :: g in c.granted ==> Listed(c, g) }

  lemma {:induction false} SettledFor(es: seq<Entry>, offs: seq<Option<nat>>, target: nat, mine: seq<Reservation>)
    requires |offs| == |es|
    ensures forall g :: g in Settle(es, offs, target, mine).0 ==> g.target == target
  {
    if mine != [] { SettledFor(es, offs, target, mine[..|mine| - 1]); }
  }

  lemma {:induction false} RemainingAre(gs: seq<Grant>, round: nat, width: nat)
    ensures forall g :: g in Place(gs, round, width).remaining ==> g in gs
  {
    if gs != [] {
      RemainingAre(gs[..|gs| - 1], round, width);
      assert forall g :: g in gs[..|gs| - 1] ==> g in gs;
    }
  }

  lemma AcceptListed(p: Params, c: Client, round: nat, es: seq<Entry>, signed: bool)
    requires Answers(p.slots) && GrantsListed(c)
    ensures GrantsListed(Accept(p, c, round, es, signed))
  {
    var t := Accept(p, c, round, es, signed);
    if signed && InWindow(round, c.cur) && round in c.reserved {
      SettledFor(es, p.slots.allocate(es, p.vectorBytes), round + GAP, c.reserved[round]);
      forall g | g in t.granted ensures Listed(t, g) { assert g in c.granted ==> Listed(c, g); }
    } else {
      forall g | g in t.granted ensures Listed(t, g) { assert Listed(c, g); }
    }
  }

  lemma StepListed(p: Params, c: Client, e: Event)
    requires Answers(p.slots) && OnTime(c, e) && GrantsListed(c)
    ensures GrantsListed(StepClient(p, c, e))
  {
    var t := StepClient(p, c, e);
    match e {
      case Accepts(round, es, signed) => AcceptListed(p, c, round, es, signed);
      case Finalizes(round, complete, ch) =>
        RemainingAre(c.granted, round, Width(p, c.entries, round));
        forall g | g in t.granted ensures Listed(t, g) { assert Listed(c, g); }
      case _ => forall g | g in t.granted ensures Listed(t, g) { assert Listed(c, g); }
    }
  }

  lemma {:induction false} AllListed(p: Params, events: seq<Event>)
    requires Answers(p.slots) && Timely(p, events)
    ensures GrantsListed(ClientAfter(p, events))
  {
    if events != [] {
      var init, e := events[..|events| - 1], events[|events| - 1];
      AllListed(p, init);
      StepListed(p, ClientAfter(p, init), e);
    }
  }

  lemma {:induction false} NoneDue(gs: seq<Grant>, round: nat)
    requires forall g :: g in gs ==> g.target != round
    ensures Due(gs, round) == []
  {
    if gs != [] {
      assert forall g :: g in gs[..|gs| - 1] ==> g in gs;
      assert gs[|gs| - 1] in gs;
      NoneDue(gs[..|gs| - 1], round);
    }
  }

  /** Nothing is granted for a round whose list, still in the window, has not come. */
  lemma UnheardUngranted(p: Params, events: seq<Event>, round: nat)
    requires Answers(p.slots) && Timely(p, events)
    requires var c := ClientAfter(p, events); InWindow(round, c.cur) && round !in c.entries
    ensures Due(ClientAfter(p, events).granted, round + GAP) == []
  {
    AllListed(p, events);
    var c := ClientAfter(p, events);
    forall g | g in c.granted ensures g.target != round + GAP { assert Listed(c, g); }
    NoneDue(c.granted, round + GAP);
  }

  // ---------------------------------------------------------------- the list is heard

  /** What the client has reserved in a round. */
  function Mine(c: Client, round: nat): seq<Reservation> { if round in c.reserved then c.reserved[round] else [] }

  /** Step `i` hears the list of a round the client has finalized, signed, in the window and for the first time. */
  ghost predicate Hears(p: Params, events: seq<Event>, i: nat, round: nat, es: seq<Entry>)
    requires Answers(p.slots)
  {
    && i < |events| && events[i] == Conservation.Accepts(round, es, true)
    && Conservation.FinalizedIn(events[..i], round)
    && var c := ClientAfter(p, events[..i]);
       InWindow(round, c.cur) && round !in c.entries
  }

  lemma NothingReserved(p: Params, c: Client, round: nat, es: seq<Entry>)
    requires Answers(p.slots) && round !in c.reserved && round !in c.entries && InWindow(round, c.cur)
    requires Due(c.granted, round + GAP) == []
    ensures Promised(p, Accept(p, c, round, es, true), round, es, [])
  {
  }

  lemma HeardPromises(p: Params, events: seq<Event>, i: nat, round: nat, es: seq<Entry>)
    requires Answers(p.slots) && Timely(p, events) && Hears(p, events, i, round, es)
    ensures Promised(p, ClientAfter(p, events[..i + 1]), round, es, Mine(ClientAfter(p, events[..i]), round))
  {
    var c := ClientAfter(p, events[..i]);
    TimelyAt(p, events, i);
    UnheardUngranted(p, events[..i], round);
    AfterStep(p, events, i);
    if round in c.reserved { AcceptPromises(p, c, round, es); } else { NothingReserved(p, c, round, es); }
  }

  /** A step of a client whose clock stays below the end of the promise, finalizing neither round. */
  ghost predicate Harmless(e: Event, round: nat) {
    match e
    case Advances(now) => now <= round + GAP
    case Finalizes(now, _, _) => now < round + GAP && now != round
    case _ => true
  }

  lemma StepKeepsPromise(p: Params, c: Client, e: Event, round: nat, es: seq<Entry>, mine: seq<Reservation>)
    requires Answers(p.slots) && Promised(p, c, round, es, mine) && Harmless(e, round)
    ensures Promised(p, StepClient(p, c, e), round, es, mine)
  {
    match e
    case Stages(_) =>
    case Advances(now) => AdvanceKeeps(p, c, round, es, mine, now);
    case Accepts(other, es', signed) => AcceptKeeps(p, c, round, es, mine, other, es', signed);
    case Finalizes(now, complete, ch) => FinalizeKeeps(p, c, round, es, mine, now, complete, ch);
  }

  /** A run that ends by finalizing `GAP` rounds after `round`, each round once. */
  ghost predicate EndsAt(p: Params, events: seq<Event>, round: nat, ch: Chance)
    requires Answers(p.slots)
  {
    var all := events + [Conservation.Finalizes(round + GAP, true, ch)];
    Timely(p, all) && Conservation.FinalizesOnce(all)
  }

  lemma EndsClock(p: Params, events: seq<Event>, round: nat, ch: Chance)
    requires Answers(p.slots) && EndsAt(p, events, round, ch)
    ensures Timely(p, events) && ClientAfter(p, events).cur == Some(round + GAP)
  {
    var all := events + [Conservation.Finalizes(round + GAP, true, ch)];
    assert all[..|all| - 1] == events;
  }

  lemma FinalizedOnce(events: seq<Event>, a: nat, b: nat)
    requires Conservation.FinalizesOnce(events) && a < b < |events|
    requires events[a].Finalizes? && events[b].Finalizes?
    ensures events[a].round != events[b].round
  {
    assert !Conservation.FinalizedIn(events[..b], events[b].round);
    assert events[..b][a] == events[a];
  }

  /** No step of the run shows a clock beyond its end. */
  lemma ClockBelow(p: Params, events: seq<Event>, j: nat, round: nat, ch: Chance)
    requires Answers(p.slots) && EndsAt(p, events, round, ch) && j < |events|
    ensures OnTime(ClientAfter(p, events[..j]), events[j])
    ensures NotLater(ClientAfter(p, events[..j]).cur, Some(round + GAP))
    ensures NotLater(StepClient(p, ClientAfter(p, events[..j]), events[j]).cur, Some(round + GAP))
  {
    EndsClock(p, events, round, ch);
    TimelyAt(p, events, j);
    ClockRises(p, events, j, |events|);
    ClockRises(p, events, j + 1, |events|);
    AfterStep(p, events, j);
    assert events[..|events|] == events;
  }

  /** A finalize after the list was heard is of neither round. */
  lemma FinalizesOther(p: Params, events: seq<Event>, i: nat, j: nat, round: nat, es: seq<Entry>, ch: Chance)
    requires Answers(p.slots) && EndsAt(p, events, round, ch) && Hears(p, events, i, round, es) && i < j < |events|
    requires events[j].Finalizes?
    ensures events[j].round != round + GAP && events[j].round != round
  {
    var all := events + [Conservation.Finalizes(round + GAP, true, ch)];
    FinalizedOnce(all, j, |events|);
    var k :| 0 <= k < i && events[..i][k].Finalizes? && events[..i][k].round == round;
    FinalizedOnce(all, k, j);
  }

  lemma BetweenHarmless(p: Params, events: seq<Event>, i: nat, j: nat, round: nat, es: seq<Entry>, ch: Chance)
    requires Answers(p.slots) && EndsAt(p, events, round, ch) && Hears(p, events, i, round, es) && i < j < |events|
    ensures Harmless(events[j], round)
  {
    ClockBelow(p, events, j, round, ch);
    if events[j].Finalizes? { FinalizesOther(p, events, i, j, round, es, ch); }
  }

  lemma {:induction false} StillPromised(p: Params, events: seq<Event>, i: nat, j: nat, round: nat, es: seq<Entry>, ch: Chance)
    requires Answers(p.slots) && EndsAt(p, events, round, ch) && Hears(p, events, i, round, es) && i < j <= |events|
    ensures Promised(p, ClientAfter(p, events[..j]), round, es, Mine(ClientAfter(p, events[..i]), round))
    decreases j
  {
    if j == i + 1 {
      EndsClock(p, events, round, ch);
      HeardPromises(p, events, i, round, es);
    } else {
      var k: nat := j - 1;
      StillPromised(p, events, i, k, round, es, ch);
      BetweenHarmless(p, events, i, k, round, es, ch);
      AfterStep(p, events, k);
      StepKeepsPromise(p, ClientAfter(p, events[..k]), events[k], round, es, Mine(ClientAfter(p, events[..i]), round));
    }
  }

  /**
   * Over every run on the driver's clock that finalizes each round at most once: a client
   * that finalized a round and then heard its list submits `GAP` rounds later exactly the
   * vector of what it had reserved, whatever else it staged, heard and finalized meanwhile.
   */
  lemma RunDelivers(p: Params, events: seq<Event>, i: nat, round: nat, es: seq<Entry>, ch: Chance)
    requires Answers(p.slots) && EndsAt(p, events, round, ch) && Hears(p, events, i, round, es)
    ensures Finalize(p, ClientAfter(p, events), round + GAP, true, ch).1.vector
         == Vector(p, es, Mine(ClientAfter(p, events[..i]), round), round + GAP)
  {
    StillPromised(p, events, i, |events|, round, es, ch);
    assert events[..|events|] == events;
    PromiseDelivered(p, ClientAfter(p, events), round, es, Mine(ClientAfter(p, events[..i]), round), ch);
  }

  // ---------------------------------------------------------------- all clients together

  /** One client's run up to the round of delivery, and where in it the list was heard. */
  datatype Session = Session(events: seq<Event>, heard: nat, ch: Chance)

  ghost predicate Delivers(p: Params, s: Session, round: nat, es: seq<Entry>)
    requires Answers(p.slots)
  {
    EndsAt(p, s.events, round, s.ch) && Hears(p, s.events, s.heard, round, es)
  }

  function Submitted(p: Params, s: Session, round: nat): Bytes
    requires Answers(p.slots)
  {
    Finalize(p, ClientAfter(p, s.events), round + GAP, true, s.ch).1.vector
  }

  function Reserved(p: Params, s: Session, round: nat): seq<Reservation>
    requires Answers(p.slots)
  {
    if s.heard <= |s.events| then Mine(ClientAfter(p, s.events[..s.heard]), round) else []
  }

  function AllSubmitted(p: Params, ss: seq<Session>, round: nat): seq<Bytes>
    requires Answers(p.slots)
  {
    seq(|ss|, k requires 0 <= k < |ss| => Submitted(p, ss[k], round))
  }

  function AllReserved(p: Params, ss: seq<Session>, round: nat): seq<seq<Reservation>>
    requires Answers(p.slots)
  {
    seq(|ss|, k requires 0 <= k < |ss| => Reserved(p, ss[k], round))
  }

  lemma SubmittedIs(p: Params, ss: seq<Session>, round: nat, es: seq<Entry>)
    requires Answers(p.slots) && forall k :: 0 <= k < |ss| ==> Delivers(p, ss[k], round, es)
    ensures AllSubmitted(p, ss, round) == Vectors(p, es, AllReserved(p, ss, round), round + GAP)
  {
    forall k | 0 <= k < |ss| ensures Submitted(p, ss[k], round) == Vector(p, es, Reserved(p, ss[k], round), round + GAP) {
      RunDelivers(p, ss[k].events, ss[k].heard, round, es, ss[k].ch);
    }
  }

  /**
   * Any number of clients, each in its own run: when the list one round published holds
   * every reservation they made in it, the sum of what they submit `GAP` rounds later
   * unpacks to exactly the payloads it granted that are not all zero, in list order.
   */
  lemma RunsDeliver(p: Params, ss: seq<Session>, round: nat, es: seq<Entry>, slot: (nat, nat) -> nat)
    requires Allocates(p.slots) && (forall k :: 0 <= k < |ss| ==> Delivers(p, ss[k], round, es))
    requires Lists(es, AllReserved(p, ss, round), slot)
    ensures var offs := p.slots.allocate(es, p.vectorBytes);
      |offs| == |es|
      && Unpack(es, offs, AllSubmitted(p, ss, round), |es|) == GrantedPayloads(es, offs, AllReserved(p, ss, round), |es|)
  {
    SubmittedIs(p, ss, round, es);
    ListedDelivers(p, es, AllReserved(p, ss, round), slot, round + GAP);
  }

  /** Listed or not, a client's payload comes out unharmed exactly when nobody else writes into its slot. */
  lemma RunsDeliverExactly(p: Params, ss: seq<Session>, round: nat, es: seq<Entry>, a: nat, i: nat)
    requires Allocates(p.slots) && (forall k :: 0 <= k < |ss| ==> Delivers(p, ss[k], round, es))
    requires Live(es, p.slots.allocate(es, p.vectorBytes), i) && a < |ss|
    requires Claim(es, AllReserved(p, ss, round)[a], i).Some?
    ensures var mine := AllReserved(p, ss, round);
      Cut(es, p.slots.allocate(es, p.vectorBytes), AllSubmitted(p, ss, round), i) == Claim(es, mine[a], i).value
      <==> Uncontested(es, mine, a, i)
  {
    SubmittedIs(p, ss, round, es);
    CutIsOwnExactly(p, es, AllReserved(p, ss, round), round + GAP, a, i);
  }
}
