/** Whole runs of a scheduled relay whose round clock never goes back. */
module RelayRuns {
  import opened Basics
  import opened Relays
  import ScheduledClients

  datatype Event =
    | Begins(round: nat)
    | Gets(m: Msg)
    | Hears(round: nat, list: List)
    | Ends(round: nat, answers: Answers)

  /** The relay with everything it has done so far, by round. */
  datatype Ledger = Ledger(w: Scheduled, emitted: set<nat>, decoded: set<nat>, unpacked: set<nat>, expired: set<nat>)

  const Opening: Ledger := Ledger(NewScheduled, {}, {}, {}, {})

  /** The driver's order: rounds begin in order, and only begun rounds end. */
  predicate InOrder(l: Ledger, e: Event) {
    match e
    case Begins(round) => round <= ScheduledClients.U64_MAX && (l.w.relay.cur.Some? ==> round >= l.w.relay.cur.value)
    case Ends(round, _) => l.w.relay.cur.Some? && round <= l.w.relay.cur.value
    case _ => true
  }

  function Step(c: Config, l: Ledger, e: Event): Ledger {
    match e
    case Begins(round) => l.(w := l.w.(relay := Begin(l.w.relay, round)))
    case Gets(m) => l.(w := l.w.(relay := Receive(l.w.relay, m)))
    case Hears(round, list) => l.(w := Reservations(l.w, round, list))
    case Ends(round, a) =>
      var (w, out) := End(c, l.w, round, a);
      Ledger(w, l.emitted + out.emitted, l.decoded + out.decoded, l.unpacked + out.unpacked.Keys, l.expired + out.expired)
  }

  function Run(c: Config, events: seq<Event>): Ledger {
    if events == [] then Opening else Step(c, Run(c, events[..|events| - 1]), events[|events| - 1])
  }

  predicate Ordered(c: Config, events: seq<Event>) {
    events == [] || (Ordered(c, events[..|events| - 1]) && InOrder(Run(c, events[..|events| - 1]), events[|events| - 1]))
  }

  // ---------------------------------------------------------------- collected rounds stay collected

  /** Below the window of the round clock: no message for such a round is accepted. */
  predicate Gone(s: State, r: nat) { s.cur.Some? && r + RETENTION < s.cur.value }

  predicate Clocked(s: State) { s.cur.Some? ==> s.cur.value <= ScheduledClients.U64_MAX }

  /** A round that was served keeps its mark while its bucket lives, and the bucket never comes back. */
  predicate Marked(s: State, r: nat) { if r in s.rounds then s.rounds[r].emitted else Gone(s, r) }

  predicate Closed(s: State, r: nat) { if r in s.rounds then s.rounds[r].decoded else Gone(s, r) }

  lemma ReceiveKeeps(s: State, m: Msg, r: nat)
    requires Clocked(s)
    ensures Marked(s, r) ==> Marked(Receive(s, m), r)
    ensures Closed(s, r) ==> Closed(Receive(s, m), r)
    ensures Gone(s, r) && r !in s.rounds ==> r !in Receive(s, m).rounds
  {
  }

  lemma EmitKeeps(c: Config, s: State, round: nat, share: nat -> Share, r: nat)
    ensures Marked(s, r) ==> Marked(Emit(c, s, round, share), r) && r !in EmittedNow(c, s, round, share)
    ensures Closed(s, r) ==> Closed(Emit(c, s, round, share), r)
    ensures r in EmittedNow(c, s, round, share) ==> Marked(Emit(c, s, round, share), r)
  {
  }

  lemma DecodeKeeps(s: State, recover: nat -> Option<Plain>, r: nat)
    ensures Marked(s, r) ==> Marked(Decode(s, recover), r)
    ensures Closed(s, r) ==> Closed(Decode(s, recover), r) && r !in DecodedNow(s, recover)
    ensures r in DecodedNow(s, recover) ==> Closed(Decode(s, recover), r)
  {
  }

  lemma CollectKeeps(s: State, round: nat, r: nat)
    requires s.cur.Some? && round <= s.cur.value
    ensures Marked(s, r) ==> Marked(Collect(s, round), r)
    ensures Closed(s, r) ==> Closed(Collect(s, round), r)
  {
  }

  lemma TurnKeeps(c: Config, s: State, round: nat, a: Answers, r: nat)
    requires s.cur.Some? && round <= s.cur.value
    ensures var sent := Emit(c, s, round, a.share);
      var t := Collect(Decode(sent, a.recover), round);
      (Marked(s, r) ==> Marked(t, r) && r !in EmittedNow(c, s, round, a.share))
      && (r in EmittedNow(c, s, round, a.share) ==> Marked(t, r))
      && (Closed(s, r) ==> Closed(t, r) && r !in DecodedNow(sent, a.recover))
      && (r in DecodedNow(sent, a.recover) ==> Closed(t, r))
  {
    var sent := Emit(c, s, round, a.share);
    EmitKeeps(c, s, round, a.share, r);
    DecodeKeeps(sent, a.recover, r);
    CollectKeeps(Decode(sent, a.recover), round, r);
  }

  // ---------------------------------------------------------------- the vectors' fate

  /** Each decoded round's vector is in exactly one place: unpacked, still waiting, or aged out. */
  predicate Accounted(l: Ledger) {
    l.decoded == l.unpacked + l.w.pending.Keys + l.expired
    && l.unpacked !! l.w.pending.Keys && l.unpacked !! l.expired && l.w.pending.Keys !! l.expired
  }

  lemma EndAccounts(c: Config, l: Ledger, round: nat, a: Answers)
    requires Accounted(l)
    requires DecodedNow(Emit(c, l.w.relay, round, a.share), a.recover) !! l.decoded
    ensures Accounted(Step(c, l, Ends(round, a)))
    ensures var (w, out) := End(c, l.w, round, a);
      out.unpacked.Keys !! l.unpacked && out.decoded !! l.decoded && out.expired !! l.expired
  {
    var sent := Emit(c, l.w.relay, round, a.share);
    var got := Recovered(DecodedNow(sent, a.recover), a.recover);
    assert got.Keys == DecodedNow(sent, a.recover);
    var (entries, waiting) := Gather(l.w, got, a.peel);
    assert waiting.Keys == l.w.pending.Keys + got.Keys;
    var left := WaitingIn(entries, waiting);
    var cutoff := SatSub(round, ENTRIES_RETENTION);
    FateSplits(entries, waiting, cutoff);
    Sums(l.decoded, l.unpacked, l.w.pending.Keys, l.expired, got.Keys,
         ReadyIn(entries, waiting).Keys, Since(left, cutoff).Keys, Before(left, cutoff));
  }

  lemma Sums(d: set<nat>, u: set<nat>, p: set<nat>, x: set<nat>, got: set<nat>, ready: set<nat>, kept: set<nat>, late: set<nat>)
    requires d == u + p + x && u !! p && u !! x && p !! x && got !! d
    requires p + got == ready + kept + late && ready !! kept && ready !! late && kept !! late
    ensures d + got == (u + ready) + kept + (x + late)
    ensures (u + ready) !! kept && (u + ready) !! (x + late) && kept !! (x + late)
    ensures ready !! u && got !! d && late !! x
  {
  }

  lemma FateSplits(entries: map<nat, List>, waiting: map<nat, Plain>, cutoff: nat)
    ensures var left := WaitingIn(entries, waiting);
      waiting.Keys == ReadyIn(entries, waiting).Keys + Since(left, cutoff).Keys + Before(left, cutoff)
      && ReadyIn(entries, waiting).Keys !! Since(left, cutoff).Keys
      && ReadyIn(entries, waiting).Keys !! Before(left, cutoff)
      && Since(left, cutoff).Keys !! Before(left, cutoff)
  {
  }

  ghost predicate Inv(l: Ledger) {
    && Clocked(l.w.relay)
    && (forall r :: r in l.emitted ==> Marked(l.w.relay, r))
    && (forall r :: r in l.decoded ==> Closed(l.w.relay, r))
    && Accounted(l)
  }

  lemma EndKeeps(c: Config, l: Ledger, round: nat, a: Answers)
    requires Inv(l) && InOrder(l, Ends(round, a))
    ensures Inv(Step(c, l, Ends(round, a)))
    ensures var (w, out) := End(c, l.w, round, a);
      out.emitted !! l.emitted && out.decoded !! l.decoded && out.unpacked.Keys !! l.unpacked
  {
    var s := l.w.relay;
    var sent := Emit(c, s, round, a.share);
    var t := Collect(Decode(sent, a.recover), round);
    var emitted, decoded := EmittedNow(c, s, round, a.share), DecodedNow(sent, a.recover);
    assert Recovered(decoded, a.recover).Keys == decoded;
    forall r: nat
      ensures r in l.emitted ==> Marked(t, r) && r !in emitted
      ensures r in emitted ==> Marked(t, r)
      ensures r in l.decoded ==> Closed(t, r) && r !in decoded
      ensures r in decoded ==> Closed(t, r)
    {
      TurnKeeps(c, s, round, a, r);
    }
    EndAccounts(c, l, round, a);
  }

  lemma StepKeeps(c: Config, l: Ledger, e: Event)
    requires Inv(l) && InOrder(l, e)
    ensures Inv(Step(c, l, e))
  {
    match e
    case Begins(round) =>
    case Gets(m) => forall r: nat { ReceiveKeeps(l.w.relay, m, r); }
    case Hears(round, list) =>
    case Ends(round, a) => EndKeeps(c, l, round, a);
  }

  lemma {:induction false} RunKeeps(c: Config, events: seq<Event>)
    requires Ordered(c, events)
    ensures Inv(Run(c, events))
  {
    if events != [] {
      RunKeeps(c, events[..|events| - 1]);
      StepKeeps(c, Run(c, events[..|events| - 1]), events[|events| - 1]);
    }
  }

  // ---------------------------------------------------------------- main results

  /**
   * A relay emits at most one share, decodes at most once and unpacks at most one
   * vector per round, however messages arrive and however often its buckets are
   * collected: a further round end serves only rounds not served before.
   */
  lemma AtMostOncePerRound(c: Config, events: seq<Event>, round: nat, a: Answers)
    requires Ordered(c, events + [Ends(round, a)])
    ensures var l := Run(c, events);
      var out := End(c, l.w, round, a).1;
      out.emitted !! l.emitted && out.decoded !! l.decoded && out.unpacked.Keys !! l.unpacked
  {
    var all := events + [Ends(round, a)];
    assert all[..|all| - 1] == events;
    RunKeeps(c, events);
    EndKeeps(c, Run(c, events), round, a);
  }

  /** Every decoded round's vector has been unpacked, or waits, or aged out waiting: exactly one of the three. */
  lemma ExactlyOneFate(c: Config, events: seq<Event>, r: nat)
    requires Ordered(c, events) && r in Run(c, events).decoded
    ensures var l := Run(c, events);
      (r in l.unpacked && r !in l.w.pending && r !in l.expired)
      || (r !in l.unpacked && r in l.w.pending && r !in l.expired)
      || (r !in l.unpacked && r !in l.w.pending && r in l.expired)
  {
    RunKeeps(c, events);
  }

  /**
   * At the end of a round a vector is unpacked exactly when it is at hand, kept or
   * decoded just now, and so is the list of two rounds before: whichever came first.
   */
  lemma UnpackedWhenBothArrived(c: Config, l: Ledger, round: nat, a: Answers, r: nat)
    ensures var (w, out) := End(c, l.w, round, a);
      var vector := r in l.w.pending || r in out.decoded;
      var list := r >= GAP && (r - GAP in l.w.entries || r - GAP in out.decoded);
      (r in out.unpacked <==> vector && list)
      && (r in out.expired ==> vector && !list)
      && (r in w.pending ==> vector && !list)
      && (r in out.unpacked ==>
            out.unpacked[r].0 == (if r in out.decoded then a.recover(r).value else l.w.pending[r])
            && out.unpacked[r].1 == (if r - GAP in out.decoded then a.peel(a.recover(r - GAP).value) else l.w.entries[r - GAP]))
  {
    var sent := Emit(c, l.w.relay, round, a.share);
    var got := Recovered(DecodedNow(sent, a.recover), a.recover);
    FateOf(l.w, got, a.peel, SatSub(round, ENTRIES_RETENTION), r);
    assert forall x :: x in got ==> got[x] == a.recover(x).value;
  }

  lemma FateOf(w: Scheduled, got: map<nat, Plain>, peel: Plain -> List, cutoff: nat, r: nat)
    ensures var (entries, waiting) := Gather(w, got, peel);
      var vector := r in w.pending || r in got;
      var list := r >= GAP && (r - GAP in w.entries || r - GAP in got);
      (r in ReadyIn(entries, waiting) <==> vector && list)
      && (r in WaitingIn(entries, waiting) <==> vector && !list)
      && (r in ReadyIn(entries, waiting) ==>
            ReadyIn(entries, waiting)[r].0 == (if r in got then got[r] else w.pending[r])
            && ReadyIn(entries, waiting)[r].1 == (if r - GAP in got then peel(got[r - GAP]) else w.entries[r - GAP]))
  {
  }

  // ---------------------------------------------------------------- a clock that goes back

  /**
   * A round this session emitted or decoded, and of which no bucket is left, opens again,
   * with an unserved bucket, if and only if the clock is set to a round whose window holds
   * it and it is not older than the session; that clock is behind the one that collected it.
   */
  lemma ReopenedExactly(c: Config, events: seq<Event>, m: Msg, now: nat)
    requires Ordered(c, events) && !m.ClientSet?
    requires var l := Run(c, events);
      (m.round in l.emitted || m.round in l.decoded) && m.round !in l.w.relay.rounds && l.w.relay.first.Some?
    ensures var s := Run(c, events).w.relay;
      var t := Receive(Begin(s, now), m);
      && Gone(s, m.round)
      && (m.round in t.rounds <==> ScheduledClients.InWindow(m.round, Some(now)) && s.first.value <= m.round)
      && (m.round in t.rounds ==> now < s.cur.value && !t.rounds[m.round].emitted && !t.rounds[m.round].decoded)
  {
    GoneFrom(c, events, m.round);
  }

  /** The clock is set and one client's post, opening and slice and its set arrive for round `r`. */
  function Serving(r: nat, now: nat, cid: Cid): seq<Event> {
    [Begins(now), Gets(Public(r, cid)), Gets(Msg.Opening(r, cid)), Gets(Slice(r, cid)), Gets(ClientSet(r, {cid}))]
  }

  function Served(s: State, r: nat, now: nat, cid: Cid): State {
    Receive(Receive(Receive(Receive(Begin(s, now), Public(r, cid)), Msg.Opening(r, cid)), Slice(r, cid)), ClientSet(r, {cid}))
  }

  lemma RunSnoc(c: Config, events: seq<Event>, e: Event, all: seq<Event>)
    requires all == events + [e]
    ensures Run(c, all) == Step(c, Run(c, events), e)
    ensures Ordered(c, all) <==> Ordered(c, events) && InOrder(Run(c, events), e)
  {
    assert all[..|all| - 1] == events;
  }

  /** The ledger after them. */
  function Serve(l: Ledger, r: nat, now: nat, cid: Cid): Ledger { l.(w := l.w.(relay := Served(l.w.relay, r, now, cid))) }

  lemma RunServing(c: Config, events: seq<Event>, all: seq<Event>, r: nat, now: nat, cid: Cid)
    requires all == events + Serving(r, now, cid)
    ensures Run(c, all) == Serve(Run(c, events), r, now, cid)
    ensures Ordered(c, all) <==> Ordered(c, events) && InOrder(Run(c, events), Begins(now))
  {
    var e1 := events + [Begins(now)];
    var e2 := e1 + [Gets(Public(r, cid))];
    var e3 := e2 + [Gets(Msg.Opening(r, cid))];
    var e4 := e3 + [Gets(Slice(r, cid))];
    RunSnoc(c, events, Begins(now), e1);
    RunSnoc(c, e1, Gets(Public(r, cid)), e2);
    RunSnoc(c, e2, Gets(Msg.Opening(r, cid)), e3);
    RunSnoc(c, e3, Gets(Slice(r, cid)), e4);
    RunSnoc(c, e4, Gets(ClientSet(r, {cid})), all);
  }

  /** A bucket with one client's post, opening and slice, not yet served. */
  function Full(cid: Cid): Bucket { Bucket({cid}, {cid}, {cid}, {}, false, false) }

  /** The session takes round `r` in when its clock is set to `now`. */
  predicate Opens(s: State, r: nat, now: nat) {
    && r !in s.rounds && r !in s.sets && ScheduledClients.InWindow(r, Some(now)) && r <= now
    && if s.first.Some? then s.first.value <= r else now == r
  }

  /** The messages are all filed, under a clock that stands at `now`. */
  predicate Stocked(t: State, r: nat, now: nat, cid: Cid) {
    && r in t.rounds && t.rounds[r] == Full(cid) && r in t.sets && t.sets[r] == {cid} && r <= now
    && t.cur == Some(now) && t.first.Some? && t.first.value <= r
  }

  lemma ServedIs(s: State, r: nat, now: nat, cid: Cid)
    requires Opens(s, r, now)
    ensures Stocked(Served(s, r, now, cid), r, now, cid)
  {
    assert {} + {cid} == {cid};
  }

  lemma FullEmits(c: Config, t: State, r: nat, now: nat, cid: Cid, share: nat -> Share)
    requires Stocked(t, r, now, cid) && share(r) == Ok
    ensures r in EmittedNow(c, t, now, share)
  {
    assert {cid} * {cid} == {cid};
    assert Canonical(c.selfDerived, t.sets, r, t.rounds[r]) == Some({cid});
    assert cid in {cid};
    assert EmitAt(c, t, r, now, share).1;
  }

  lemma EndEmits(c: Config, w: Scheduled, round: nat, a: Answers)
    ensures End(c, w, round, a).1.emitted == EmittedNow(c, w.relay, round, a.share)
    ensures End(c, w, round, a).0.relay.first == w.relay.first && End(c, w, round, a).0.relay.cur == w.relay.cur
  {
  }

  lemma StockedEmits(c: Config, l: Ledger, r: nat, now: nat, cid: Cid, a: Answers)
    requires Stocked(l.w.relay, r, now, cid) && a.share(r) == Ok
    ensures r in End(c, l.w, now, a).1.emitted
    ensures var t := Step(c, l, Ends(now, a));
      r in t.emitted && t.w.relay.first == l.w.relay.first && t.w.relay.cur == Some(now)
  {
    FullEmits(c, l.w.relay, r, now, cid, a.share);
    EndEmits(c, l.w, now, a);
  }

  /** A round with no bucket, within the window and the session, is served by such messages. */
  lemma ServedStocks(l: Ledger, r: nat, now: nat, cid: Cid)
    requires Opens(l.w.relay, r, now)
    ensures Stocked(Serve(l, r, now, cid).w.relay, r, now, cid)
  {
    ServedIs(l.w.relay, r, now, cid);
  }

  lemma GoneFrom(c: Config, events: seq<Event>, r: nat)
    requires Ordered(c, events) && r !in Run(c, events).w.relay.rounds
    requires r in Run(c, events).emitted || r in Run(c, events).decoded
    ensures Gone(Run(c, events).w.relay, r) && Clocked(Run(c, events).w.relay)
  {
    RunKeeps(c, events);
    var l := Run(c, events);
    assert r in l.emitted ==> Marked(l.w.relay, r);
    assert r in l.decoded ==> Closed(l.w.relay, r);
  }

  /** Any run that served `r` and collected it serves `r` again once the clock is back in its window. */
  lemma EmitsAgain(c: Config, events: seq<Event>, again: seq<Event>, r: nat, back: nat, cid: Cid, a: Answers)
    requires Ordered(c, events) && r in Run(c, events).emitted && a.share(r) == Ok
    requires Opens(Run(c, events).w.relay, r, back) && again == events + Serving(r, back, cid)
    ensures Gone(Run(c, events).w.relay, r) && back < Run(c, events).w.relay.cur.value
    ensures r in End(c, Run(c, again).w, back, a).1.emitted
  {
    GoneFrom(c, events, r);
    RunServing(c, events, again, r, back, cid);
    ServedStocks(Run(c, events), r, back, cid);
    StockedEmits(c, Run(c, again), r, back, cid, a);
  }

  /** Ending a round past the window of `r` collects what there is of `r`. */
  lemma LateEnds(c: Config, l: Ledger, r: nat, late: nat, a: Answers)
    requires r + RETENTION < late && l.w.relay.first.Some?
    ensures var t := Step(c, Step(c, l, Begins(late)), Ends(late, a));
      && l.emitted <= t.emitted && r !in t.w.relay.rounds && r !in t.w.relay.sets && t.w.relay.first == l.w.relay.first
  {
  }

  /** Serving a round that is new to the session, in order, and ending it. */
  lemma ServeAndEnd(c: Config, events: seq<Event>, served: seq<Event>, one: seq<Event>, r: nat, cid: Cid, a: Answers)
    requires Ordered(c, events) && InOrder(Run(c, events), Begins(r)) && Opens(Run(c, events).w.relay, r, r) && a.share(r) == Ok
    requires served == events + Serving(r, r, cid) && one == served + [Ends(r, a)]
    ensures Ordered(c, one) && r in End(c, Run(c, served).w, r, a).1.emitted
    ensures var l := Run(c, one); r in l.emitted && l.w.relay.first.Some? && l.w.relay.first.value <= r && l.w.relay.cur == Some(r)
  {
    RunServing(c, events, served, r, r, cid);
    ServedStocks(Run(c, events), r, r, cid);
    StockedEmits(c, Run(c, served), r, r, cid, a);
    RunSnoc(c, served, Ends(r, a), one);
  }

  lemma MoveOn(c: Config, one: seq<Event>, r: nat, late: nat, a: Answers) returns (gone: seq<Event>)
    requires Ordered(c, one) && r in Run(c, one).emitted && Run(c, one).w.relay.first.Some? && Run(c, one).w.relay.cur == Some(r)
    requires r + RETENTION < late <= ScheduledClients.U64_MAX
    ensures one <= gone && Ordered(c, gone) && r in Run(c, gone).emitted
    ensures var s := Run(c, gone).w.relay; r !in s.rounds && r !in s.sets && s.first == Run(c, one).w.relay.first
  {
    var begun := one + [Begins(late)];
    gone := begun + [Ends(late, a)];
    RunSnoc(c, one, Begins(late), begun);
    RunSnoc(c, begun, Ends(late, a), gone);
    LateEnds(c, Run(c, one), r, late, a);
  }

  /** Ending `now` after `events` emits round `r`. */
  ghost predicate Emits(c: Config, events: seq<Event>, now: nat, a: Answers, r: nat) {
    r in End(c, Run(c, events).w, now, a).1.emitted
  }

  /** An ordered run to which round `r` is new, and whose clock may come to it. */
  ghost predicate New(c: Config, events: seq<Event>, r: nat) {
    Ordered(c, events) && InOrder(Run(c, events), Begins(r)) && Opens(Run(c, events).w.relay, r, r)
  }

  /** An ordered run that emitted round `r`, of which nothing is left, and not before the session's first. */
  ghost predicate Past(c: Config, events: seq<Event>, r: nat) {
    var s := Run(c, events).w.relay;
    Ordered(c, events) && r in Run(c, events).emitted && r !in s.rounds && r !in s.sets && s.first.Some? && s.first.value <= r
  }

  lemma ServeFirst(c: Config, events: seq<Event>, served: seq<Event>, r: nat, late: nat, cid: Cid, a: Answers) returns (gone: seq<Event>)
    requires New(c, events, r) && served == events + Serving(r, r, cid) && a.share(r) == Ok
    requires r + RETENTION < late <= ScheduledClients.U64_MAX
    ensures Emits(c, served, r, a, r) && served + [Ends(r, a)] <= gone && Past(c, gone, r)
  {
    var one := served + [Ends(r, a)];
    ServeAndEnd(c, events, served, one, r, cid, a);
    gone := MoveOn(c, one, r, late, a);
  }

  lemma ServeAgain(c: Config, gone: seq<Event>, again: seq<Event>, r: nat, back: nat, cid: Cid, a: Answers)
    requires Past(c, gone, r) && again == gone + Serving(r, back, cid) && a.share(r) == Ok
    requires r <= back <= r + RETENTION && r + RETENTION < ScheduledClients.U64_MAX
    ensures Emits(c, again, back, a, r)
  {
    EmitsAgain(c, gone, again, r, back, cid, a);
  }

  /**
   * One round emitted twice, for every configuration, after every ordered run to which
   * round `r` is new, and for every pair of clocks: `r` is served and ended, a clock past
   * its window collects it, and a clock back in its window serves and emits it once
   * more. So `AtMostOncePerRound` does need the order of rounds.
   */
  lemma EmitsTwice(c: Config, events: seq<Event>, r: nat, late: nat, back: nat, cid: Cid, a: Answers) returns (gone: seq<Event>)
    requires New(c, events, r) && a.share(r) == Ok
    requires r + RETENTION < late <= ScheduledClients.U64_MAX && r <= back <= r + RETENTION
    ensures Emits(c, events + Serving(r, r, cid), r, a, r)
    ensures events + Serving(r, r, cid) + [Ends(r, a)] <= gone && Ordered(c, gone)
    ensures Emits(c, gone + Serving(r, back, cid), back, a, r)
  {
    gone := ServeFirst(c, events, events + Serving(r, r, cid), r, late, cid, a);
    ServeAgain(c, gone, gone + Serving(r, back, cid), r, back, cid, a);
  }

  /** A new session is such a run, for every round its clock can show. */
  lemma NewSessionOpens(c: Config, r: nat)
    requires r <= ScheduledClients.U64_MAX
    ensures New(c, [], r)
  {
  }
}
