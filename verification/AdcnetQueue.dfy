/**
 * The two-round ADCNet client: a payload waits, bids in one round while the previous
 * bidder's payload is carried, and is carried in the next if its bid won.
 *
 * The auction's verdict, the cover coin and the upstream messager's success are
 * parameters; signatures on broadcasts are verdicts handed in.
 */
module AdcnetQueue {
  import opened Basics

  datatype Item = Item(payload: Bytes, bid: nat)

  datatype Flight = Flight(item: Item, round: nat)

  datatype Broadcast = Broadcast(round: int, content: Bytes)

  datatype Params = Params(minSize: nat, capacity: nat)

  datatype Client = Client(
    pending: seq<Item>,
    inflight: Option<Flight>,
    previous: Broadcast,
    current: nat,
    submitted: Option<nat>)

  function New(initial: Broadcast, start: nat): Client { Client([], None, initial, start, None) }

  /** What a submission carried: the payload released to the round if its bid had won. */
  datatype Submission = Submission(round: nat, carried: Option<Item>)

  // ---------------------------------------------------------------- the steps

  function Padded(payload: Bytes, size: nat): Bytes
    decreases SatSub(size, |payload|)
  {
    if |payload| >= size then payload else Padded(payload + [0], size)
  }

  function Schedule(p: Params, c: Client, payload: Bytes, bid: nat): Client {
    if Max(|payload|, p.minSize) > p.capacity then c
    else c.(pending := c.pending + [Item(Padded(payload, p.minSize), bid)])
  }

  function Advance(c: Client, round: nat): Client {
    if round < c.current || round < 1 then c else c.(current := round)
  }

  /** A broadcast from the leader, not older than the last, not from the future, and not contradicting it. */
  function Hear(c: Client, b: Broadcast, fromLeader: bool): Client {
    if !fromLeader || b.round < c.previous.round || b.round > c.current then c
    else if b.round == c.previous.round && b != c.previous then c
    else c.(previous := b)
  }

  predicate MaySubmit(c: Client) { c.previous.round == c.current - 1 && c.submitted != Some(c.current) }

  /** A payload left over from an older round waits again, first in line. */
  function Recalled(c: Client): Client {
    if c.inflight.Some? && c.inflight.value.round != c.current - 1
    then c.(pending := [c.inflight.value.item] + c.pending, inflight := None)
    else c
  }

  function Returned(c: Client, won: bool): seq<Item> {
    if c.inflight.Some? && !won then [c.inflight.value.item] else []
  }

  function Submit(c: Client, cover: bool, prepared: bool, won: bool): (Client, Option<Submission>) {
    if !MaySubmit(c) then (c, None)
    else
      var r := Recalled(c);
      if r.pending == [] && r.inflight.None? && !cover then (r, None)
      else if !prepared then (r, None)
      else
        var rest := if r.pending == [] then [] else r.pending[1..];
        var next := if r.pending == [] then None else Some(Flight(r.pending[0], r.current));
        (r.(pending := rest + Returned(r, won), inflight := next, submitted := Some(r.current)),
         Some(Submission(r.current, if r.inflight.Some? && won then Some(r.inflight.value.item) else None)))
  }

  /** Everything still owed, the payload in flight first. */
  function Owed(c: Client): seq<Item> {
    (if c.inflight.Some? then [c.inflight.value.item] else []) + c.pending
  }

  // ---------------------------------------------------------------- the session, in place

  class AdcnetClient {
    const params: Params
    var pending: seq<Item>
    var inflight: Option<Flight>
    var previous: Broadcast
    var current: nat
    var submitted: Option<nat>

    ghost function View(): Client reads this { Client(pending, inflight, previous, current, submitted) }

    constructor (p: Params, initial: Broadcast, start: nat)
      ensures params == p && View() == New(initial, start)
    {
      params, pending, inflight, previous, current, submitted := p, [], None, initial, start, None;
    }

    method ScheduleMessage(payload: Bytes, bid: nat) returns (ok: bool)
      modifies this`pending
      ensures View() == Schedule(params, old(View()), payload, bid)
      ensures ok <==> Max(|payload|, params.minSize) <= params.capacity
    {
      if Max(|payload|, params.minSize) > params.capacity {
        return false;
      }
      var padded := payload;
      while |padded| < params.minSize
        invariant Padded(padded, params.minSize) == Padded(payload, params.minSize)
      {
        padded := padded + [0];
      }
      pending := pending + [Item(padded, bid)];
      return true;
    }

    method AdvanceToRound(round: nat) returns (ok: bool)
      modifies this`current
      ensures View() == Advance(old(View()), round)
      ensures ok <==> round >= old(current) && round >= 1
    {
      if round < current || round < 1 {
        return false;
      }
      current := round;
      return true;
    }

    method ProcessBroadcast(b: Broadcast, fromLeader: bool)
      modifies this`previous
      ensures View() == Hear(old(View()), b, fromLeader)
    {
      if !fromLeader || b.round < previous.round || b.round > current {
        return;
      }
      if b.round == previous.round && b != previous {
        return;
      }
      previous := b;
    }

    method MessagesForCurrentRound(cover: bool, prepared: bool, won: bool) returns (out: Option<Submission>)
      modifies this`pending, this`inflight, this`submitted
      ensures (View(), out) == Submit(old(View()), cover, prepared, won)
    {
      if previous.round != current - 1 || submitted == Some(current) {
        return None;
      }
      if inflight.Some? && inflight.value.round != current - 1 {
        pending := [inflight.value.item] + pending;
        inflight := None;
      }
      if (pending == [] && inflight.None? && !cover) || !prepared {
        return None;
      }
      var carried := if inflight.Some? && won then Some(inflight.value.item) else None;
      ghost var r := Recalled(old(View()));
      assert pending == r.pending && inflight == r.inflight;
      var next: Option<Item> := None;
      if pending != [] {
        next := Some(pending[0]);
        pending := pending[1..];
      }
      if inflight.Some? {
        if !won {
          pending := pending + [inflight.value.item];
        }
        inflight := None;
      }
      inflight := if next.Some? then Some(Flight(next.value, current)) else None;
      submitted := Some(current);
      assert pending == (if r.pending == [] then [] else r.pending[1..]) + Returned(r, won);
      return Some(Submission(current, carried));
    }

    method TakePendingMessages() returns (out: seq<Bytes>)
      modifies this`pending, this`inflight
      ensures |out| == |Owed(old(View()))| && forall i :: 0 <= i < |out| ==> out[i] == Owed(old(View()))[i].payload
      ensures Owed(View()) == []
    {
      if inflight.Some? {
        pending := [inflight.value.item] + pending;
        inflight := None;
      }
      var items := pending;
      pending := [];
      out := seq(|items|, i requires 0 <= i < |items| => items[i].payload);
    }
  }

  // ---------------------------------------------------------------- conservation

  /** How often an item occurs. */
  function Count(s: seq<Item>, x: Item): nat {
    if s == [] then 0 else Count(s[1..], x) + (if s[0] == x then 1 else 0)
  }

  lemma {:induction false} CountConcat(a: seq<Item>, b: seq<Item>, x: Item)
    ensures Count(a + b, x) == Count(a, x) + Count(b, x)
  {
    if a == [] {
      assert a + b == b;
    } else {
      CountConcat(a[1..], b, x);
      assert (a + b)[1..] == a[1..] + b;
    }
  }

  function Released(out: Option<Submission>): seq<Item> {
    if out.Some? && out.value.carried.Some? then [out.value.carried.value] else []
  }

  lemma RecallKeeps(c: Client, x: Item)
    ensures Count(Owed(Recalled(c)), x) == Count(Owed(c), x)
  {
    var r := Recalled(c);
    assert Owed(r) == Owed(c);
  }

  lemma OwedParts(c: Client, x: Item)
    ensures Count(Owed(c), x) == (if c.inflight.Some? && c.inflight.value.item == x then 1 else 0) + Count(c.pending, x)
  {
    if c.inflight.Some? {
      assert Owed(c)[1..] == c.pending;
    } else {
      assert Owed(c) == c.pending;
    }
  }

  lemma One(i: Item, x: Item)
    ensures Count([i], x) == if i == x then 1 else 0
  {
    assert |[i][1..]| == 0;
  }

  /** A submission moves every payload: to the front, to the back, into flight, or out. */
  lemma SubmitKeeps(c: Client, cover: bool, prepared: bool, won: bool, x: Item)
    ensures var (t, out) := Submit(c, cover, prepared, won);
      Count(Owed(c), x) == Count(Owed(t), x) + Count(Released(out), x)
  {
    var (t, out) := Submit(c, cover, prepared, won);
    RecallKeeps(c, x);
    if out.Some? {
      var r := Recalled(c);
      OwedParts(r, x);
      OwedParts(t, x);
      var rest := if r.pending == [] then [] else r.pending[1..];
      CountConcat(rest, Returned(r, won), x);
      if r.inflight.Some? { One(r.inflight.value.item, x); }
    }
  }

  // ---------------------------------------------------------------- runs

  datatype Event =
    | Schedules(payload: Bytes, bid: nat)
    | Advances(round: nat)
    | Hears(b: Broadcast, fromLeader: bool)
    | Submits(cover: bool, prepared: bool, won: bool)

  datatype Ledger = Ledger(client: Client, admitted: seq<Item>, released: seq<Item>, rounds: seq<nat>)

  function Step(p: Params, l: Ledger, e: Event): Ledger {
    match e
    case Schedules(payload, bid) =>
      var t := Schedule(p, l.client, payload, bid);
      l.(client := t,
         admitted := if Max(|payload|, p.minSize) > p.capacity then l.admitted else l.admitted + [Item(Padded(payload, p.minSize), bid)])
    case Advances(round) => l.(client := Advance(l.client, round))
    case Hears(b, fromLeader) => l.(client := Hear(l.client, b, fromLeader))
    case Submits(cover, prepared, won) =>
      var (t, out) := Submit(l.client, cover, prepared, won);
      Ledger(t, l.admitted, l.released + Released(out), if out.Some? then l.rounds + [out.value.round] else l.rounds)
  }

  function Run(p: Params, start: Client, events: seq<Event>): Ledger {
    if events == [] then Ledger(start, [], [], [])
    else Step(p, Run(p, start, events[..|events| - 1]), events[|events| - 1])
  }

  ghost predicate RoundsOk(l: Ledger) {
    Ascending(l.rounds)
    && (l.rounds == [] <==> l.client.submitted.None?)
    && (l.rounds != [] ==> l.client.submitted == Some(l.rounds[|l.rounds| - 1]) && l.rounds[|l.rounds| - 1] <= l.client.current)
  }

  lemma RoundsKeep(p: Params, l: Ledger, e: Event)
    requires RoundsOk(l)
    ensures RoundsOk(Step(p, l, e))
  {
    if e.Submits? {
      var (t, out) := Submit(l.client, e.cover, e.prepared, e.won);
      assert t.current == l.client.current && (out.None? ==> t.submitted == l.client.submitted);
    }
  }

  lemma ScheduleKeeps(p: Params, c: Client, payload: Bytes, bid: nat, x: Item)
    ensures Count(Owed(Schedule(p, c, payload, bid)), x)
      == Count(Owed(c), x) + (if Max(|payload|, p.minSize) <= p.capacity && Item(Padded(payload, p.minSize), bid) == x then 1 else 0)
  {
    var item := Item(Padded(payload, p.minSize), bid);
    CountConcat(c.pending, [item], x);
    One(item, x);
    OwedParts(c, x);
    OwedParts(Schedule(p, c, payload, bid), x);
  }

  predicate Conserved(l: Ledger, x: Item) { Count(l.admitted, x) == Count(l.released, x) + Count(Owed(l.client), x) }

  lemma StepKeeps(p: Params, l: Ledger, e: Event, x: Item)
    requires Conserved(l, x)
    ensures Conserved(Step(p, l, e), x)
  {
    match e
    case Schedules(payload, bid) =>
      ScheduleKeeps(p, l.client, payload, bid, x);
      CountConcat(l.admitted, [Item(Padded(payload, p.minSize), bid)], x);
      One(Item(Padded(payload, p.minSize), bid), x);
    case Advances(round) => assert Owed(Advance(l.client, round)) == Owed(l.client);
    case Hears(b, fromLeader) => assert Owed(Hear(l.client, b, fromLeader)) == Owed(l.client);
    case Submits(cover, prepared, won) =>
      SubmitKeeps(l.client, cover, prepared, won, x);
      CountConcat(l.released, Released(Submit(l.client, cover, prepared, won).1), x);
  }

  /**
   * Over every run: each payload is admitted as often as it is released or still owed,
   * and submissions name strictly rising rounds, so no round is submitted to twice.
   */
  lemma {:induction false} QueueConserves(p: Params, initial: Broadcast, start: nat, events: seq<Event>, x: Item)
    ensures var l := Run(p, New(initial, start), events);
      Count(l.admitted, x) == Count(l.released, x) + Count(Owed(l.client), x)
      && RoundsOk(l)
  {
    if events != [] {
      QueueConserves(p, initial, start, events[..|events| - 1], x);
      StepKeeps(p, Run(p, New(initial, start), events[..|events| - 1]), events[|events| - 1], x);
      RoundsKeep(p, Run(p, New(initial, start), events[..|events| - 1]), events[|events| - 1]);
    }
  }

  /** A payload is released only by winning, and only in the round right after the one it bid in. */
  lemma ReleasedOnlyWhenWon(c: Client, cover: bool, prepared: bool, won: bool)
    ensures var (t, out) := Submit(c, cover, prepared, won);
      Released(out) != [] <==>
        won && prepared && MaySubmit(c) && c.inflight.Some? && c.inflight.value.round == c.current - 1
    ensures var (t, out) := Submit(c, cover, prepared, won);
      Released(out) != [] ==> Released(out) == [c.inflight.value.item] && out.value.round == c.inflight.value.round + 1
  {
  }

  /** What is in flight was bid in the latest submission. */
  lemma {:induction false} FlightIsLatest(p: Params, initial: Broadcast, start: nat, events: seq<Event>)
    ensures var l := Run(p, New(initial, start), events);
      l.client.inflight.Some? ==> l.rounds != [] && l.rounds[|l.rounds| - 1] == l.client.inflight.value.round
  {
    if events != [] {
      var init, e := events[..|events| - 1], events[|events| - 1];
      FlightIsLatest(p, initial, start, init);
      FlightStep(p, Run(p, New(initial, start), init), e);
    }
  }

  predicate Latest(l: Ledger) {
    l.client.inflight.Some? ==> l.rounds != [] && l.rounds[|l.rounds| - 1] == l.client.inflight.value.round
  }

  lemma FlightStep(p: Params, l: Ledger, e: Event)
    requires Latest(l)
    ensures Latest(Step(p, l, e))
  {
  }

  /**
   * In every run a submission releases a payload if and only if it is made, the bid won, and
   * the payload was bid in the run's latest submission, in the round just before.
   */
  lemma ReleasedAfterBid(p: Params, initial: Broadcast, start: nat, events: seq<Event>, cover: bool, prepared: bool, won: bool)
    ensures var l := Run(p, New(initial, start), events);
      var (t, out) := Submit(l.client, cover, prepared, won);
      (Released(out) != [] <==>
         won && out.Some? && l.client.inflight.Some? && l.rounds != [] && l.rounds[|l.rounds| - 1] + 1 == out.value.round)
      && (Released(out) != [] ==> Released(out) == [l.client.inflight.value.item])
  {
    FlightIsLatest(p, initial, start, events);
    ReleasedOnlyWhenWon(Run(p, New(initial, start), events).client, cover, prepared, won);
  }
}
