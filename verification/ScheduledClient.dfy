/**
 * The scheduled client: a payload is staged, reserves a slot in round R under a
 * random tag, is granted an offset by the public list, and is written into the
 * message vector of round R+2.  What cannot be placed is deferred and tried again.
 *
 * Random draws and coin flips are parameters.  The slot allocator is a function
 * value; conservation holds whatever it answers.
 */
module ScheduledClients {
  import opened Basics

  const GAP: nat := 2
  const RETENTION: nat := 4
  const WINDOW: nat := 4
  const ENTRIES_RETENTION: nat := 6
  const U16_MAX: nat := 65535
  const U64_MAX: nat := 0xFFFF_FFFF_FFFF_FFFF

  type Tag = nat

  datatype Entry = Entry(tag: Tag, size: nat)

  datatype Reservation = Reservation(tag: Tag, data: Bytes)

  datatype Grant = Grant(target: nat, offset: nat, data: Bytes)

  /** Slot offsets index-aligned with the entries, under a byte capacity; and the bytes of one polynomial. */
  datatype Slots = Slots(allocate: (seq<Entry>, nat) -> seq<Option<nat>>, bytesPerPoly: nat)

  ghost predicate Answers(z: Slots) {
    z.bytesPerPoly > 0 && forall es: seq<Entry>, cap: nat :: |z.allocate(es, cap)| == |es|
  }

  datatype Params = Params(slots: Slots, vectorBytes: nat)

  datatype Client = Client(
    staged: seq<Bytes>,
    deferred: seq<Bytes>,
    reserved: map<nat, seq<Reservation>>,
    granted: seq<Grant>,
    entries: map<nat, seq<Entry>>,
    cur: Option<nat>)

  const NewClient: Client := Client([], [], map[], [], map[], None)

  // ---------------------------------------------------------------- allocation

  /** One past the last byte any granted slot uses. */
  function Used(es: seq<Entry>, offs: seq<Option<nat>>): nat
    requires |offs| == |es|
  {
    if es == [] then 0
    else
      var n := |es| - 1;
      Max(Used(es[..n], offs[..n]), if offs[n].Some? then offs[n].value + es[n].size else 0)
  }

  function VectorPolys(p: Params, es: seq<Entry>): nat
    requires Answers(p.slots)
  {
    DivCeil(Used(es, p.slots.allocate(es, p.vectorBytes)), p.slots.bytesPerPoly)
  }

  /** The message vector's bytes in a round whose reservations were `es`. */
  function VectorBytes(p: Params, es: seq<Entry>): nat
    requires Answers(p.slots)
  {
    VectorPolys(p, es) * p.slots.bytesPerPoly
  }

  /** The width in `round`: from the list of the round `GAP` before, if there is one. */
  function Width(p: Params, entries: map<nat, seq<Entry>>, round: nat): nat
    requires Answers(p.slots)
  {
    if round >= GAP && round - GAP in entries then VectorBytes(p, entries[round - GAP]) else 0
  }

  // ---------------------------------------------------------------- the steps

  function Stage(p: Params, c: Client, payload: Bytes): Client {
    if |payload| > Min(p.vectorBytes, U16_MAX) then c else c.(staged := c.staged + [payload])
  }

  function Payloads(rs: seq<Reservation>): seq<Bytes> {
    seq(|rs|, i requires 0 <= i < |rs| => rs[i].data)
  }

  function Real(ps: seq<Bytes>): seq<Bytes> {
    if ps == [] then []
    else Real(ps[..|ps| - 1]) + (if ps[|ps| - 1] == [] then [] else [ps[|ps| - 1]])
  }

  /** The payloads reserved under the listed rounds, in that order. */
  function Flat(reserved: map<nat, seq<Reservation>>, rounds: seq<nat>): seq<Bytes> {
    if rounds == [] then []
    else Flat(reserved, rounds[..|rounds| - 1]) + PayloadsAt(reserved, rounds[|rounds| - 1])
  }

  function PayloadsAt(reserved: map<nat, seq<Reservation>>, round: nat): seq<Bytes> {
    if round in reserved then Payloads(reserved[round]) else []
  }

  lemma MembersAppend(s: seq<nat>, x: nat)
    ensures Members(s + [x]) == Members(s) + {x}
  {
  }

  function StaleRounds(reserved: map<nat, seq<Reservation>>, cutoff: nat): set<nat> {
    set r | r in reserved && r < cutoff
  }

  /** A reservation whose grant never arrived goes back for a fresh attempt. */
  function Advance(c: Client, round: nat): Client {
    var stale := StaleRounds(c.reserved, SatSub(round, RETENTION));
    c.(cur := Some(round),
       entries := map r | r in c.entries && r >= SatSub(round, ENTRIES_RETENTION) :: c.entries[r],
       reserved := c.reserved - stale,
       deferred := c.deferred + Real(Flat(c.reserved, Sorted(stale))))
  }

  predicate InWindow(round: nat, cur: Option<nat>) {
    cur.Some? ==> round <= Min(cur.value + WINDOW, U64_MAX) && Min(round + WINDOW, U64_MAX) >= cur.value
  }

  /** The first entry carrying this reservation's tag and size. */
  function Position(es: seq<Entry>, r: Reservation): Option<nat> {
    if es == [] then None
    else if es[0] == Entry(r.tag, |r.data|) then Some(0)
    else
      var rest := Position(es[1..], r);
      if rest.None? then None else Some(rest.value + 1)
  }

  function Placing(es: seq<Entry>, offs: seq<Option<nat>>, r: Reservation): Option<nat>
    requires |offs| == |es|
  {
    var i := Position(es, r);
    if i.Some? && i.value < |offs| then offs[i.value] else None
  }

  /** Grants for the reservations that were placed, and the rest of the payloads. */
  function Settle(es: seq<Entry>, offs: seq<Option<nat>>, target: nat, mine: seq<Reservation>): (seq<Grant>, seq<Bytes>)
    requires |offs| == |es|
  {
    if mine == [] then ([], [])
    else
      var (grants, back) := Settle(es, offs, target, mine[..|mine| - 1]);
      var r := mine[|mine| - 1];
      var at := Placing(es, offs, r);
      if at.Some? then (grants + [Grant(target, at.value, r.data)], back)
      else (grants, back + (if r.data == [] then [] else [r.data]))
  }

  function Accept(p: Params, c: Client, round: nat, es: seq<Entry>, signed: bool): Client
    requires Answers(p.slots)
  {
    if !signed || !InWindow(round, c.cur) then c
    else
      var noted := c.(entries := if round in c.entries then c.entries else c.entries[round := es]);
      if round !in c.reserved then noted
      else
        var (grants, back) := Settle(es, p.slots.allocate(es, p.vectorBytes), round + GAP, c.reserved[round]);
        noted.(reserved := c.reserved - {round}, granted := c.granted + grants, deferred := c.deferred + back)
  }

  /** Bytes `start..end` of the vector overwritten, clipped to its width. */
  function Write(buf: Bytes, offset: nat, data: Bytes): (r: Bytes)
    ensures |r| == |buf|
    ensures forall i :: 0 <= i < |buf| ==> r[i] == if offset <= i < offset + |data| then data[i - offset] else buf[i]
  {
    seq(|buf|, i requires 0 <= i < |buf| => if offset <= i < offset + |data| then data[i - offset] else buf[i])
  }

  datatype Placement = Placement(buf: Bytes, delivered: seq<Bytes>, missed: seq<Bytes>, remaining: seq<Grant>)

  /** Grants due now are written, those overdue are missed, the others remain. */
  function Place(granted: seq<Grant>, round: nat, width: nat): (pl: Placement)
    ensures |pl.buf| == width
  {
    if granted == [] then Placement(seq(width, i => 0), [], [], [])
    else
      var pl := Place(granted[..|granted| - 1], round, width);
      var g := granted[|granted| - 1];
      if g.target == round then pl.(buf := Write(pl.buf, g.offset, g.data), delivered := pl.delivered + [g.data])
      else if g.target < round then pl.(missed := pl.missed + [g.data])
      else pl.(remaining := pl.remaining + [g])
  }

  /** The coin-flip drain: heads are staged again, tails wait. */
  function Drain(deferred: seq<Bytes>, flips: nat -> bool): (seq<Bytes>, seq<Bytes>) {
    if deferred == [] then ([], [])
    else
      var n := |deferred| - 1;
      var (staged, kept) := Drain(deferred[..n], flips);
      if flips(n) then (staged + [deferred[n]], kept) else (staged, kept + [deferred[n]])
  }

  function Tagged(staged: seq<Bytes>, draw: nat -> Tag): seq<Reservation> {
    seq(|staged|, i requires 0 <= i < |staged| => Reservation(draw(i), staged[i]))
  }

  datatype Chance = Chance(flips: nat -> bool, cover: bool, draw: nat -> Tag)

  datatype Submission = Submission(vector: Bytes, reservations: seq<Reservation>, delivered: seq<Bytes>)

  /** What is staged by the time reservations are made. */
  function ToReserve(c: Client, missed: seq<Bytes>, ch: Chance): seq<Bytes> {
    var out := c.staged + Drain(c.deferred + missed, ch.flips).0;
    if out == [] && ch.cover then [[]] else out
  }

  function Finalize(p: Params, c: Client, round: nat, complete: bool, ch: Chance): (Client, Submission)
    requires Answers(p.slots)
  {
    if !complete then (c, Submission([], [], []))
    else
      var pl := Place(c.granted, round, Width(p, c.entries, round));
      var rs := Tagged(ToReserve(c, pl.missed, ch), ch.draw);
      (c.(staged := [],
          deferred := Drain(c.deferred + pl.missed, ch.flips).1,
          reserved := if rs == [] then c.reserved else c.reserved[round := rs],
          granted := pl.remaining),
       Submission(pl.buf, rs, pl.delivered))
  }

  function GrantData(gs: seq<Grant>): seq<Bytes> { seq(|gs|, i requires 0 <= i < |gs| => gs[i].data) }

  /** Every payload held, oldest first, cover left out. */
  function Pending(c: Client): seq<Bytes> {
    Real(GrantData(c.granted) + Flat(c.reserved, Sorted(c.reserved.Keys)) + c.deferred + c.staged)
  }

  // ---------------------------------------------------------------- the session, in place

  class ScheduledClient {
    const params: Params
    var staged: seq<Bytes>
    var deferred: seq<Bytes>
    var reserved: map<nat, seq<Reservation>>
    var granted: seq<Grant>
    var entries: map<nat, seq<Entry>>
    var cur: Option<nat>

    ghost function View(): Client reads this { Client(staged, deferred, reserved, granted, entries, cur) }

    constructor (p: Params)
      ensures params == p && View() == NewClient
    {
      params := p;
      staged, deferred, reserved, granted, entries, cur := [], [], map[], [], map[], None;
    }

    method ReserveMessage(payload: Bytes) returns (ok: bool)
      modifies this`staged
      ensures View() == Stage(params, old(View()), payload)
      ensures ok <==> |payload| <= Min(params.vectorBytes, U16_MAX)
    {
      if |payload| > Min(params.vectorBytes, U16_MAX) {
        return false;
      }
      staged := staged + [payload];
      return true;
    }

    method AdvanceRound(round: nat)
      modifies this`cur, this`entries, this`reserved, this`deferred
      ensures View() == Advance(old(View()), round)
    {
      cur := Some(round);
      entries := map r | r in entries && r >= SatSub(round, ENTRIES_RETENTION) :: entries[r];
      var stale := Sorted(StaleRounds(reserved, SatSub(round, RETENTION)));
      assert Members(stale) == StaleRounds(reserved, SatSub(round, RETENTION));
      ReleaseAll(stale);
    }

    method ReleaseAll(rounds: seq<nat>)
      requires Ascending(rounds) && Members(rounds) <= reserved.Keys
      modifies this`reserved, this`deferred
      ensures reserved == old(reserved) - Members(rounds)
      ensures deferred == old(deferred) + Real(Flat(old(reserved), rounds))
    {
      ghost var all, before := reserved, deferred;
      var i := 0;
      while i < |rounds|
        invariant i <= |rounds|
        invariant Releasing(all, before, rounds, i, reserved, deferred)
      {
        ReleaseNext(all, before, rounds, i, reserved, deferred);
        Release(rounds[i]);
        i := i + 1;
      }
      assert rounds[..|rounds|] == rounds;
    }

    method Release(round: nat)
      requires round in reserved
      modifies this`reserved, this`deferred
      ensures reserved == old(reserved) - {round}
      ensures deferred == old(deferred) + Real(PayloadsAt(old(reserved), round))
    {
      var back := RealOf(reserved[round]);
      reserved := reserved - {round};
      deferred := deferred + back;
    }

    method RealOf(rs: seq<Reservation>) returns (back: seq<Bytes>)
      ensures back == Real(Payloads(rs))
    {
      back := [];
      var i := 0;
      while i < |rs|
        invariant i <= |rs| && back == Real(Payloads(rs[..i]))
      {
        assert Payloads(rs[..i + 1])[..i] == Payloads(rs[..i]);
        if rs[i].data != [] {
          back := back + [rs[i].data];
        }
        i := i + 1;
      }
      assert rs[..|rs|] == rs;
    }

    method AcceptReservations(round: nat, es: seq<Entry>, signed: bool) returns (ok: bool)
      requires Answers(params.slots)
      modifies this`entries, this`reserved, this`granted, this`deferred
      ensures View() == Accept(params, old(View()), round, es, signed)
      ensures ok <==> signed && InWindow(round, cur)
    {
      if !signed || !InWindow(round, cur) {
        return false;
      }
      var offs := params.slots.allocate(es, params.vectorBytes);
      if round !in entries {
        entries := entries[round := es];
      }
      if round in reserved {
        var mine := reserved[round];
        reserved := reserved - {round};
        var i := 0;
        while i < |mine|
          invariant i <= |mine| && reserved == old(reserved) - {round}
          invariant entries == if round in old(entries) then old(entries) else old(entries)[round := es]
          invariant granted == old(granted) + Settle(es, offs, round + GAP, mine[..i]).0
          invariant deferred == old(deferred) + Settle(es, offs, round + GAP, mine[..i]).1
        {
          assert mine[..i + 1][..i] == mine[..i];
          var at := Placing(es, offs, mine[i]);
          if at.Some? {
            granted := granted + [Grant(round + GAP, at.value, mine[i].data)];
          } else if mine[i].data != [] {
            deferred := deferred + [mine[i].data];
          }
          i := i + 1;
        }
        assert mine[..|mine|] == mine;
        assert (granted, deferred) == (Accept(params, old(View()), round, es, signed).granted,
                                       Accept(params, old(View()), round, es, signed).deferred);
        assert reserved == old(reserved) - {round};
      }
      assert entries == Accept(params, old(View()), round, es, signed).entries;
      return true;
    }

    method FinalizeRound(round: nat, complete: bool, ch: Chance) returns (out: Submission)
      requires Answers(params.slots)
      modifies this`staged, this`deferred, this`reserved, this`granted
      ensures (View(), out) == Finalize(params, old(View()), round, complete, ch)
    {
      if !complete {
        return Submission([], [], []);
      }
      var delivered := PlaceGrants(round, Width(params, entries, round));
      DrainDeferred(ch.flips);
      if staged == [] && ch.cover {
        staged := [[]];
      }
      var rs := Reserve(ch.draw);
      if rs != [] {
        reserved := reserved[round := rs];
      }
      staged := [];
      return Submission(delivered.buf, rs, delivered.delivered);
    }

    /** Writes the grants due in `round` into a fresh vector. */
    method PlaceGrants(round: nat, width: nat) returns (pl: Placement)
      modifies this`granted, this`deferred
      ensures pl == Place(old(granted), round, width)
      ensures granted == pl.remaining && deferred == old(deferred) + pl.missed
    {
      var due := granted;
      granted := [];
      var buf := new Byte[width](_ => 0);
      var delivered: seq<Bytes>, missed: seq<Bytes> := [], [];
      assert buf[..] == seq(width, i => 0);
      var i := 0;
      while i < |due|
        invariant i <= |due| && fresh(buf) && buf.Length == width
        invariant Placement(buf[..], delivered, missed, granted) == Place(due[..i], round, width)
        invariant deferred == old(deferred) + missed
      {
        assert due[..i + 1][..i] == due[..i];
        var g := due[i];
        if g.target == round {
          CopyInto(buf, g.offset, g.data);
          delivered := delivered + [g.data];
        } else if g.target < round {
          missed := missed + [g.data];
          deferred := deferred + [g.data];
        } else {
          granted := granted + [g];
        }
        i := i + 1;
      }
      assert due[..|due|] == due;
      pl := Placement(buf[..], delivered, missed, granted);
    }

    method DrainDeferred(flips: nat -> bool)
      modifies this`staged, this`deferred
      ensures (staged, deferred) == (old(staged) + Drain(old(deferred), flips).0, Drain(old(deferred), flips).1)
    {
      var bounced := deferred;
      deferred := [];
      var i := 0;
      while i < |bounced|
        invariant i <= |bounced|
        invariant staged == old(staged) + Drain(bounced[..i], flips).0
        invariant deferred == Drain(bounced[..i], flips).1
      {
        assert bounced[..i + 1][..i] == bounced[..i];
        if flips(i) {
          staged := staged + [bounced[i]];
        } else {
          deferred := deferred + [bounced[i]];
        }
        i := i + 1;
      }
      assert bounced[..|bounced|] == bounced;
    }

    method Reserve(draw: nat -> Tag) returns (rs: seq<Reservation>)
      ensures rs == Tagged(staged, draw)
    {
      rs := [];
      var i := 0;
      while i < |staged|
        invariant i <= |staged| && |rs| == i
        invariant forall k :: 0 <= k < i ==> rs[k] == Reservation(draw(k), staged[k])
      {
        rs := rs + [Reservation(draw(i), staged[i])];
        i := i + 1;
      }
    }

    method TakePendingMessages() returns (unsent: seq<Bytes>)
      modifies this`staged, this`deferred, this`reserved, this`granted
      ensures unsent == Pending(old(View()))
      ensures View() == Client([], [], map[], [], entries, cur)
    {
      unsent := Real(GrantData(granted) + Flat(reserved, Sorted(reserved.Keys)) + deferred + staged);
      staged, deferred, reserved, granted := [], [], map[], [];
    }

    /** Dropping the session puts what it held at the front of the outbox, in order. */
    method Drop(outbox: Outbox)
      modifies this`staged, this`deferred, this`reserved, this`granted, outbox
      ensures outbox.queue == Pending(old(View())) + old(outbox.queue)
      ensures View() == Client([], [], map[], [], entries, cur)
    {
      var unsent := TakePendingMessages();
      var i := |unsent|;
      while i > 0
        invariant 0 <= i <= |unsent|
        invariant outbox.queue == unsent[i..] + old(outbox.queue)
        invariant View() == Client([], [], map[], [], entries, cur)
      {
        i := i - 1;
        outbox.queue := [unsent[i]] + outbox.queue;
        assert [unsent[i]] + unsent[i + 1..] == unsent[i..];
      }
    }
  }

  class Outbox {
    var queue: seq<Bytes>
  }

  method CopyInto(buf: array<Byte>, offset: nat, data: Bytes)
    modifies buf
    ensures buf[..] == Write(old(buf[..]), offset, data)
  {
    var start := Min(offset, buf.Length);
    var end := Min(offset + |data|, buf.Length);
    var i := start;
    while i < end
      invariant start <= i && (i <= end || end < start)
      invariant forall k :: 0 <= k < buf.Length ==> buf[k] == if start <= k < i then data[k - offset] else old(buf[k])
    {
      buf[i] := data[i - offset];
      i := i + 1;
    }
  }

  lemma {:induction false} RealConcat(a: seq<Bytes>, b: seq<Bytes>)
    ensures Real(a + b) == Real(a) + Real(b)
  {
    if b == [] {
      assert a + b == a;
    } else {
      var n := |b| - 1;
      RealConcat(a, b[..n]);
      assert (a + b)[..|a + b| - 1] == a + b[..n];
    }
  }

  lemma NextStale(reserved: map<nat, seq<Reservation>>, all: map<nat, seq<Reservation>>, rounds: seq<nat>, i: nat)
    requires i < |rounds| && Ascending(rounds) && Members(rounds) <= all.Keys
    requires reserved == all - Members(rounds[..i])
    ensures rounds[i] in reserved && PayloadsAt(reserved, rounds[i]) == PayloadsAt(all, rounds[i])
    ensures reserved - {rounds[i]} == all - Members(rounds[..i + 1])
    ensures Real(Flat(all, rounds[..i + 1])) == Real(Flat(all, rounds[..i])) + Real(PayloadsAt(all, rounds[i]))
  {
    assert rounds[i] in Members(rounds) && rounds[i] !in Members(rounds[..i]);
    assert rounds[..i + 1] == rounds[..i] + [rounds[i]];
    MembersAppend(rounds[..i], rounds[i]);
    FlatAppend(all, rounds[..i], rounds[i]);
    RealConcat(Flat(all, rounds[..i]), PayloadsAt(all, rounds[i]));
  }

  lemma FlatAppend(reserved: map<nat, seq<Reservation>>, rounds: seq<nat>, r: nat)
    ensures Flat(reserved, rounds + [r]) == Flat(reserved, rounds) + PayloadsAt(reserved, r)
  {
    assert (rounds + [r])[..|rounds + [r]| - 1] == rounds;
  }

  /** Part of the way through releasing `rounds`. */
  predicate Releasing(all: map<nat, seq<Reservation>>, before: seq<Bytes>, rounds: seq<nat>, i: nat,
                      reserved: map<nat, seq<Reservation>>, deferred: seq<Bytes>)
    requires i <= |rounds|
  {
    reserved == all - Members(rounds[..i]) && deferred == before + Real(Flat(all, rounds[..i]))
  }

  lemma ReleaseNext(all: map<nat, seq<Reservation>>, before: seq<Bytes>, rounds: seq<nat>, i: nat,
                    reserved: map<nat, seq<Reservation>>, deferred: seq<Bytes>)
    requires i < |rounds| && Ascending(rounds) && Members(rounds) <= all.Keys
    requires Releasing(all, before, rounds, i, reserved, deferred)
    ensures rounds[i] in reserved
    ensures Releasing(all, before, rounds, i + 1, reserved - {rounds[i]}, deferred + Real(PayloadsAt(reserved, rounds[i])))
  {
    NextStale(reserved, all, rounds, i);
    Regroup(before, Real(Flat(all, rounds[..i])), Real(PayloadsAt(all, rounds[i])), Real(Flat(all, rounds[..i + 1])));
  }

  lemma Regroup(a: seq<Bytes>, b: seq<Bytes>, c: seq<Bytes>, bc: seq<Bytes>)
    requires bc == b + c
    ensures a + bc == a + b + c
  {
  }
}
