/**
 * A relay's round buckets: messages are filed under the round they name, a share is
 * emitted and a plaintext decoded per round, and quiet buckets are collected.  Around
 * it, the scheduled wrapper pairs each message vector with the reservation list of
 * two rounds before.
 *
 * Cryptographic steps answer through a parameter; plaintexts and lists are opaque
 * names.  Client ids are natural numbers.
 */
module Relays {
  import opened Basics
  import ScheduledClients

  const RETENTION: nat := 4
  const GAP: nat := 2
  const ENTRIES_RETENTION: nat := 6

  type Cid = nat
  type Plain = nat
  type List = nat

  datatype Bucket = Bucket(
    openings: set<Cid>,
    slices: set<Cid>,
    publics: set<Cid>,
    posts: set<nat>,
    emitted: bool,
    decoded: bool)

  const Empty: Bucket := Bucket({}, {}, {}, {}, false, false)

  datatype State = State(rounds: map<nat, Bucket>, sets: map<nat, set<Cid>>, cur: Option<nat>, first: Option<nat>)

  const NewState: State := State(map[], map[], None, None)

  /** The messages that pass their signature and admission checks. */
  datatype Msg =
    | Public(round: nat, cid: Cid)
    | Opening(round: nat, cid: Cid)
    | Slice(round: nat, cid: Cid)
    | Post(round: nat, server: nat)
    | ClientSet(round: nat, clients: set<Cid>)

  /** How a share computation goes: fails on the openings, on the lane, on packing, or succeeds. */
  datatype Share = OpeningsFail | LaneFails | PackFails | Ok

  // ---------------------------------------------------------------- filing and collecting

  function Begin(s: State, round: nat): State {
    s.(cur := Some(round), first := if s.first.None? then Some(round) else s.first)
  }

  function BucketAt(s: State, r: nat): Bucket { if r in s.rounds then s.rounds[r] else Empty }

  predicate Admits(s: State, round: nat) {
    ScheduledClients.InWindow(round, s.cur) && (s.first.Some? ==> round >= s.first.value)
  }

  function File(b: Bucket, m: Msg): Bucket {
    match m
    case Public(_, c) => b.(publics := b.publics + {c})
    case Opening(_, c) => b.(openings := b.openings + {c})
    case Slice(_, c) => b.(slices := b.slices + {c})
    case Post(_, v) => b.(posts := b.posts + {v})
    case ClientSet(_, _) => b
  }

  function Receive(s: State, m: Msg): State {
    if !Admits(s, m.round) then s
    else if m.ClientSet? then s.(sets := if m.round in s.sets then s.sets else s.sets[m.round := m.clients])
    else s.(rounds := s.rounds[m.round := File(BucketAt(s, m.round), m)])
  }

  function Collect(s: State, round: nat): State {
    var cutoff := SatSub(round, RETENTION);
    s.(rounds := map r | r in s.rounds && r >= cutoff :: s.rounds[r],
       sets := map r | r in s.sets && r >= cutoff :: s.sets[r])
  }

  // ---------------------------------------------------------------- emission

  /** The set a share would be over: one's own openings backed by posts, or the announced set. */
  function Canonical(selfDerived: bool, sets: map<nat, set<Cid>>, r: nat, b: Bucket): Option<set<Cid>> {
    if selfDerived then Some(b.openings * b.publics)
    else if r in sets then Some(sets[r]) else None
  }

  predicate Covered(selfDerived: bool, sets: map<nat, set<Cid>>, r: nat, b: Bucket) {
    var c := Canonical(selfDerived, sets, r, b);
    c.Some? && c.value != {} && (selfDerived || c.value <= b.openings) && c.value <= b.slices && c.value <= b.publics
  }

  predicate Due(selfDerived: bool, sets: map<nat, set<Cid>>, r: nat, b: Bucket, round: nat) {
    r <= round && !b.emitted && b.openings != {} && Covered(selfDerived, sets, r, b)
  }

  /** One bucket's turn: the openings go into the computation whatever becomes of it. */
  function EmitOne(selfDerived: bool, sets: map<nat, set<Cid>>, me: nat, r: nat, b: Bucket, round: nat, share: nat -> Share): (Bucket, bool) {
    if !Due(selfDerived, sets, r, b, round) then (b, false)
    else
      match share(r)
      case OpeningsFail => (b.(openings := {}), false)
      case LaneFails => (b.(openings := {}, slices := {}), false)
      case PackFails => (b.(openings := {}, slices := {}), false)
      case Ok => (b.(openings := {}, slices := {}, posts := b.posts + {me}, emitted := true), true)
  }

  datatype Config = Config(selfDerived: bool, me: nat)

  function EmitAt(c: Config, s: State, r: nat, round: nat, share: nat -> Share): (Bucket, bool)
    requires r in s.rounds
  {
    EmitOne(c.selfDerived, s.sets, c.me, r, s.rounds[r], round, share)
  }

  function EmittedNow(c: Config, s: State, round: nat, share: nat -> Share): set<nat> {
    set r | r in s.rounds && EmitAt(c, s, r, round, share).1
  }

  function Emit(c: Config, s: State, round: nat, share: nat -> Share): State {
    s.(rounds := map r | r in s.rounds :: EmitAt(c, s, r, round, share).0)
  }

  // ---------------------------------------------------------------- decoding

  function Spent(b: Bucket): Bucket { Bucket({}, {}, {}, {}, b.emitted, true) }

  function DecodedNow(s: State, recover: nat -> Option<Plain>): set<nat> {
    set r | r in s.rounds && !s.rounds[r].decoded && recover(r).Some?
  }

  function Decode(s: State, recover: nat -> Option<Plain>): State {
    s.(rounds := map r | r in s.rounds :: if r in DecodedNow(s, recover) then Spent(s.rounds[r]) else s.rounds[r])
  }

  // ---------------------------------------------------------------- the wrapper

  /** The relay with the reservation lists it knows and the vectors awaiting theirs. */
  datatype Scheduled = Scheduled(relay: State, entries: map<nat, List>, pending: map<nat, Plain>)

  const NewScheduled: Scheduled := Scheduled(NewState, map[], map[])

  datatype Answers = Answers(share: nat -> Share, recover: nat -> Option<Plain>, peel: Plain -> List)

  function Reservations(w: Scheduled, round: nat, list: List): Scheduled {
    if ScheduledClients.InWindow(round, w.relay.cur) && round !in w.entries then w.(entries := w.entries[round := list]) else w
  }

  function Recovered(got: set<nat>, recover: nat -> Option<Plain>): map<nat, Plain> {
    map r | r in got && recover(r).Some? :: recover(r).value
  }

  predicate Ready(entries: map<nat, List>, r: nat) { r >= GAP && r - GAP in entries }

  datatype Outcome = Outcome(emitted: set<nat>, decoded: set<nat>, unpacked: map<nat, (Plain, List)>, expired: set<nat>)

  function Peeled(got: map<nat, Plain>, peel: Plain -> List): map<nat, List> { map r | r in got :: peel(got[r]) }

  function ReadyIn(entries: map<nat, List>, waiting: map<nat, Plain>): map<nat, (Plain, List)> {
    map r | r in waiting && Ready(entries, r) :: (waiting[r], entries[r - GAP])
  }

  function WaitingIn(entries: map<nat, List>, waiting: map<nat, Plain>): map<nat, Plain> {
    map r | r in waiting && !Ready(entries, r) :: waiting[r]
  }

  function Since<T>(m: map<nat, T>, cutoff: nat): map<nat, T> { map r | r in m && r >= cutoff :: m[r] }

  function Before<T>(m: map<nat, T>, cutoff: nat): set<nat> { set r | r in m && r < cutoff }

  /** What the decoded rounds yield, before anything is unpacked. */
  function Gather(w: Scheduled, got: map<nat, Plain>, peel: Plain -> List): (map<nat, List>, map<nat, Plain>) {
    (w.entries + Peeled(got, peel), w.pending + got)
  }

  /** The end of a round: emit, decode, split, unpack what is ready, and age out the rest. */
  function End(c: Config, w: Scheduled, round: nat, a: Answers): (Scheduled, Outcome) {
    var sent := Emit(c, w.relay, round, a.share);
    var got := Recovered(DecodedNow(sent, a.recover), a.recover);
    var (entries, waiting) := Gather(w, got, a.peel);
    var left := WaitingIn(entries, waiting);
    var cutoff := SatSub(round, ENTRIES_RETENTION);
    (Scheduled(Collect(Decode(sent, a.recover), round), Since(entries, cutoff), Since(left, cutoff)),
     Outcome(EmittedNow(c, w.relay, round, a.share), got.Keys, ReadyIn(entries, waiting), Before(left, cutoff)))
  }

  // ---------------------------------------------------------------- the sessions, in place

  class RelaySession {
    const config: Config
    var rounds: map<nat, Bucket>
    var sets: map<nat, set<Cid>>
    var cur: Option<nat>
    var first: Option<nat>

    ghost function View(): State reads this { State(rounds, sets, cur, first) }

    constructor (c: Config)
      ensures config == c && View() == NewState
    {
      config := c;
      rounds, sets, cur, first := map[], map[], None, None;
    }

    method BeginRound(round: nat)
      modifies this
      ensures View() == Begin(old(View()), round)
    {
      if first.None? {
        first := Some(round);
      }
      cur := Some(round);
    }

    method OnInbound(m: Msg)
      modifies this`rounds, this`sets
      ensures View() == Receive(old(View()), m)
    {
      if !ScheduledClients.InWindow(m.round, cur) || (first.Some? && m.round < first.value) {
        return;
      }
      if m.ClientSet? {
        if m.round !in sets {
          sets := sets[m.round := m.clients];
        }
        return;
      }
      rounds := rounds[m.round := File(if m.round in rounds then rounds[m.round] else Empty, m)];
    }

    /** Walks the buckets in round order, emitting every share that is due. */
    method EmitServerPublics(round: nat, share: nat -> Share) returns (sent: seq<nat>)
      modifies this`rounds
      ensures View() == Emit(config, old(View()), round, share)
      ensures Listed(sent, EmittedNow(config, old(View()), round, share), {})
    {
      ghost var was := View();
      ghost var goal, all := Emit(config, was, round, share).rounds, EmittedNow(config, was, round, share);
      var todo := rounds.Keys;
      sent := [];
      while todo != {}
        invariant todo <= was.rounds.Keys
        invariant Walked(was.rounds, rounds, todo, goal)
        invariant Listed(sent, all, todo)
      {
        var r := Least(todo);
        var (b, emitted) := EmitOne(config.selfDerived, sets, config.me, r, rounds[r], round, share);
        WalkOn(was.rounds, rounds, todo, goal, r);
        ListOn(sent, all, todo, r);
        rounds := rounds[r := b];
        sent := if emitted then sent + [r] else sent;
        todo := todo - {r};
      }
      WalkedAll(was.rounds, rounds, goal);
    }

    /** Walks the buckets in round order, decoding each at most once. */
    method DecodeSettled(recover: nat -> Option<Plain>) returns (got: seq<nat>)
      modifies this`rounds
      ensures View() == Decode(old(View()), recover)
      ensures Listed(got, DecodedNow(old(View()), recover), {})
    {
      ghost var was := View();
      ghost var goal, all := Decode(was, recover).rounds, DecodedNow(was, recover);
      var todo := rounds.Keys;
      got := [];
      while todo != {}
        invariant todo <= was.rounds.Keys
        invariant Walked(was.rounds, rounds, todo, goal)
        invariant Listed(got, all, todo)
      {
        var r := Least(todo);
        WalkOn(was.rounds, rounds, todo, goal, r);
        ListOn(got, all, todo, r);
        if !rounds[r].decoded && recover(r).Some? {
          rounds := rounds[r := Spent(rounds[r])];
          got := got + [r];
        } else {
          rounds := rounds[r := rounds[r]];
        }
        todo := todo - {r};
      }
      WalkedAll(was.rounds, rounds, goal);
    }

    method Gc(round: nat)
      modifies this`rounds, this`sets
      ensures View() == Collect(old(View()), round)
    {
      var cutoff := SatSub(round, RETENTION);
      rounds := map r | r in rounds && r >= cutoff :: rounds[r];
      sets := map r | r in sets && r >= cutoff :: sets[r];
    }
  }

  /** A table being walked: the keys still to do are as they were, the others as intended. */
  ghost predicate Walked<T>(was: map<nat, T>, now: map<nat, T>, todo: set<nat>, goal: map<nat, T>) {
    was.Keys == now.Keys == goal.Keys && forall r :: r in was ==> now[r] == if r in todo then was[r] else goal[r]
  }

  lemma WalkOn<T>(was: map<nat, T>, now: map<nat, T>, todo: set<nat>, goal: map<nat, T>, r: nat)
    requires Walked(was, now, todo, goal) && r in todo && r in was
    ensures now[r] == was[r]
    ensures Walked(was, now[r := goal[r]], todo - {r}, goal)
  {
  }

  lemma WalkedAll<T>(was: map<nat, T>, now: map<nat, T>, goal: map<nat, T>)
    requires Walked(was, now, {}, goal)
    ensures now == goal
  {
  }

  /** The chosen keys among those walked, in ascending order. */
  ghost predicate Listed(out: seq<nat>, all: set<nat>, todo: set<nat>) {
    && (forall i, j :: 0 <= i < j < |out| ==> out[i] < out[j])
    && (forall x :: x in out ==> x in all && x !in todo)
    && (forall x :: x in all && x !in todo ==> x in out)
    && (forall x, y :: x in out && y in todo ==> x < y)
  }

  lemma ListOn(out: seq<nat>, all: set<nat>, todo: set<nat>, r: nat)
    requires Listed(out, all, todo) && r in todo && forall y :: y in todo ==> r <= y
    ensures Listed(if r in all then out + [r] else out, all, todo - {r})
  {
    assert forall i :: 0 <= i < |out| ==> out[i] in out;
    if r in all {
      var more := out + [r];
      assert forall x :: x in more <==> x in out || x == r;
    }
  }

  class ScheduledRelay {
    const relay: RelaySession
    var entries: map<nat, List>
    var pending: map<nat, Plain>

    ghost function View(): Scheduled reads this, relay { Scheduled(relay.View(), entries, pending) }

    constructor (c: Config)
      ensures fresh(relay) && relay.config == c && View() == NewScheduled
    {
      relay := new RelaySession(c);
      entries, pending := map[], map[];
    }

    method OnReservations(round: nat, list: List)
      modifies this`entries
      ensures View() == Reservations(old(View()), round, list)
    {
      if ScheduledClients.InWindow(round, relay.cur) && round !in entries {
        entries := entries[round := list];
      }
    }

    method SplitSettled(got: seq<nat>, recover: nat -> Option<Plain>, peel: Plain -> List)
      requires forall r :: r in got ==> recover(r).Some?
      modifies this`entries, this`pending
      ensures pending == old(pending) + Plains(got, recover)
      ensures entries == old(entries) + Peeled(Plains(got, recover), peel)
    {
      var i := 0;
      while i < |got|
        invariant i <= |got|
        invariant pending == old(pending) + Plains(got[..i], recover)
        invariant entries == old(entries) + Peeled(Plains(got[..i], recover), peel)
      {
        assert got[i] in got;
        var plain := recover(got[i]).value;
        SplitNext(old(entries), old(pending), got, i, recover, peel);
        entries := entries[got[i] := peel(plain)];
        pending := pending[got[i] := plain];
        i := i + 1;
      }
      assert got[..|got|] == got;
    }

    /** Unpacks every waiting vector whose list is known, then ages both stores out. */
    method ReleaseReady(cutoff: nat) returns (unpacked: map<nat, (Plain, List)>, expired: set<nat>)
      modifies this`entries, this`pending
      ensures unpacked == ReadyIn(old(entries), old(pending))
      ensures expired == Before(WaitingIn(old(entries), old(pending)), cutoff)
      ensures pending == Since(WaitingIn(old(entries), old(pending)), cutoff)
      ensures entries == Since(old(entries), cutoff)
    {
      unpacked := ReadyIn(entries, pending);
      pending := WaitingIn(entries, pending);
      expired := Before(pending, cutoff);
      entries := Since(entries, cutoff);
      pending := Since(pending, cutoff);
    }

    method EndRound(round: nat, a: Answers) returns (out: Outcome)
      modifies this, relay
      ensures (View(), out) == End(relay.config, old(View()), round, a)
    {
      ghost var was := View();
      var sent := relay.EmitServerPublics(round, a.share);
      ghost var mid := relay.View();
      var got := relay.DecodeSettled(a.recover);
      AllPlains(got, DecodedNow(mid, a.recover), a.recover);
      ListedMembers(sent, EmittedNow(relay.config, was.relay, round, a.share));
      SplitSettled(got, a.recover, a.peel);
      relay.Gc(round);
      var unpacked, expired := ReleaseReady(SatSub(round, ENTRIES_RETENTION));
      out := Outcome(Members(sent), Members(got), unpacked, expired);
    }
  }

  lemma ListedMembers(s: seq<nat>, all: set<nat>)
    requires Listed(s, all, {})
    ensures Members(s) == all
  {
  }

  function Plains(got: seq<nat>, recover: nat -> Option<Plain>): map<nat, Plain> { Recovered(Members(got), recover) }

  lemma SplitNext(entries: map<nat, List>, pending: map<nat, Plain>, got: seq<nat>, i: nat, recover: nat -> Option<Plain>, peel: Plain -> List)
    requires i < |got| && recover(got[i]).Some?
    ensures var plain := recover(got[i]).value;
      pending + Plains(got[..i + 1], recover) == (pending + Plains(got[..i], recover))[got[i] := plain]
      && entries + Peeled(Plains(got[..i + 1], recover), peel) == (entries + Peeled(Plains(got[..i], recover), peel))[got[i] := peel(plain)]
  {
    assert got[..i + 1] == got[..i] + [got[i]];
    var plain := recover(got[i]).value;
    assert Members(got[..i + 1]) == Members(got[..i]) + {got[i]};
    assert Plains(got[..i + 1], recover) == Plains(got[..i], recover)[got[i] := plain];
  }

  lemma AllPlains(got: seq<nat>, all: set<nat>, recover: nat -> Option<Plain>)
    requires Listed(got, all, {}) && forall r :: r in all ==> recover(r).Some?
    ensures Members(got) == all && Plains(got, recover) == Recovered(all, recover) && Recovered(all, recover).Keys == all
  {
  }
}
