/**
 * The ADCNet leader in the direct flow: it files one contribution per client and
 * round, announces the round's client set, files one share per relay slot, and
 * combines a round once every slot has shared over the announced set.
 *
 * Vectors are summed coordinate by coordinate modulo the field order.  Signatures
 * and key recovery are verdicts handed in; upstream `combine_round` is the difference
 * of the two sums together with a verdict of its own.
 */
module Adcnet {
  import opened Basics

  const ROUND_WINDOW: nat := 3
  const FUTURE_SLACK: nat := 64
  const U32_MAX: nat := 0xFFFF_FFFF

  type Key = nat
  type Vec = seq<int>

  datatype Contribution = Contribution(signer: Key, blinded: Vec)

  /** Relays in the roster (one share each is needed), the anonymity floor, the client cap, the field and the vector width. */
  datatype Config = Config(relays: nat, minClients: nat, maxClients: nat, order: nat, width: nat, me: nat)

  datatype Leader = Leader(
    clients: map<nat, seq<Contribution>>,
    keys: set<Key>,
    sets: map<nat, seq<Key>>,
    shares: map<nat, map<nat, Vec>>,
    announced: set<nat>,
    shared: set<nat>,
    combined: set<nat>,
    cur: nat)

  const NewLeader: Leader := Leader(map[], {}, map[], map[], {}, {}, {}, 0)

  // ---------------------------------------------------------------- filing

  function Retained<T>(m: map<nat, T>, from: nat): map<nat, T> { map r | r in m && r >= from :: m[r] }

  function RetainedSet(s: set<nat>, from: nat): set<nat> { set r | r in s && r >= from }

  function Begin(l: Leader, round: nat): Leader {
    var from := SatSub(round, ROUND_WINDOW);
    Leader(Retained(l.clients, from), l.keys, Retained(l.sets, from), Retained(l.shares, from),
           RetainedSet(l.announced, from), RetainedSet(l.shared, from), RetainedSet(l.combined, from), round)
  }

  function BucketAt(l: Leader, round: nat): seq<Contribution> { if round in l.clients then l.clients[round] else [] }

  predicate Holds(bucket: seq<Contribution>, k: Key) { exists i :: 0 <= i < |bucket| && bucket[i].signer == k }

  /** A client's contribution, its signatures and admission already judged by `ok`; `keyOk` says its exchange key parses. */
  function TakeClient(c: Config, l: Leader, round: nat, x: Contribution, ok: bool, keyOk: bool): Leader {
    if !ok || round < l.cur || round > Min(l.cur + FUTURE_SLACK, U32_MAX) then l
    else if Holds(BucketAt(l, round), x.signer) || |BucketAt(l, round)| >= c.maxClients then l
    else l.(keys := if keyOk then l.keys + {x.signer} else l.keys, clients := l.clients[round := BucketAt(l, round) + [x]])
  }

  function SharesAt(l: Leader, round: nat): map<nat, Vec> { if round in l.shares then l.shares[round] else map[] }

  /** A relay's share, filed under its signer's roster slot, whatever id it claims. */
  function TakeShare(c: Config, l: Leader, round: nat, slot: Option<nat>, v: Vec): Leader {
    if Min(round + ROUND_WINDOW, U32_MAX) < l.cur || round > Min(l.cur + FUTURE_SLACK, U32_MAX) then l
    else if slot.None? || slot.value >= c.relays then l
    else l.(shares := l.shares[round := SharesAt(l, round)[slot.value := v]])
  }

  // ---------------------------------------------------------------- the end of a round

  function Signers(bucket: seq<Contribution>): set<Key> { set i | 0 <= i < |bucket| :: bucket[i].signer }

  /** Distinct contributors with a usable key, in key order. */
  function SetFor(l: Leader, round: nat): seq<Key> { Sorted(Signers(BucketAt(l, round)) * l.keys) }

  function Announce(l: Leader, round: nat): Leader {
    if round in l.announced || SetFor(l, round) == [] then l
    else
      l.(sets := if round in l.sets then l.sets else l.sets[round := SetFor(l, round)], announced := l.announced + {round})
  }

  /** The leader's own share over every set it has not shared over yet. */
  function ShareOwn(c: Config, l: Leader, own: nat -> Option<Vec>): Leader {
    var now := Unshared(l.sets, l.shared, own);
    l.(shares := WithOwn(l.shares, now, c.me, own), shared := l.shared + now)
  }

  function Unshared(sets: map<nat, seq<Key>>, shared: set<nat>, own: nat -> Option<Vec>): set<nat> {
    set t | t in sets && t !in shared && own(t).Some?
  }

  function WithOwn(shares: map<nat, map<nat, Vec>>, now: set<nat>, me: nat, own: nat -> Option<Vec>): map<nat, map<nat, Vec>> {
    shares + map t | t in now && own(t).Some? :: (if t in shares then shares[t] else map[])[me := own(t).value]
  }

  function Find(bucket: seq<Contribution>, k: Key): Option<Vec> {
    if bucket == [] then None else if bucket[0].signer == k then Some(bucket[0].blinded) else Find(bucket[1..], k)
  }

  predicate AllFound(bucket: seq<Contribution>, ks: seq<Key>) { forall i :: 0 <= i < |ks| ==> Find(bucket, ks[i]).Some? }

  /** Everything `leader_combine` checks before it hands the round to the combiner. */
  predicate Combinable(c: Config, l: Leader, t: nat) {
    t !in l.combined && t in l.sets && |l.sets[t]| >= c.minClients
    && t in l.shares && |l.shares[t].Keys| >= c.relays
    && t in l.clients && AllFound(l.clients[t], l.sets[t])
  }

  function At(v: Vec, x: nat): int { if x < |v| then v[x] else 0 }

  function FoundAt(bucket: seq<Contribution>, k: Key, x: nat): int {
    var f := Find(bucket, k);
    if f.Some? then At(f.value, x) else 0
  }

  /** Coordinate `x` of the sum of the set members' contributions, one each. */
  function SumClients(bucket: seq<Contribution>, ks: seq<Key>, x: nat): int {
    if ks == [] then 0 else SumClients(bucket, ks[..|ks| - 1], x) + FoundAt(bucket, ks[|ks| - 1], x)
  }

  function ShareAt(shares: map<nat, Vec>, j: nat, x: nat): int { if j in shares then At(shares[j], x) else 0 }

  /** Coordinate `x` of the sum of the shares in slots `0..n`. */
  function SumShares(shares: map<nat, Vec>, n: nat, x: nat): int {
    if n == 0 then 0 else SumShares(shares, n - 1, x) + ShareAt(shares, n - 1, x)
  }

  function Combine(c: Config, l: Leader, t: nat): Vec
    requires Combinable(c, l, t) && c.order > 0
  {
    seq(c.width, x requires 0 <= x < c.width => (SumClients(l.clients[t], l.sets[t], x) - SumShares(l.shares[t], c.relays, x)) % c.order)
  }

  /** The rounds combined now: those ready whose combination the combiner accepts. */
  function CombinedNow(c: Config, l: Leader, accept: nat -> bool): set<nat> {
    set t | t in l.sets && Combinable(c, l, t) && accept(t)
  }

  function Finish(l: Leader, done: set<nat>): Leader {
    l.(clients := l.clients - done, shares := l.shares - done, combined := l.combined + done)
  }

  function BeforeCombine(c: Config, l: Leader, round: nat, own: nat -> Option<Vec>): Leader { ShareOwn(c, Announce(l, round), own) }

  function End(c: Config, l: Leader, round: nat, own: nat -> Option<Vec>, accept: nat -> bool): (Leader, set<nat>) {
    var ready := BeforeCombine(c, l, round, own);
    var done := CombinedNow(c, ready, accept);
    (Finish(ready, done), done)
  }

  // ---------------------------------------------------------------- the leader, in place

  class AdcnetLeader {
    const config: Config
    var clients: map<nat, seq<Contribution>>
    var keys: set<Key>
    var sets: map<nat, seq<Key>>
    var shares: map<nat, map<nat, Vec>>
    var announced: set<nat>
    var shared: set<nat>
    var combined: set<nat>
    var cur: nat

    ghost function View(): Leader reads this { Leader(clients, keys, sets, shares, announced, shared, combined, cur) }

    constructor (c: Config)
      ensures config == c && View() == NewLeader
    {
      config := c;
      clients, keys, sets, shares := map[], {}, map[], map[];
      announced, shared, combined, cur := {}, {}, {}, 0;
    }

    method BeginRound(round: nat)
      modifies this
      ensures View() == Begin(old(View()), round)
    {
      cur := round;
      var from := SatSub(round, ROUND_WINDOW);
      clients := Retained(clients, from);
      sets := Retained(sets, from);
      shares := Retained(shares, from);
      announced := RetainedSet(announced, from);
      shared := RetainedSet(shared, from);
      combined := RetainedSet(combined, from);
    }

    method OnClient(round: nat, x: Contribution, ok: bool, keyOk: bool)
      modifies this`clients, this`keys
      ensures View() == TakeClient(config, old(View()), round, x, ok, keyOk)
    {
      if !ok || round < cur || round > Min(cur + FUTURE_SLACK, U32_MAX) {
        return;
      }
      var bucket := if round in clients then clients[round] else [];
      var i := 0;
      while i < |bucket|
        invariant i <= |bucket|
        invariant forall j :: 0 <= j < i ==> bucket[j].signer != x.signer
      {
        if bucket[i].signer == x.signer {
          return;
        }
        i := i + 1;
      }
      if |bucket| >= config.maxClients {
        return;
      }
      if keyOk {
        keys := keys + {x.signer};
      }
      clients := clients[round := bucket + [x]];
    }

    method OnShare(round: nat, slot: Option<nat>, v: Vec)
      modifies this`shares
      ensures View() == TakeShare(config, old(View()), round, slot, v)
    {
      if Min(round + ROUND_WINDOW, U32_MAX) < cur || round > Min(cur + FUTURE_SLACK, U32_MAX) {
        return;
      }
      if slot.Some? && slot.value < config.relays {
        shares := shares[round := (if round in shares then shares[round] else map[])[slot.value := v]];
      }
    }

    /** Combines one round if it is ready and the combiner accepts it. */
    method LeaderCombine(t: nat, accept: nat -> bool) returns (out: Option<Vec>)
      requires config.order > 0
      modifies this`clients, this`shares, this`combined
      ensures out.Some? <==> Combinable(config, old(View()), t) && accept(t)
      ensures out.Some? ==> out.value == Combine(config, old(View()), t)
      ensures View() == Finish(old(View()), if out.Some? then {t} else {})
    {
      if t in combined || t !in sets || |sets[t]| < config.minClients || t !in shares || |shares[t].Keys| < config.relays || t !in clients {
        return None;
      }
      var posted := shares[t];
      var found, sums := AddClients(config.width, clients[t], sets[t]);
      if !found || !accept(t) {
        return None;
      }
      SubtractShares(sums, posted, config.relays, config.order);
      out := Some(sums[..]);
      combined := combined + {t};
      clients := clients - {t};
      shares := shares - {t};
    }

    /** Announces the current round's client set, once. */
    method AnnounceSet(round: nat) returns (set': seq<Key>)
      modifies this`sets, this`announced
      ensures View() == Announce(old(View()), round)
      ensures set' == if round in old(announced) then [] else SetFor(old(View()), round)
    {
      if round in announced {
        return [];
      }
      var bucket := if round in clients then clients[round] else [];
      set' := Sorted(Signers(bucket) * keys);
      if set' != [] {
        if round !in sets {
          sets := sets[round := set'];
        }
        announced := announced + {round};
      }
    }

    /** Shares over every known set not shared over yet. */
    method ContributeShares(own: nat -> Option<Vec>)
      modifies this`shares, this`shared
      ensures View() == ShareOwn(config, old(View()), own)
    {
      var now := Unshared(sets, shared, own);
      shares := WithOwn(shares, now, config.me, own);
      shared := shared + now;
    }

    /** The end of a round: announce, share, and combine whatever is ready. */
    method EndRound(round: nat, own: nat -> Option<Vec>, accept: nat -> bool) returns (out: map<nat, Vec>)
      requires config.order > 0
      modifies this
      ensures (View(), out.Keys) == End(config, old(View()), round, own, accept)
      ensures forall t :: t in out ==>
        Combinable(config, BeforeCombine(config, old(View()), round, own), t)
        && out[t] == Combine(config, BeforeCombine(config, old(View()), round, own), t)
    {
      var announcement := AnnounceSet(round);
      ContributeShares(own);
      out := CombineReady(accept);
    }

    method CombineReady(accept: nat -> bool) returns (out: map<nat, Vec>)
      requires config.order > 0
      modifies this`clients, this`shares, this`combined
      ensures out.Keys == CombinedNow(config, old(View()), accept) && View() == Finish(old(View()), out.Keys)
      ensures forall t :: t in out ==> Combinable(config, old(View()), t) && out[t] == Combine(config, old(View()), t)
    {
      ghost var ready := View();
      var todo := sets.Keys;
      out := map[];
      NothingFinished(ready);
      while todo != {}
        invariant Combining(config, ready, accept, todo, out, View())
      {
        var t :| t in todo;
        var v := LeaderCombine(t, accept);
        CombineOn(config, ready, accept, todo, out, t, v);
        out := if v.Some? then out[t := v.value] else out;
        todo := todo - {t};
      }
    }
  }

  lemma NothingFinished(l: Leader)
    ensures Finish(l, {}) == l
  {
  }

  /** Part of the way through the rounds that could be combined. */
  ghost predicate Combining(c: Config, ready: Leader, accept: nat -> bool, todo: set<nat>, out: map<nat, Vec>, now: Leader)
    requires c.order > 0
  {
    && todo <= ready.sets.Keys && out.Keys == CombinedNow(c, ready, accept) - todo && now == Finish(ready, out.Keys)
    && forall t :: t in out ==> Combinable(c, ready, t) && out[t] == Combine(c, ready, t)
  }

  lemma CombineOn(c: Config, ready: Leader, accept: nat -> bool, todo: set<nat>, out: map<nat, Vec>, t: nat, v: Option<Vec>)
    requires c.order > 0 && t in todo && Combining(c, ready, accept, todo, out, Finish(ready, out.Keys))
    requires v.Some? <==> Combinable(c, Finish(ready, out.Keys), t) && accept(t)
    requires v.Some? ==> v.value == Combine(c, Finish(ready, out.Keys), t)
    ensures Combining(c, ready, accept, todo - {t}, if v.Some? then out[t := v.value] else out,
                      Finish(Finish(ready, out.Keys), if v.Some? then {t} else {}))
  {
    FinishElsewhere(c, ready, out.Keys, t);
    FinishOneMore(ready, out.Keys, t);
    assert v.Some? <==> t in CombinedNow(c, ready, accept);
    KeysOn(CombinedNow(c, ready, accept), todo, out, t, v);
  }

  lemma KeysOn(all: set<nat>, todo: set<nat>, out: map<nat, Vec>, t: nat, v: Option<Vec>)
    requires out.Keys == all - todo && t in todo && (v.Some? <==> t in all)
    ensures (if v.Some? then out[t := v.value] else out).Keys == all - (todo - {t})
    ensures (if v.Some? then out[t := v.value] else out).Keys == out.Keys + (if v.Some? then {t} else {})
  {
  }

  /** Combining other rounds does not affect this one. */
  lemma FinishElsewhere(c: Config, l: Leader, done: set<nat>, t: nat)
    requires t !in done
    ensures Combinable(c, Finish(l, done), t) <==> Combinable(c, l, t)
    ensures Combinable(c, l, t) && c.order > 0 ==> Combine(c, Finish(l, done), t) == Combine(c, l, t)
  {
  }

  lemma FinishOneMore(l: Leader, done: set<nat>, t: nat)
    ensures Finish(Finish(l, done), {t}) == Finish(l, done + {t}) && Finish(Finish(l, done), {}) == Finish(l, done)
  {
    assert (l.clients - done) - {t} == l.clients - (done + {t});
    assert (l.shares - done) - {t} == l.shares - (done + {t});
    assert (l.combined + done) + {t} == l.combined + (done + {t});
    assert (l.clients - done) - {} == l.clients - done;
  }

  /** The sum of the members' contributions, or the news that one is missing. */
  method AddClients(width: nat, bucket: seq<Contribution>, members: seq<Key>) returns (found: bool, sums: array<int>)
    ensures found <==> AllFound(bucket, members)
    ensures fresh(sums) && sums.Length == width
    ensures found ==> forall x :: 0 <= x < width ==> sums[x] == SumClients(bucket, members, x)
  {
    sums := new int[width](_ => 0);
    var i := 0;
    while i < |members|
      invariant i <= |members| && fresh(sums) && sums.Length == width
      invariant forall k :: 0 <= k < i ==> Find(bucket, members[k]).Some?
      invariant forall x :: 0 <= x < width ==> sums[x] == SumClients(bucket, members[..i], x)
    {
      var f := Find(bucket, members[i]);
      if f.None? {
        return false, sums;
      }
      assert members[..i + 1][..i] == members[..i];
      forall x | 0 <= x < sums.Length { sums[x] := sums[x] + At(f.value, x); }
      i := i + 1;
    }
    assert members[..|members|] == members;
    found := true;
  }

  method SubtractShares(sums: array<int>, posted: map<nat, Vec>, n: nat, order: nat)
    requires order > 0
    modifies sums
    ensures forall x :: 0 <= x < sums.Length ==> sums[x] == (old(sums[x]) - SumShares(posted, n, x)) % order
  {
    var j := 0;
    while j < n
      invariant j <= n
      invariant forall x :: 0 <= x < sums.Length ==> sums[x] == old(sums[x]) - SumShares(posted, j, x)
    {
      forall x | 0 <= x < sums.Length { sums[x] := sums[x] - ShareAt(posted, j, x); }
      j := j + 1;
    }
    forall x | 0 <= x < sums.Length { sums[x] := sums[x] % order; }
  }
}
