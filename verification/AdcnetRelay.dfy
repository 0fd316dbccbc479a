/**
 * An ADCNet relay that is not the leader: it keeps the first set announced for a round and
 * shares over it once it has a secret with every member it could recover.
 *
 * Whether a member's signed key recovers and whether its exchange key parses are verdicts
 * handed in, as is the success of computing a share.
 */
module AdcnetRelays {
  import opened Basics
  import opened Adcnet

  datatype Relay = Relay(sets: map<nat, seq<Key>>, secrets: set<Key>, shared: set<nat>, cur: nat)

  const NewRelay: Relay := Relay(map[], {}, {}, 0)

  /** Which members' signed keys recover, and which of those parse. */
  datatype Keys = Keys(recovers: Key -> bool, parses: Key -> bool)

  function Tick(r: Relay, round: nat): Relay {
    var from := SatSub(round, ROUND_WINDOW);
    Relay(Retained(r.sets, from), r.secrets, RetainedSet(r.shared, from), round)
  }

  function Recovered(ks: seq<Key>, keys: Keys): seq<Key> { Filter(ks, keys.recovers) }

  /** Whether an announcement for round `t` is taken up. */
  predicate Hearable(c: Config, r: Relay, t: nat, ks: seq<Key>, fromLeader: bool) {
    && Min(t + ROUND_WINDOW, U32_MAX) >= r.cur && t <= Min(r.cur + FUTURE_SLACK, U32_MAX)
    && fromLeader && |ks| <= c.maxClients
  }

  function Parsed(ks: seq<Key>, keys: Keys): set<Key> { set k | k in ks && keys.recovers(k) && keys.parses(k) }

  function Hear(c: Config, keys: Keys, r: Relay, t: nat, ks: seq<Key>, fromLeader: bool): Relay {
    if !Hearable(c, r, t, ks, fromLeader) then r
    else
      r.(secrets := r.secrets + Parsed(ks, keys),
         sets := if t in r.sets then r.sets else r.sets[t := Recovered(ks, keys)])
  }

  /** A secret for each of the set's members, and at least one. */
  predicate Covered(secrets: set<Key>, ks: seq<Key>) { ks != [] && Unique(ks) && forall k :: k in ks ==> k in secrets }

  /** The rounds shared over now: those known, not shared over yet, and covered. */
  function Sharing(r: Relay, ok: nat -> bool): set<nat> {
    set t | t in r.sets && t !in r.shared && Covered(r.secrets, r.sets[t]) && ok(t)
  }

  function Share(r: Relay, ok: nat -> bool): Relay { r.(shared := r.shared + Sharing(r, ok)) }

  // ---------------------------------------------------------------- the relay, in place

  class AdcnetRelay {
    const config: Config
    const keys: Keys
    var sets: map<nat, seq<Key>>
    var secrets: set<Key>
    var shared: set<nat>
    var cur: nat

    ghost function View(): Relay reads this { Relay(sets, secrets, shared, cur) }

    constructor (c: Config, keys: Keys)
      ensures config == c && this.keys == keys && View() == NewRelay
    {
      config, this.keys := c, keys;
      sets, secrets, shared, cur := map[], {}, {}, 0;
    }

    method BeginRound(round: nat)
      modifies this
      ensures View() == Tick(old(View()), round)
    {
      cur := round;
      var from := SatSub(round, ROUND_WINDOW);
      sets := Retained(sets, from);
      shared := RetainedSet(shared, from);
    }

    method OnClientSet(t: nat, clients: seq<Key>, fromLeader: bool)
      modifies this`sets, this`secrets
      ensures View() == Hear(config, keys, old(View()), t, clients, fromLeader)
    {
      if Min(t + ROUND_WINDOW, U32_MAX) < cur || t > Min(cur + FUTURE_SLACK, U32_MAX) || !fromLeader || |clients| > config.maxClients {
        return;
      }
      var signers := [];
      var i := 0;
      while i < |clients|
        invariant i <= |clients| && sets == old(sets)
        invariant Recovered(clients, keys) == signers + Recovered(clients[i..], keys)
        invariant secrets == old(secrets) + Parsed(clients[..i], keys)
      {
        var k := clients[i];
        assert clients[i..][1..] == clients[i + 1..];
        ParsedNext(clients, keys, i);
        if keys.recovers(k) {
          if keys.parses(k) {
            secrets := secrets + {k};
          }
          signers := signers + [k];
        }
        i := i + 1;
      }
      assert clients[..|clients|] == clients && signers == Recovered(clients, keys);
      assert Hearable(config, old(View()), t, clients, fromLeader);
      if t !in sets {
        sets := sets[t := signers];
      }
    }

    /** Shares over every round that is due; `ok` says which computations succeed. */
    method ShareRounds(ok: nat -> bool) returns (now: set<nat>)
      modifies this`shared
      ensures now == Sharing(old(View()), ok) && View() == Share(old(View()), ok)
    {
      var todo := sets.Keys;
      now := {};
      ghost var was := View();
      while todo != {}
        invariant todo <= sets.Keys && sets == was.sets && secrets == was.secrets && cur == was.cur
        invariant now == Sharing(was, ok) - todo && shared == was.shared + now
      {
        var t :| t in todo;
        var covered := HasSecrets(sets[t]);
        if t !in shared && covered && ok(t) {
          now := now + {t};
          shared := shared + {t};
        }
        todo := todo - {t};
      }
    }

    /** Counts the distinct members there is a secret for, against the length of the set. */
    method HasSecrets(ks: seq<Key>) returns (covered: bool)
      ensures covered == Covered(secrets, ks)
    {
      var found: set<Key> := {};
      var i := 0;
      while i < |ks|
        invariant i <= |ks|
        invariant found == set k | k in ks[..i] && k in secrets
      {
        assert ks[..i + 1] == ks[..i] + [ks[i]];
        if ks[i] in secrets {
          found := found + {ks[i]};
        }
        i := i + 1;
      }
      assert ks[..|ks|] == ks;
      CountCovers(secrets, ks, found);
      covered := |found| == |ks| && |found| != 0;
    }
  }

  lemma ParsedNext(ks: seq<Key>, keys: Keys, i: nat)
    requires i < |ks|
    ensures Parsed(ks[..i + 1], keys) == Parsed(ks[..i], keys) + if keys.recovers(ks[i]) && keys.parses(ks[i]) then {ks[i]} else {}
  {
    assert ks[..i + 1] == ks[..i] + [ks[i]];
  }

  /** Distinct elements are as many as the list is long. */
  lemma {:induction false} DistinctCount(ks: seq<Key>)
    ensures |Members(ks)| <= |ks|
    ensures |Members(ks)| == |ks| <==> Unique(ks)
  {
    if ks != [] {
      var n := |ks| - 1;
      DistinctCount(ks[..n]);
      assert ks == ks[..n] + [ks[n]];
      assert Members(ks) == Members(ks[..n]) + {ks[n]};
      if ks[n] in Members(ks[..n]) {
        assert Members(ks) == Members(ks[..n]);
        var i :| 0 <= i < n && ks[..n][i] == ks[n];
        assert ks[i] == ks[n];
      } else {
        assert |Members(ks)| == |Members(ks[..n])| + 1;
        forall i, j | 0 <= i < j < |ks| && Unique(ks[..n]) ensures ks[i] != ks[j] {
          if j < n { assert ks[..n][i] != ks[..n][j]; } else { assert ks[..n][i] in Members(ks[..n]); }
        }
        if Unique(ks) {
          forall i, j | 0 <= i < j < n ensures ks[..n][i] != ks[..n][j] { assert ks[i] != ks[j]; }
        }
      }
    }
  }

  lemma CountCovers(secrets: set<Key>, ks: seq<Key>, found: set<Key>)
    requires found == set k | k in ks && k in secrets
    ensures Covered(secrets, ks) <==> |found| == |ks| && |found| != 0
  {
    DistinctCount(ks);
    SubsetSize(found, Members(ks));
    if Covered(secrets, ks) { assert found == Members(ks); }
    if |found| == |ks| {
      forall k | k in ks ensures k in secrets { assert k in Members(ks); }
    }
  }

  // ---------------------------------------------------------------- what it shares over

  lemma {:induction false} FilterAll(ks: seq<Key>, keep: Key -> bool)
    ensures |Filter(ks, keep)| <= |ks|
    ensures Filter(ks, keep) == ks <==> forall k :: k in ks ==> keep(k)
  {
    if ks != [] {
      FilterAll(ks[1..], keep);
      assert forall k :: k in ks <==> k == ks[0] || k in ks[1..];
      assert ks == [ks[0]] + ks[1..];
    }
  }

  lemma {:induction false} FilterDistinct(ks: seq<Key>, keep: Key -> bool)
    requires Unique(ks)
    ensures Unique(Filter(ks, keep))
  {
    if ks != [] {
      var rest := Filter(ks[1..], keep);
      FilterDistinct(ks[1..], keep);
      forall i | 0 <= i < |rest| ensures rest[i] != ks[0] {
        assert rest[i] in ks[1..];
        var j :| 0 <= j < |ks| - 1 && ks[1..][j] == rest[i];
        assert ks[j + 1] == rest[i];
      }
    }
  }

  /**
   * When the first announcement of a round is heard and everything a relay recovers also
   * parses, the round is due as soon as one member recovers; and what is shared over is the
   * announced set if and only if every member recovers. A member that does not recover is
   * left out of the stored set, so nothing is found missing and the share goes out short.
   */
  lemma SharesOverAnnouncedExactly(c: Config, keys: Keys, r: Relay, t: nat, ks: seq<Key>, ok: nat -> bool)
    requires Hearable(c, r, t, ks, true) && t !in r.sets && t !in r.shared && Unique(ks) && ok(t)
    requires forall k :: k in ks && keys.recovers(k) ==> keys.parses(k)
    ensures var s := Hear(c, keys, r, t, ks, true);
      && t in s.sets
      && (t in Sharing(s, ok) <==> exists k :: k in ks && keys.recovers(k))
      && (s.sets[t] == ks <==> forall k :: k in ks ==> keys.recovers(k))
  {
    var s := Hear(c, keys, r, t, ks, true);
    FilterAll(ks, keys.recovers);
    FilterDistinct(ks, keys.recovers);
    var kept := Recovered(ks, keys);
    assert Covered(s.secrets, kept) <==> kept != [];
    if kept != [] { assert kept[0] in kept; }
    if k :| k in ks && keys.recovers(k) { assert k in kept; }
  }
}
