/** What a single server's steps guarantee, whatever it is sent. */
module AbsorbFacts {
  import opened Basics
  import opened ClientSetTypes
  import opened SetServers

  /** The parts of a server's state that relaying never touches. */
  ghost predicate SameClientSide(s: Server, t: Server) {
    t.id == s.id && t.relaying == s.relaying && t.held == s.held && t.bulletins == s.bulletins
  }

  ghost predicate Names(out: seq<Relay>, id: ItemId) {
    exists m :: m in out && IdOf(m.item) == id
  }

  /** `m` is a forward this server made of a relay it was sent and newly accepted. */
  ghost predicate ForwardOf(sch: Scheme, s: Server, t: Server, round: nat, rs: seq<Relay>, m: Relay) {
    exists r :: r in rs && m == Extend(sch, s.id, r) && Justified(sch, s, t, round, r)
  }

  ghost predicate Justified(sch: Scheme, s: Server, t: Server, round: nat, r: Relay) {
    && |Signers(sch, IdOf(r.item), r.chain)| >= round
    && IdOf(r.item) !in s.accepted
    && IdOf(r.item) in t.accepted
    && match r.item
       case BatchItem(b) => BatchValid(sch, b)
       case FragmentItem(f) => f.idx < sch.n && ReportedKey(s.bulletins, f.client).Some?
                               && FragmentSigned(sch, ReportedKey(s.bulletins, f.client).value, f)
  }

  lemma StoredFacts(sch: Scheme, s: Server, f: Fragment, t: Server)
    requires t == if Storable(sch, s, f) then StoreOne(s, f).0 else s
    ensures SameClientSide(s, t) && t.batches == s.batches
    ensures s.accepted <= t.accepted <= s.accepted + {IdOf(FragmentItem(f))}
  {
  }

  lemma BatchTakenFacts(sch: Scheme, s: Server, b: Batch)
    ensures var t := Take(sch, s, BatchItem(b));
            && SameClientSide(s, t) && t.fragments == s.fragments
            && s.accepted <= t.accepted <= s.accepted + {IdOf(BatchItem(b))}
  {
  }

  lemma TakeFacts(sch: Scheme, s: Server, item: Item)
    ensures var t := Take(sch, s, item);
            && SameClientSide(s, t)
            && s.accepted <= t.accepted <= s.accepted + {IdOf(item)}
            && (item.BatchItem? ==> t.fragments == s.fragments)
            && (item.FragmentItem? ==> t.batches == s.batches)
  {
    match item
    case BatchItem(b) => BatchTakenFacts(sch, s, b);
    case FragmentItem(f) =>
      TakeFragment(sch, s, f);
      StoredFacts(sch, s, f, Take(sch, s, item));
  }

  /** A lone fragment is stored exactly when it is storable, and then it is the only change. */
  lemma TakeFragment(sch: Scheme, s: Server, f: Fragment)
    ensures Take(sch, s, FragmentItem(f)) == if Storable(sch, s, f) then StoreOne(s, f).0 else s
  {
    assert [f][1..] == [];
    if Storable(sch, s, f) {
      assert Vetted(sch, s, [f]) == [f] + Vetted(sch, s, []);
      assert [f] + [] == [f] && [f][..0] == [];
      assert StoreFragments(s, []) == (s, []);
    } else {
      assert Vetted(sch, s, [f]) == [];
    }
  }

  lemma AbsorbOneFacts(sch: Scheme, s: Server, round: nat, r: Relay)
    ensures var (t, out) := AbsorbOne(sch, s, round, r);
            && SameClientSide(s, t)
            && s.accepted <= t.accepted
            && (forall id :: id in t.accepted <==> id in s.accepted || Names(out, id))
            && (out == [] || (out == [Extend(sch, s.id, r)] && Justified(sch, s, t, round, r)))
  {
    TakeFacts(sch, s, r.item);
    if r.item.FragmentItem? { TakeFragment(sch, s, r.item.fragment); }
    var (t, out) := AbsorbOne(sch, s, round, r);
    if out != [] {
      assert out[0] in out;
    }
  }

  lemma {:induction false} AbsorbAllFacts(sch: Scheme, s: Server, round: nat, rs: seq<Relay>)
    ensures var (t, out) := AbsorbAll(sch, s, round, rs);
            && SameClientSide(s, t)
            && s.accepted <= t.accepted
            && (forall id :: id in t.accepted <==> id in s.accepted || Names(out, id))
            && (forall m :: m in out ==> ForwardOf(sch, s, t, round, rs, m))
    decreases |rs|
  {
    if rs != [] {
      var n := |rs| - 1;
      var (t1, out1) := AbsorbAll(sch, s, round, rs[..n]);
      var (t, out2) := AbsorbOne(sch, t1, round, rs[n]);
      AbsorbAllFacts(sch, s, round, rs[..n]);
      AbsorbOneFacts(sch, t1, round, rs[n]);
      forall m | m in out1 + out2 ensures ForwardOf(sch, s, t, round, rs, m) {
        if m in out1 {
          var r :| r in rs[..n] && m == Extend(sch, s.id, r) && Justified(sch, s, t1, round, r);
          assert r in rs && Justified(sch, s, t, round, r);
        } else {
          assert rs[n] in rs && Justified(sch, s, t, round, rs[n]);
        }
      }
      forall id ensures id in t.accepted <==> id in s.accepted || Names(out1 + out2, id) {
        NamesAppend(out1, out2, id);
      }
    }
  }

  lemma NamesAppend(a: seq<Relay>, b: seq<Relay>, id: ItemId)
    ensures Names(a + b, id) <==> Names(a, id) || Names(b, id)
  {
    if Names(a, id) {
      var m :| m in a && IdOf(m.item) == id;
      assert m in a + b;
    }
    if Names(b, id) {
      var m :| m in b && IdOf(m.item) == id;
      assert m in a + b;
    }
  }

  lemma AbsorbFacts(sch: Scheme, s: Server, round: nat, incoming: seq<Relay>)
    ensures var (t, out) := Absorb(sch, s, round, incoming);
            && SameClientSide(s, t)
            && s.accepted <= t.accepted
            && (forall id :: id in t.accepted <==> id in s.accepted || Names(out, id))
            && (forall m :: m in out ==> ForwardOf(sch, s, t, round, incoming, m))
  {
    var ordered := Picked(incoming, true) + Picked(incoming, false);
    AbsorbAllFacts(sch, s, round, ordered);
    var (t, out) := Absorb(sch, s, round, incoming);
    forall m | m in out ensures ForwardOf(sch, s, t, round, incoming, m) {
      var r :| r in ordered && m == Extend(sch, s.id, r) && Justified(sch, s, t, round, r);
      assert r in incoming;
    }
  }

  /** The relay a forward was made of. */
  lemma AbsorbForward(sch: Scheme, s: Server, round: nat, incoming: seq<Relay>, m: Relay) returns (r: Relay)
    requires m in Absorb(sch, s, round, incoming).1
    ensures r in incoming && m == Extend(sch, s.id, r)
    ensures Justified(sch, s, Absorb(sch, s, round, incoming).0, round, r)
  {
    AbsorbFacts(sch, s, round, incoming);
    assert ForwardOf(sch, s, Absorb(sch, s, round, incoming).0, round, incoming, m);
    r :| r in incoming && m == Extend(sch, s.id, r) && Justified(sch, s, Absorb(sch, s, round, incoming).0, round, r);
  }

  lemma AbsorbOneGrows(sch: Scheme, s: Server, round: nat, r: Relay)
    ensures s.accepted <= AbsorbOne(sch, s, round, r).0.accepted
  {
    TakeFacts(sch, s, r.item);
  }

  lemma AbsorbOneBatch(sch: Scheme, s: Server, round: nat, r: Relay)
    requires r.item.BatchItem? && BatchValid(sch, r.item.batch)
    requires |Signers(sch, IdOf(r.item), r.chain)| >= round
    ensures IdOf(r.item) in AbsorbOne(sch, s, round, r).0.accepted
  {
  }

  lemma AbsorbNext(sch: Scheme, s: Server, round: nat, rs: seq<Relay>, i: nat)
    requires i < |rs|
    ensures AbsorbAll(sch, s, round, rs[..i + 1]).0 == AbsorbOne(sch, AbsorbAll(sch, s, round, rs[..i]).0, round, rs[i]).0
  {
    assert rs[..i + 1][..i] == rs[..i];
  }

  lemma AbsorbNextGrows(sch: Scheme, s: Server, round: nat, rs: seq<Relay>, i: nat)
    requires i < |rs|
    ensures AbsorbAll(sch, s, round, rs[..i]).0.accepted <= AbsorbAll(sch, s, round, rs[..i + 1]).0.accepted
  {
    AbsorbNext(sch, s, round, rs, i);
    AbsorbOneGrows(sch, AbsorbAll(sch, s, round, rs[..i]).0, round, rs[i]);
  }

  /** What a prefix accepted stays accepted. */
  lemma {:induction false} AbsorbAllGrows(sch: Scheme, s: Server, round: nat, rs: seq<Relay>, i: nat, n: nat)
    requires i <= n <= |rs|
    ensures AbsorbAll(sch, s, round, rs[..i]).0.accepted <= AbsorbAll(sch, s, round, rs[..n]).0.accepted
    decreases n
  {
    if i < n {
      AbsorbAllGrows(sch, s, round, rs, i, n - 1);
      AbsorbNextGrows(sch, s, round, rs, n - 1);
    }
  }

  lemma AbsorbedAt(sch: Scheme, s: Server, round: nat, rs: seq<Relay>, i: nat, id: ItemId)
    requires i < |rs| && id in AbsorbOne(sch, AbsorbAll(sch, s, round, rs[..i]).0, round, rs[i]).0.accepted
    ensures id in AbsorbAll(sch, s, round, rs).0.accepted
  {
    AbsorbNext(sch, s, round, rs, i);
    AbsorbAllGrows(sch, s, round, rs, i + 1, |rs|);
    assert rs[..|rs|] == rs;
  }

  /** A validly signed batch with a long enough chain is accepted, whatever else arrives. */
  lemma BatchDelivered(sch: Scheme, s: Server, round: nat, rs: seq<Relay>, r: Relay)
    requires r in rs && r.item.BatchItem? && BatchValid(sch, r.item.batch)
    requires |Signers(sch, IdOf(r.item), r.chain)| >= round
    ensures IdOf(r.item) in AbsorbAll(sch, s, round, rs).0.accepted
  {
    var i :| 0 <= i < |rs| && rs[i] == r;
    AbsorbOneBatch(sch, AbsorbAll(sch, s, round, rs[..i]).0, round, r);
    AbsorbedAt(sch, s, round, rs, i, IdOf(r.item));
  }

  /** A forward carries one signer more than the chain it extends. */
  lemma ExtendSigners(sch: Scheme, me: nat, r: Relay)
    requires Sound(sch) && me < sch.n
    requires me !in Signers(sch, IdOf(r.item), r.chain)
    ensures var m := Extend(sch, me, r);
            && Signers(sch, IdOf(r.item), m.chain) == Signers(sch, IdOf(r.item), r.chain) + {me}
            && |Signers(sch, IdOf(r.item), m.chain)| == |Signers(sch, IdOf(r.item), r.chain)| + 1
  {
    var id := IdOf(r.item);
    var m := Extend(sch, me, r);
    var entry := ChainEntry(sch, me, id);
    assert entry in m.chain && sch.serverVerify(me, RelayMsg(id), entry.1);
    forall j ensures j in Signers(sch, id, m.chain) <==> j in Signers(sch, id, r.chain) || j == me {
      if j in Signers(sch, id, r.chain) {
        var e :| e in r.chain && e.0 < sch.n && sch.serverVerify(e.0, RelayMsg(id), e.1) && e.0 == j;
        assert e in m.chain;
      }
      if j in Signers(sch, id, m.chain) && j != me {
        var e :| e in m.chain && e.0 < sch.n && sch.serverVerify(e.0, RelayMsg(id), e.1) && e.0 == j;
        assert e in r.chain;
      }
    }
  }

  lemma FirstRelaySigners(sch: Scheme, me: nat, item: Item)
    requires Sound(sch) && me < sch.n
    ensures Signers(sch, IdOf(item), FirstRelay(sch, me, item).chain) == {me}
  {
    var m := FirstRelay(sch, me, item);
    assert m.chain[0] in m.chain;
    assert sch.serverVerify(me, RelayMsg(IdOf(item)), m.chain[0].1);
  }

  lemma AbsorbDelivers(sch: Scheme, s: Server, round: nat, incoming: seq<Relay>, r: Relay)
    requires r in incoming && r.item.BatchItem? && BatchValid(sch, r.item.batch)
    requires |Signers(sch, IdOf(r.item), r.chain)| >= round
    ensures IdOf(r.item) in Absorb(sch, s, round, incoming).0.accepted
  {
    BatchDelivered(sch, s, round, Picked(incoming, true) + Picked(incoming, false), r);
  }

  lemma SignersAreServers(sch: Scheme, id: ItemId, chain: seq<(nat, Bytes)>)
    ensures forall j :: j in Signers(sch, id, chain) ==> j < sch.n
  {
  }
}
