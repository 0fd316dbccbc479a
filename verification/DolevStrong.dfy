/** The relay rounds over a whole network: authenticated broadcast of the servers' items.
    Faulty servers may send anything that does not forge an honest signature. */
module DolevStrong {
  import opened Basics
  import opened ClientSetTypes
  import opened SetServers
  import opened AbsorbFacts
  import opened ClientWindow

  /** One run of honest servers `honest`. Phase 0 is the close of the client window, phase
      `r` the r-th absorb; `ops(p)` is what server `p` did in its window and `noted(r, p)`
      the boot keys it read off ingress before absorb `r`. */
  datatype Run = Run(
    sch: Scheme,
    honest: set<nat>,
    faulty: set<nat>,
    ops: nat -> seq<ClientOp>,
    noted: (nat, nat) -> seq<(nat, Bytes)>,
    ins: (nat, nat) -> seq<Relay>,
    states: (nat, nat) -> Server,
    outs: (nat, nat) -> seq<Relay>)
  {
    function Last(): nat { RelayRounds(sch) }
  }

  function NoteAll(s: Server, notes: seq<(nat, Bytes)>): (t: Server)
    ensures t == s.(bulletins := t.bulletins)
  {
    if notes == [] then s
    else NoteBulletin(NoteAll(s, notes[..|notes| - 1]), notes[|notes| - 1].0, notes[|notes| - 1].1)
  }

  /** `id` went out under honest server `q`'s signature in some phase up to `r`. */
  ghost predicate Emitted(run: Run, r: nat, q: nat, id: ItemId)
    requires r <= run.Last() && q in run.honest
  {
    exists i: nat :: i <= r && Names(run.outs(i, q), id)
  }

  /** The state a server absorbs round `r` in. */
  function Before(run: Run, r: nat, p: nat): Server
    requires 1 <= r <= run.Last() && p in run.honest
  {
    NoteAll(run.states(r - 1, p), run.noted(r, p))
  }

  ghost predicate StartOk(run: Run, p: nat)
    requires p in run.honest
  {
    OriginateOp in run.ops(p) && RunOps(run.sch, p, run.ops(p)) == (run.states(0, p), run.outs(0, p))
  }

  ghost predicate StepOk(run: Run, r: nat, p: nat)
    requires 1 <= r <= run.Last() && p in run.honest
  {
    Absorb(run.sch, Before(run, r, p), r, run.ins(r, p)) == (run.states(r, p), run.outs(r, p))
  }

  /** Synchrony: what an honest server sends in one phase, every other has in the next. */
  ghost predicate DeliveryOk(run: Run, r: nat, p: nat, q: nat)
    requires 1 <= r <= run.Last() && p in run.honest && q in run.honest
  {
    p != q ==> forall m :: m in run.outs(r - 1, q) ==> m in run.ins(r, p)
  }

  /** A valid signature of an honest server on an item was made in an earlier phase. */
  ghost predicate ChainOk(run: Run, r: nat, m: Relay)
    requires 1 <= r <= run.Last()
  {
    forall q :: q in run.honest && q in Signers(run.sch, IdOf(m.item), m.chain) ==> Emitted(run, r - 1, q, IdOf(m.item))
  }

  /** A batch validly signed by an honest lane is that lane's one row. */
  ghost predicate RowOk(run: Run, item: Item)
  {
    (item.BatchItem? && BatchValid(run.sch, item.batch) && item.batch.server in run.honest) ==>
      item.batch.receipts == Row(run, item.batch.server)
  }

  /** The row honest lane `p` published. */
  function Row(run: Run, p: nat): seq<Receipt>
    requires p in run.honest
  {
    Receipts(run.states(0, p).held)
  }

  /** At most `n - k` servers are faulty. */
  ghost predicate FewFaults(run: Run) {
    && |run.faulty| <= run.sch.n - run.sch.k
    && (forall j: nat :: j in run.honest ==> j < run.sch.n)
    && (forall j: nat :: j < run.sch.n ==> j in run.honest || j in run.faulty)
  }

  ghost predicate Valid(run: Run) {
    && Sound(run.sch) && FewFaults(run)
    && (forall p {:trigger StartOk(run, p)} :: p in run.honest ==> StartOk(run, p))
    && (forall r: nat, p :: 1 <= r <= run.Last() && p in run.honest ==> StepOk(run, r, p))
    && (forall r: nat, p, q :: 1 <= r <= run.Last() && p in run.honest && q in run.honest ==> DeliveryOk(run, r, p, q))
    && (forall r: nat, p, m {:trigger ChainOk(run, r, m), m in run.ins(r, p)} ::
          1 <= r <= run.Last() && p in run.honest && m in run.ins(r, p) ==> ChainOk(run, r, m))
    && (forall r: nat, p, m {:trigger RowOk(run, m.item), m in run.ins(r, p)} ::
          1 <= r <= run.Last() && p in run.honest && m in run.ins(r, p) ==> RowOk(run, m.item))
  }

  // ---------------------------------------------------------------- accepted is signed is sent

  lemma Start(run: Run, p: nat)
    requires Valid(run) && p in run.honest
    ensures run.states(0, p).id == p && run.states(0, p).relaying
    ensures WindowInv(run.sch, run.states(0, p), run.outs(0, p))
  {
    assert StartOk(run, p);
    WindowHolds(run.sch, p, run.ops(p));
  }

  lemma Step(run: Run, r: nat, p: nat)
    requires Valid(run) && p in run.honest && 1 <= r <= run.Last()
    ensures var s, t := Before(run, r, p), run.states(r, p);
            && s.accepted == run.states(r - 1, p).accepted
            && SameClientSide(s, t)
            && s.accepted <= t.accepted
            && (forall id :: id in t.accepted <==> id in s.accepted || Names(run.outs(r, p), id))
  {
    assert StepOk(run, r, p);
    AbsorbFacts.AbsorbFacts(run.sch, Before(run, r, p), r, run.ins(r, p));
  }

  lemma ForwardedFrom(run: Run, r: nat, p: nat, m: Relay) returns (m0: Relay)
    requires Valid(run) && p in run.honest && 1 <= r <= run.Last() && m in run.outs(r, p)
    ensures m0 in run.ins(r, p) && m == Extend(run.sch, Before(run, r, p).id, m0)
    ensures Justified(run.sch, Before(run, r, p), run.states(r, p), r, m0)
  {
    assert StepOk(run, r, p);
    m0 := AbsorbForward(run.sch, Before(run, r, p), r, run.ins(r, p), m);
  }

  lemma NotYetSigned(run: Run, r: nat, p: nat, m0: Relay)
    requires Valid(run) && p in run.honest && 1 <= r <= run.Last() && m0 in run.ins(r, p)
    requires IdOf(m0.item) !in run.states(r - 1, p).accepted
    ensures p !in Signers(run.sch, IdOf(m0.item), m0.chain)
  {
    AcceptedIsEmitted(run, r - 1, p, IdOf(m0.item));
    assert ChainOk(run, r, m0);
  }

  /** What an honest server sends in a relay phase extends a relay it was sent, over an item
      it had not accepted and none of whose signatures is its own. */
  lemma Forwarded(run: Run, r: nat, p: nat, m: Relay) returns (m0: Relay)
    requires Valid(run) && p in run.honest && 1 <= r <= run.Last() && m in run.outs(r, p)
    ensures m0 in run.ins(r, p) && m == Extend(run.sch, p, m0)
    ensures Justified(run.sch, Before(run, r, p), run.states(r, p), r, m0)
    ensures p !in Signers(run.sch, IdOf(m0.item), m0.chain)
  {
    m0 := ForwardedFrom(run, r, p, m);
    SameServer(run, r - 1, p);
    NotYetSigned(run, r, p, m0);
  }

  lemma SameAcross(run: Run, r: nat, p: nat)
    requires Valid(run) && p in run.honest && 1 <= r <= run.Last()
    ensures run.states(r, p).id == run.states(r - 1, p).id && run.states(r, p).held == run.states(r - 1, p).held
  {
    Step(run, r, p);
  }

  lemma {:induction false} SameServer(run: Run, r: nat, p: nat)
    requires Valid(run) && p in run.honest && r <= run.Last()
    ensures run.states(r, p).id == p && run.states(r, p).held == run.states(0, p).held
  {
    if r == 0 {
      Start(run, p);
    } else {
      SameServer(run, r - 1, p);
      SameAcross(run, r, p);
    }
  }

  lemma EmittedSplit(run: Run, r: nat, p: nat, id: ItemId)
    requires p in run.honest && 1 <= r <= run.Last()
    ensures Emitted(run, r, p, id) <==> Emitted(run, r - 1, p, id) || Names(run.outs(r, p), id)
  {
    if Emitted(run, r - 1, p, id) {
      var i: nat :| i <= r - 1 && Names(run.outs(i, p), id);
      assert i <= r;
    }
    if Emitted(run, r, p, id) {
      var i: nat :| i <= r && Names(run.outs(i, p), id);
      assert i == r || i <= r - 1;
    }
  }

  lemma AcceptedAtStart(run: Run, p: nat, id: ItemId)
    requires Valid(run) && p in run.honest
    ensures id in run.states(0, p).accepted <==> Emitted(run, 0, p, id)
  {
    Start(run, p);
    EmittedFirst(run, p, id);
  }

  lemma EmittedFirst(run: Run, p: nat, id: ItemId)
    requires p in run.honest
    ensures Emitted(run, 0, p, id) <==> Names(run.outs(0, p), id)
  {
    if Emitted(run, 0, p, id) {
      var i: nat :| i <= 0 && Names(run.outs(i, p), id);
      assert i == 0;
    }
  }

  /** An honest server has accepted exactly what it has sent out under its signature. */
  lemma {:induction false} AcceptedIsEmitted(run: Run, r: nat, p: nat, id: ItemId)
    requires Valid(run) && p in run.honest && r <= run.Last()
    ensures id in run.states(r, p).accepted <==> Emitted(run, r, p, id)
  {
    if r == 0 {
      AcceptedAtStart(run, p, id);
    } else {
      AcceptedIsEmitted(run, r - 1, p, id);
      Step(run, r, p);
      EmittedSplit(run, r, p, id);
    }
  }

  /** Every relay an honest server sends in phase `r` carries at least `r + 1` signers. */
  lemma LongChain(run: Run, r: nat, p: nat, m: Relay)
    requires Valid(run) && p in run.honest && r <= run.Last() && m in run.outs(r, p)
    ensures |Signers(run.sch, IdOf(m.item), m.chain)| >= r + 1
    ensures m.item.BatchItem? ==> BatchValid(run.sch, m.item.batch)
  {
    if r == 0 {
      Start(run, p);
      assert WindowRelay(run.sch, run.states(0, p), m);
      FirstRelaySigners(run.sch, p, m.item);
    } else {
      var m0 := Forwarded(run, r, p, m);
      ExtendSigners(run.sch, p, m0);
    }
  }

  // ---------------------------------------------------------------- agreement

  /** What honest `q` sends about `id` in phase `r`, honest `p` has accepted in the next. */
  ghost predicate CarriedAt(run: Run, id: ItemId, r: nat, p: nat, q: nat) {
    r + 1 <= run.Last() && p in run.honest && q in run.honest && Names(run.outs(r, q), id) ==>
      id in run.states(r + 1, p).accepted
  }

  /** Whatever an honest server sends about `id`, every other honest server accepts next. */
  ghost predicate Carried(run: Run, id: ItemId) {
    forall r: nat, p, q :: CarriedAt(run, id, r, p, q)
  }

  lemma Absorbed(run: Run, r: nat, p: nat, m: Relay)
    requires Valid(run) && p in run.honest && 1 <= r <= run.Last() && m in run.ins(r, p)
    requires m.item.BatchItem? && BatchValid(run.sch, m.item.batch)
    requires |Signers(run.sch, IdOf(m.item), m.chain)| >= r
    ensures IdOf(m.item) in run.states(r, p).accepted
  {
    assert StepOk(run, r, p);
    AbsorbDelivers(run.sch, Before(run, r, p), r, run.ins(r, p), m);
  }

  lemma BatchReaches(run: Run, r: nat, p: nat, q: nat, m: Relay)
    requires Valid(run) && r + 1 <= run.Last() && p in run.honest && q in run.honest && p != q
    requires m in run.outs(r, q) && m.item.BatchItem?
    ensures IdOf(m.item) in run.states(r + 1, p).accepted
  {
    LongChain(run, r, q, m);
    assert DeliveryOk(run, r + 1, p, q);
    assert m in run.ins(r + 1, p);
    Absorbed(run, r + 1, p, m);
  }

  lemma OwnReaches(run: Run, r: nat, p: nat, id: ItemId)
    requires Valid(run) && r + 1 <= run.Last() && p in run.honest && Names(run.outs(r, p), id)
    ensures id in run.states(r + 1, p).accepted
  {
    assert Emitted(run, r, p, id);
    AcceptedIsEmitted(run, r, p, id);
    Step(run, r + 1, p);
  }

  lemma BatchCarried(run: Run, id: ItemId)
    requires Valid(run) && id.BatchId?
    ensures Carried(run, id)
  {
    forall r: nat, p, q ensures CarriedAt(run, id, r, p, q) { BatchCarriedAt(run, id, r, p, q); }
  }

  lemma BatchCarriedAt(run: Run, id: ItemId, r: nat, p: nat, q: nat)
    requires Valid(run) && id.BatchId?
    ensures CarriedAt(run, id, r, p, q)
  {
    if r + 1 <= run.Last() && p in run.honest && q in run.honest && Names(run.outs(r, q), id) {
      ReachesEveryone(run, r, p, q, id);
    }
  }

  lemma ReachesEveryone(run: Run, r: nat, p: nat, q: nat, id: ItemId)
    requires Valid(run) && id.BatchId? && r + 1 <= run.Last() && p in run.honest && q in run.honest
    requires Names(run.outs(r, q), id)
    ensures id in run.states(r + 1, p).accepted
  {
    if p == q {
      OwnReaches(run, r, p, id);
    } else {
      var m :| m in run.outs(r, q) && IdOf(m.item) == id;
      BatchReaches(run, r, p, q, m);
    }
  }

  lemma {:induction false} StaysAccepted(run: Run, i: nat, r: nat, p: nat, id: ItemId)
    requires Valid(run) && p in run.honest && i <= r <= run.Last()
    requires id in run.states(i, p).accepted
    ensures id in run.states(r, p).accepted
  {
    if i < r {
      StaysAccepted(run, i, r - 1, p, id);
      Step(run, r, p);
    }
  }

  /** More signers than there can be faulty servers include an honest one. */
  lemma HonestSigner(run: Run, signers: set<nat>) returns (q: nat)
    requires Valid(run)
    requires forall j :: j in signers ==> j < run.sch.n
    requires |signers| >= run.Last()
    ensures q in signers && q in run.honest
  {
    if signers * run.honest == {} {
      forall j | j in signers ensures j in run.faulty {
        assert j !in signers * run.honest;
      }
      SubsetSize(signers, run.faulty);
      assert false;
    }
    q :| q in signers * run.honest;
  }

  /** What goes out in the last phase has gone out before, under some honest signature. */
  lemma SentEarlier(run: Run, id: ItemId, p: nat) returns (i: nat, h: nat)
    requires Valid(run) && p in run.honest && Names(run.outs(run.Last(), p), id)
    ensures h in run.honest && i + 1 <= run.Last() && Names(run.outs(i, h), id)
  {
    var m :| m in run.outs(run.Last(), p) && IdOf(m.item) == id;
    var m0 := Forwarded(run, run.Last(), p, m);
    SignersAreServers(run.sch, id, m0.chain);
    h := HonestSigner(run, Signers(run.sch, id, m0.chain));
    assert ChainOk(run, run.Last(), m0);
    i :| i <= run.Last() - 1 && Names(run.outs(i, h), id);
  }

  lemma CarriedToTheEnd(run: Run, id: ItemId, i: nat, h: nat, q: nat)
    requires Valid(run) && Carried(run, id) && h in run.honest && q in run.honest
    requires i + 1 <= run.Last() && Names(run.outs(i, h), id)
    ensures id in run.states(run.Last(), q).accepted
  {
    assert CarriedAt(run, id, i, q, h);
    StaysAccepted(run, i + 1, run.Last(), q, id);
  }

  /** The Dolev-Strong argument: after `n - k + 1` rounds a carried item one honest server
      accepted has been accepted by all of them. */
  lemma CarriedAgreement(run: Run, id: ItemId, p: nat, q: nat)
    requires Valid(run) && Carried(run, id) && p in run.honest && q in run.honest
    requires id in run.states(run.Last(), p).accepted
    ensures id in run.states(run.Last(), q).accepted
  {
    AcceptedIsEmitted(run, run.Last(), p, id);
    var r: nat :| r <= run.Last() && Names(run.outs(r, p), id);
    if r < run.Last() {
      CarriedToTheEnd(run, id, r, p, q);
    } else {
      var i, h := SentEarlier(run, id, p);
      CarriedToTheEnd(run, id, i, h, q);
    }
  }

  /** Agreement: all honest servers end having accepted exactly the same batch items. */
  lemma Agreement(run: Run, p: nat, q: nat, server: nat, receipts: seq<Receipt>)
    requires Valid(run) && p in run.honest && q in run.honest
    ensures var last := run.Last();
            BatchId(server, receipts) in run.states(last, p).accepted <==> BatchId(server, receipts) in run.states(last, q).accepted
  {
    var id := BatchId(server, receipts);
    BatchCarried(run, id);
    if id in run.states(run.Last(), p).accepted { CarriedAgreement(run, id, p, q); }
    if id in run.states(run.Last(), q).accepted { CarriedAgreement(run, id, q, p); }
  }
}
