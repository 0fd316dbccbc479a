/** `SetServer` itself: a round's server, updated in place by the client window and the relay
    rounds, and finalized at the end. Every method is proved against its specification. */
module ClientSet {
  import opened Basics
  import opened ClientSetTypes
  import opened SetServers
  import opened Repair
  import opened Finalize

  lemma SignNext(sch: Scheme, id: nat, items: seq<Item>, i: nat)
    requires i < |items|
    ensures Ids(items[..i + 1]) == Ids(items[..i]) + {IdOf(items[i])}
    ensures FirstRelays(sch, id, items[..i + 1]) == FirstRelays(sch, id, items[..i]) + [FirstRelay(sch, id, items[i])]
  {
    assert items[..i + 1][..i] == items[..i];
  }

  class SetServer {
    const tools: Tools
    const sch: Scheme := tools.sch
    const id: nat
    var relaying: bool
    var accepted: set<ItemId>
    var held: map<nat, map<Bytes, Bundle>>
    var batches: map<nat, Batch>
    var fragments: map<nat, map<nat, Fragment>>
    var bulletins: map<nat, set<Bytes>>

    function State(): Server
      reads this
    {
      Server(id, relaying, accepted, held, batches, fragments, bulletins)
    }

    constructor (tools: Tools, id: nat)
      requires id < tools.sch.n
      ensures State() == NewServer(id) && this.tools == tools
    {
      this.tools, this.id := tools, id;
      relaying, accepted, held, batches, fragments, bulletins := false, {}, map[], map[], map[], map[];
    }

    method Note(client: nat, key: Bytes)
      modifies this
      ensures State() == NoteBulletin(old(State()), client, key)
    {
      if client !in bulletins { bulletins := bulletins[client := {}]; }
      bulletins := bulletins[client := bulletins[client] + {key}];
    }

    method ReceiveBundle(b: Bundle) returns (ok: bool)
      modifies this
      ensures (State(), ok) == Receive(sch, old(State()), b)
    {
      if relaying || b.lane != id || !BundleValid(sch, b) { return false; }
      var hash := sch.bundleHash(b);
      if b.client !in held { held := held[b.client := map[]]; }
      if |held[b.client]| >= MAX_BUNDLES && hash !in held[b.client] { return false; }
      held := held[b.client := held[b.client][hash := b]];
      assert held == Receive(sch, old(State()), b).0.held;
      return true;
    }

    method Store(f: Fragment) returns (novel: bool)
      modifies this
      ensures (State(), novel) == StoreOne(old(State()), f)
    {
      novel := !HoldsFragment(State(), f.client, f.idx);
      if f.client !in fragments { fragments := fragments[f.client := map[]]; }
      var mine: map<nat, Fragment> := fragments[f.client][f.idx := f];
      fragments := fragments[f.client := mine];
      assert fragments == PutFragment(old(State()), f).fragments;
      novel := novel && IdOf(FragmentItem(f)) !in accepted;
      if novel { accepted := accepted + {IdOf(FragmentItem(f))}; }
    }

    method TakeFragments(fs: seq<Fragment>) returns (novel: seq<Fragment>)
      modifies this
      ensures (State(), novel) == AcceptFragments(sch, old(State()), fs)
    {
      var vetted := Vetted(sch, State(), fs);
      novel := [];
      var i := 0;
      while i < |vetted|
        invariant 0 <= i <= |vetted|
        invariant (State(), novel) == StoreFragments(old(State()), vetted[..i])
      {
        assert vetted[..i + 1][..i] == vetted[..i];
        var isNew := Store(vetted[i]);
        if isNew { novel := novel + [vetted[i]]; }
        i := i + 1;
      }
      assert vetted[..i] == vetted;
    }

    method SubmitFragments(fs: seq<Fragment>) returns (out: seq<Relay>)
      modifies this
      ensures (State(), out) == Submit(sch, old(State()), fs)
    {
      var novel := TakeFragments(fs);
      out := FirstRelays(sch, id, FragmentItems(novel));
    }

    method SignItems(items: seq<Item>) returns (out: seq<Relay>)
      modifies this`accepted
      ensures accepted == old(accepted) + Ids(items)
      ensures out == FirstRelays(sch, id, items)
    {
      out := [];
      var i := 0;
      while i < |items|
        invariant 0 <= i <= |items|
        invariant accepted == old(accepted) + Ids(items[..i])
        invariant out == FirstRelays(sch, id, items[..i])
      {
        SignNext(sch, id, items, i);
        accepted := accepted + {IdOf(items[i])};
        out := out + [FirstRelay(sch, id, items[i])];
        i := i + 1;
      }
      assert items[..i] == items;
    }

    method OriginateRelays() returns (out: seq<Relay>)
      modifies this
      ensures (State(), out) == Originate(sch, old(State()))
    {
      var own := BatchOf(sch, State());
      var items := OriginateItems(sch, State());
      relaying := true;
      batches := batches[id := own];
      out := SignItems(items);
    }

    /** Counts distinct valid signers; a malleated or repeated signature adds nothing. */
    method ChainLen(item: ItemId, chain: seq<(nat, Bytes)>) returns (len: nat)
      ensures len == |Signers(sch, item, chain)|
    {
      var seen: set<nat> := {};
      var i := 0;
      while i < |chain|
        invariant 0 <= i <= |chain|
        invariant seen == Signers(sch, item, chain[..i])
      {
        var e := chain[i];
        assert chain[..i + 1] == chain[..i] + [e];
        if e.0 < sch.n && e.0 !in seen && sch.serverVerify(e.0, RelayMsg(item), e.1) {
          seen := seen + {e.0};
        }
        i := i + 1;
      }
      assert chain[..i] == chain;
      len := |seen|;
    }

    method AbsorbRelay(round: nat, r: Relay) returns (out: seq<Relay>)
      modifies this
      ensures (State(), out) == AbsorbOne(sch, old(State()), round, r)
    {
      out := [];
      var item := IdOf(r.item);
      var len := ChainLen(item, r.chain);
      if item in accepted || len < round { return; }
      match r.item {
        case BatchItem(b) =>
          if BatchValid(sch, b) {
            if b.server !in batches { batches := batches[b.server := b]; }
            accepted := accepted + {item};
          }
        case FragmentItem(f) =>
          var _ := TakeFragments([f]);
      }
      if item in accepted { out := [Extend(sch, id, r)]; }
    }

    method AbsorbRelays(round: nat, incoming: seq<Relay>) returns (out: seq<Relay>)
      modifies this
      ensures (State(), out) == Absorb(sch, old(State()), round, incoming)
    {
      var ordered := Picked(incoming, true) + Picked(incoming, false);
      out := [];
      var i := 0;
      while i < |ordered|
        invariant 0 <= i <= |ordered|
        invariant (State(), out) == AbsorbAll(sch, old(State()), round, ordered[..i])
      {
        assert ordered[..i + 1][..i] == ordered[..i];
        var more := AbsorbRelay(round, ordered[i]);
        out := out + more;
        i := i + 1;
      }
      assert ordered[..i] == ordered;
    }

    /** Where a client stands: one boot key or not, covered by every lane, rebuilt, or short. */
    method Stand(view: View, cid: nat) returns (st: Standing)
      requires view.bulletins == bulletins
      ensures st == StandingOf(tools, view, cid)
    {
      var posted := ReportedKey(bulletins, cid);
      if posted.None? { return Unkeyed(cid in bulletins && |bulletins[cid]| > 1); }
      var covered := Covered(view.matrix, cid, posted.value);
      var missing := Missing(sch.n, covered);
      if missing == [] { return Whole; }
      var pool := if cid in view.pool then view.pool[cid] else map[];
      var bundles := RebuildBundles(sch, tools.g, tools.e, pool, cid, posted.value, covered, missing);
      return if bundles.Some? then Repaired(bundles.value) else Short(missing);
    }

    /** One client's turn: in, out, or in at the price of more abstaining lanes. */
    method Admit(ghost d: Decision, cid: nat, st: Standing, tally: Tally) returns (r: Tally)
      requires TallyOf(id, tally, d) && cid !in d.repairs
      ensures TallyOf(id, r, JudgeBy(SatSub(sch.n, sch.k), d, cid, st))
    {
      r := tally;
      match st {
        case Unkeyed(conflict) =>
          if conflict { r := r.(conflicted := r.conflicted + [cid]); }
          r := r.(excluded := r.excluded + [cid]);
        case Whole =>
          r := r.(included := r.included + [cid]);
        case Repaired(bundles) =>
          var mine := LaneBundle(bundles, id);
          if mine.Some? { r := r.(rebuiltFor := r.rebuiltFor[cid := mine.value]); }
          r := r.(included := r.included + [cid]);
        case Short(missing) =>
          var cost := r.abstaining + Members(missing);
          if |cost| <= SatSub(sch.n, sch.k) {
            r := r.(abstaining := cost, included := r.included + [cid]);
          } else {
            r := r.(excluded := r.excluded + [cid]);
          }
      }
    }

    method DecideSet(view: View) returns (tally: Tally)
      requires view.bulletins == bulletins
      ensures TallyOf(id, tally, Decide(tools, view))
    {
      var clients := Clients(view);
      tally := Tally([], [], [], {}, map[]);
      var i := 0;
      ghost var d := Undecided;
      while i < |clients|
        invariant 0 <= i <= |clients| && d == JudgeAll(tools, view, clients[..i])
        invariant TallyOf(id, tally, d)
      {
        JudgeNext(tools, view, clients, i);
        var st := Stand(view, clients[i]);
        tally := Admit(d, clients[i], st, tally);
        d := JudgeBy(SatSub(sch.n, sch.k), d, clients[i], st);
        i := i + 1;
      }
      assert clients[..i] == clients;
    }

    /** Fixes the set from the agreed pool, then serves it from this lane. */
    method FinalizeSet() returns (out: SetRound)
      ensures out == FinalizeRound(tools, State())
    {
      var view := ViewOf(State());
      var tally := DecideSet(view);
      out := ServeSet(Decide(tools, view), tally);
    }

    method ServeSet(ghost d: Decision, tally: Tally) returns (out: SetRound)
      requires TallyOf(id, tally, d)
      ensures out == ServeAll(tools, State(), d, d.included)
    {
      var included, excluded, conflicted, rebuiltFor := tally.included, tally.excluded, tally.conflicted, tally.rebuiltFor;
      out := SetRound([], [], [], excluded, conflicted, []);
      var i := 0;
      while i < |included|
        invariant 0 <= i <= |included| && out == ServeAll(tools, State(), d, included[..i])
      {
        assert included[..i + 1][..i] == included[..i];
        var cid := included[i];
        var bundle: Option<Bundle>;
        out := out.(included := out.included + [cid]);
        if cid in rebuiltFor {
          out := out.(repaired := out.repaired + [cid]);
          bundle := Some(rebuiltFor[cid]);
        } else {
          bundle := OwnBundleOf(State(), cid);
        }
        if bundle.Some? {
          var opening := tools.unseal(cid, id, bundle.value.envelope);
          if opening.Some? { out := out.(openings := out.openings + [(cid, opening.value)]); }
          out := out.(lane := out.lane + [(cid, bundle.value.share, bundle.value.path)]);
        }
        i := i + 1;
      }
      assert included[..i] == included;
    }
  }

  /** The loop's running totals. */
  datatype Tally = Tally(
    included: seq<nat>, excluded: seq<nat>, conflicted: seq<nat>, abstaining: set<nat>, rebuiltFor: map<nat, Bundle>)

  ghost predicate TallyOf(lane: nat, t: Tally, d: Decision) {
    && t.included == d.included && t.excluded == d.excluded && t.conflicted == d.conflicted
    && t.abstaining == d.abstaining && RebuiltMatches(lane, t.rebuiltFor, d)
  }

  /** `rebuiltFor` is this lane's bundle of every client the decision rebuilt. */
  ghost predicate RebuiltMatches(lane: nat, rebuiltFor: map<nat, Bundle>, d: Decision) {
    forall c :: (c in rebuiltFor <==> c in d.repairs && LaneBundle(d.repairs[c], lane).Some?)
             && (c in rebuiltFor ==> LaneBundle(d.repairs[c], lane) == Some(rebuiltFor[c]))
  }
}
