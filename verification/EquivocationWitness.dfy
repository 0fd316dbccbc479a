/**
 * A run in which one faulty lane signs two rows: both are accepted everywhere, but each
 * honest server keeps the one it was sent first, and their matrices differ.
 */
module EquivocationWitness {
  import opened Basics
  import opened ClientSetTypes
  import opened SetServers
  import opened AbsorbFacts
  import opened ClientWindow
  import opened DolevStrong
  import opened AgreedPool
  import opened PlannedRuns

  // ---------------------------------------------------------------- a lane's row, once held

  predicate OfLane(r: Relay, lane: nat) { r.item.BatchItem? && r.item.batch.server == lane }

  /** Absorbing leaves a held row alone, and holds a new one only of a lane it was sent one of. */
  lemma AbsorbOneLane(sch: Scheme, s: Server, round: nat, r: Relay, lane: nat)
    ensures var t := AbsorbOne(sch, s, round, r).0;
            && (lane in s.batches ==> lane in t.batches && t.batches[lane] == s.batches[lane])
            && (!OfLane(r, lane) ==> (lane in t.batches <==> lane in s.batches))
  {
    TakeFacts(sch, s, r.item);
  }

  lemma {:induction false} AbsorbAllLane(sch: Scheme, s: Server, round: nat, rs: seq<Relay>, lane: nat)
    ensures var t := AbsorbAll(sch, s, round, rs).0;
            && (lane in s.batches ==> lane in t.batches && t.batches[lane] == s.batches[lane])
            && ((forall r :: r in rs ==> !OfLane(r, lane)) ==> (lane in t.batches <==> lane in s.batches))
    decreases |rs|
  {
    if rs != [] {
      var n := |rs| - 1;
      assert forall r :: r in rs[..n] ==> r in rs;
      assert rs[n] in rs;
      AbsorbAllLane(sch, s, round, rs[..n], lane);
      AbsorbOneLane(sch, AbsorbAll(sch, s, round, rs[..n]).0, round, rs[n], lane);
    }
  }

  /** The rest of a round changes no row held after its first `i` relays. */
  lemma {:induction false} AbsorbRest(sch: Scheme, s: Server, round: nat, rs: seq<Relay>, i: nat, n: nat, lane: nat)
    requires i <= n <= |rs| && lane in AbsorbAll(sch, s, round, rs[..i]).0.batches
    ensures lane in AbsorbAll(sch, s, round, rs[..n]).0.batches
    ensures AbsorbAll(sch, s, round, rs[..n]).0.batches[lane] == AbsorbAll(sch, s, round, rs[..i]).0.batches[lane]
    decreases n
  {
    if i < n {
      AbsorbRest(sch, s, round, rs, i, n - 1, lane);
      AbsorbNext(sch, s, round, rs, n - 1);
      AbsorbOneLane(sch, AbsorbAll(sch, s, round, rs[..n - 1]).0, round, rs[n - 1], lane);
    }
  }

  /** A valid batch on a long enough chain, of a lane not held yet and not accepted, is held. */
  lemma TakesRow(sch: Scheme, s: Server, round: nat, r: Relay, lane: nat)
    requires OfLane(r, lane) && BatchValid(sch, r.item.batch) && lane !in s.batches && IdOf(r.item) !in s.accepted
    requires |Signers(sch, IdOf(r.item), r.chain)| >= round
    ensures var t := AbsorbOne(sch, s, round, r).0; lane in t.batches && t.batches[lane] == r.item.batch
  {
  }

  // ---------------------------------------------------------------- the first row sent

  lemma {:induction false} PickedConcat(a: seq<Relay>, b: seq<Relay>, batches: bool)
    ensures Picked(a + b, batches) == Picked(a, batches) + Picked(b, batches)
  {
    if a == [] {
      assert a + b == b;
    } else {
      assert (a + b)[1..] == a[1..] + b;
      PickedConcat(a[1..], b, batches);
    }
  }

  lemma PickedTwo(x: Relay, y: Relay)
    requires x.item.BatchItem? && y.item.BatchItem?
    ensures Picked([x, y], true) == [x, y]
  {
    assert [x, y][1..] == [y] && [y][1..] == [];
    assert Picked([], true) == [] && Picked([y], true) == [y] + Picked([], true);
    assert Picked([x, y], true) == [x] + Picked([y], true);
  }

  lemma OrderIs(honest: seq<Relay>, x: Relay, y: Relay, order: seq<Relay>)
    requires x.item.BatchItem? && y.item.BatchItem?
    requires order == Picked(honest + [x, y], true) + Picked(honest + [x, y], false)
    ensures var i := |Picked(honest, true)|;
            i < |order| && order[i] == x && order[..i] == Picked(honest, true)
  {
    PickedConcat(honest, [x, y], true);
    PickedTwo(x, y);
  }

  /** Whoever is sent `x` and `y` after rows of other lanes holds `x`. */
  lemma HoldsFirst(sch: Scheme, s: Server, honest: seq<Relay>, x: Relay, y: Relay, lane: nat)
    requires OfLane(x, lane) && OfLane(y, lane) && BatchValid(sch, x.item.batch)
    requires forall r :: r in honest ==> !OfLane(r, lane)
    requires lane !in s.batches && |Signers(sch, IdOf(x.item), x.chain)| >= 1
    requires forall rs :: BatchId(lane, rs) !in s.accepted
    ensures var t := Absorb(sch, s, 1, honest + [x, y]).0; lane in t.batches && t.batches[lane] == x.item.batch
  {
    var order := Picked(honest + [x, y], true) + Picked(honest + [x, y], false);
    OrderIs(honest, x, y, order);
    var i := |Picked(honest, true)|;
    HoldsAt(sch, s, order, i, x, lane);
    assert order[..|order|] == order;
  }

  lemma HoldsAt(sch: Scheme, s: Server, order: seq<Relay>, i: nat, x: Relay, lane: nat)
    requires i < |order| && order[i] == x && forall r :: r in order[..i] ==> !OfLane(r, lane)
    requires OfLane(x, lane) && BatchValid(sch, x.item.batch) && lane !in s.batches && |Signers(sch, IdOf(x.item), x.chain)| >= 1
    requires forall rs :: BatchId(lane, rs) !in s.accepted
    ensures var t := AbsorbAll(sch, s, 1, order[..|order|]).0; lane in t.batches && t.batches[lane] == x.item.batch
  {
    var mid := AbsorbAll(sch, s, 1, order[..i]).0;
    AbsorbAllLane(sch, s, 1, order[..i], lane);
    NotAccepted(sch, s, order[..i], lane, x);
    TakesRow(sch, mid, 1, x, lane);
    AbsorbNext(sch, s, 1, order, i);
    AbsorbRest(sch, s, 1, order, i + 1, |order|, lane);
  }

  lemma NotAccepted(sch: Scheme, s: Server, before: seq<Relay>, lane: nat, x: Relay)
    requires (forall r :: r in before ==> !OfLane(r, lane)) && OfLane(x, lane) && lane !in s.batches
    requires forall rs :: BatchId(lane, rs) !in s.accepted
    ensures IdOf(x.item) !in AbsorbAll(sch, s, 1, before).0.accepted
  {
    AbsorbAllFacts(sch, s, 1, before);
    var (t, out) := AbsorbAll(sch, s, 1, before);
    forall m | m in out ensures IdOf(m.item) != IdOf(x.item) {
      assert ForwardOf(sch, s, t, 1, before, m);
      var r :| r in before && m == Extend(sch, s.id, r);
    }
  }

  // ---------------------------------------------------------------- the plan

  /** Lane `f`'s row, signed and sent by itself. */
  function RowRelay(sch: Scheme, f: nat, rs: seq<Receipt>): Relay {
    FirstRelay(sch, f, BatchItem(Batch(f, rs, sch.serverSign(f, BatchMsg(f, rs)))))
  }

  /** Every honest server only originates; lane `f` sends both rows to all, in one order to server 0, in the other to the rest. */
  function TwoRows(sch: Scheme, f: nat, rs: seq<Receipt>, qs: seq<Receipt>): Plan {
    Plan((p: nat) => [OriginateOp], (r: nat, p: nat) => [], {f},
         (r: nat, p: nat) =>
           if r != 1 then []
           else if p == 0 then [RowRelay(sch, f, rs), RowRelay(sch, f, qs)] else [RowRelay(sch, f, qs), RowRelay(sch, f, rs)])
  }

  lemma RowRelayIs(sch: Scheme, f: nat, rs: seq<Receipt>)
    requires Sound(sch) && f < sch.n
    ensures var x := RowRelay(sch, f, rs);
            && OfLane(x, f) && x.item.batch.receipts == rs && BatchValid(sch, x.item.batch) && Alien({f}, x)
            && |Signers(sch, IdOf(x.item), x.chain)| == 1
  {
    var x := RowRelay(sch, f, rs);
    FirstRelaySigners(sch, f, x.item);
    assert |{f}| == 1;
    assert forall e :: e in x.chain ==> e == x.chain[0];
  }

  lemma TwoRowsPlayable(sch: Scheme, f: nat, rs: seq<Receipt>, qs: seq<Receipt>)
    requires Sound(sch) && sch.k < sch.n && f < sch.n
    ensures Playable(sch, TwoRows(sch, f, rs, qs))
  {
    var plan := TwoRows(sch, f, rs, qs);
    RowRelayIs(sch, f, rs);
    RowRelayIs(sch, f, qs);
    assert |{f}| == 1;
    assert [OriginateOp][0] == OriginateOp;
    forall r: nat, p: nat, x | x in plan.extra(r, p) ensures Alien(plan.faulty, x) {
      assert x == RowRelay(sch, f, rs) || x == RowRelay(sch, f, qs);
    }
  }

  // ---------------------------------------------------------------- the run

  /** The honest server starts with its own row alone. */
  lemma StartsOwn(run: Run, f: nat, p: nat)
    requires Valid(run) && p in run.honest && f != p
    ensures f !in run.states(0, p).batches
    ensures forall rs :: BatchId(f, rs) !in run.states(0, p).accepted
    ensures forall m :: m in run.outs(0, p) ==> !OfLane(m, f)
  {
    Start(run, p);
    var s := run.states(0, p);
    forall m | m in run.outs(0, p) ensures !OfLane(m, f) { assert WindowRelay(run.sch, s, m); }
    forall rs ensures BatchId(f, rs) !in s.accepted {
      assert BatchId(f, rs) in s.accepted <==> Names(run.outs(0, p), BatchId(f, rs));
    }
  }

  /** Server `p` is sent what honest servers sent, then `x`, then `y`. */
  ghost predicate SentBoth(run: Run, f: nat, p: nat, honest: seq<Relay>, x: Relay, y: Relay) {
    && run.ins(1, p) == honest + [x, y] && OfLane(x, f) && OfLane(y, f) && BatchValid(run.sch, x.item.batch)
    && |Signers(run.sch, IdOf(x.item), x.chain)| >= 1
    && forall m :: m in honest ==> exists q :: q in run.honest && q != f && m in run.outs(0, q)
  }

  lemma KeepsFirst(run: Run, f: nat, p: nat, honest: seq<Relay>, x: Relay, y: Relay)
    requires Valid(run) && p in run.honest && f != p && run.noted(1, p) == [] && SentBoth(run, f, p, honest, x, y)
    ensures f in run.states(1, p).batches && run.states(1, p).batches[f] == x.item.batch
  {
    StartsOwn(run, f, p);
    forall m | m in honest ensures !OfLane(m, f) {
      var q :| q in run.honest && q != f && m in run.outs(0, q);
      StartsOwn(run, f, q);
    }
    assert Before(run, 1, p) == run.states(0, p);
    HoldsFirst(run.sch, run.states(0, p), honest, x, y, f);
    StepIs(run, 1, p);
  }

  lemma AbsorbLane(sch: Scheme, s: Server, round: nat, incoming: seq<Relay>, lane: nat)
    requires lane in s.batches
    ensures var t := Absorb(sch, s, round, incoming).0; lane in t.batches && t.batches[lane] == s.batches[lane]
  {
    AbsorbAllLane(sch, s, round, Picked(incoming, true) + Picked(incoming, false), lane);
  }

  lemma RowStays(run: Run, r: nat, p: nat, f: nat)
    requires Valid(run) && p in run.honest && r + 1 <= run.Last() && f in run.states(r, p).batches
    ensures f in run.states(r + 1, p).batches && run.states(r + 1, p).batches[f] == run.states(r, p).batches[f]
  {
    AbsorbLane(run.sch, Before(run, r + 1, p), r + 1, run.ins(r + 1, p), f);
    StepIs(run, r + 1, p);
  }

  lemma {:induction false} RowForGood(run: Run, r: nat, p: nat, f: nat)
    requires Valid(run) && p in run.honest && 1 <= r <= run.Last() && f in run.states(1, p).batches
    ensures f in run.states(r, p).batches && run.states(r, p).batches[f] == run.states(1, p).batches[f]
  {
    if r > 1 {
      var e: nat := r - 1;
      RowForGood(run, e, p, f);
      RowStays(run, e, p, f);
    }
  }

  lemma EndsWithFirst(run: Run, f: nat, p: nat, honest: seq<Relay>, x: Relay, y: Relay)
    requires Valid(run) && p in run.honest && f != p && run.noted(1, p) == [] && SentBoth(run, f, p, honest, x, y)
    ensures var m := Matrix(run.states(run.Last(), p)); f in m && m[f] == x.item.batch.receipts
  {
    KeepsFirst(run, f, p, honest, x, y);
    RowForGood(run, run.Last(), p, f);
  }

  lemma PlannedIns(sch: Scheme, plan: Plan, phases: nat -> Phase, p: nat)
    ensures var run := RunOf(sch, plan, phases);
            run.ins(1, p) == Gather(Outs(plan.faulty, phases(0)), sch.n) + plan.extra(1, p)
            && forall q: nat :: run.outs(0, q) == phases(0)(q).1
  {
  }

  lemma GatheredFrom(run: Run, plan: Plan, prev: Phase, m: Relay)
    requires OthersHonest(run, plan) && (forall q: nat :: run.outs(0, q) == prev(q).1)
    requires m in Gather(Outs(plan.faulty, prev), run.sch.n)
    ensures exists q :: q in run.honest && q !in plan.faulty && m in run.outs(0, q)
  {
    GatherHas(Outs(plan.faulty, prev), run.sch.n, m);
    var q: nat :| q < run.sch.n && From(Outs(plan.faulty, prev), q, m);
    assert q in run.honest && m in run.outs(0, q);
  }

  lemma PlannedSends(sch: Scheme, plan: Plan, phases: nat -> Phase, f: nat, p: nat, x: Relay, y: Relay)
    requires |plan.faulty| <= sch.n - sch.k && plan.faulty == {f} && plan.extra(1, p) == [x, y]
    requires OfLane(x, f) && OfLane(y, f) && BatchValid(sch, x.item.batch) && |Signers(sch, IdOf(x.item), x.chain)| >= 1
    ensures SentBoth(RunOf(sch, plan, phases), f, p, Gather(Outs(plan.faulty, phases(0)), sch.n), x, y)
  {
    var run, honest := RunOf(sch, plan, phases), Gather(Outs(plan.faulty, phases(0)), sch.n);
    OthersAreHonest(sch, plan, phases);
    PlannedIns(sch, plan, phases, p);
    forall m | m in honest ensures exists q :: q in run.honest && q != f && m in run.outs(0, q) {
      GatheredFrom(run, plan, phases(0), m);
    }
  }

  lemma ServerEnds(sch: Scheme, f: nat, rs: seq<Receipt>, qs: seq<Receipt>, p: nat)
    requires Sound(sch) && sch.k < sch.n && f < sch.n && p < sch.n && p != f
    ensures var run := Planned(sch, TwoRows(sch, f, rs, qs));
            var m := Matrix(run.states(run.Last(), p));
            p in run.honest && f in m && m[f] == if p == 0 then rs else qs
  {
    var plan := TwoRows(sch, f, rs, qs);
    TwoRowsPlayable(sch, f, rs, qs);
    PlannedIsValid(sch, plan);
    PlannedIs(sch, plan);
    RowRelayIs(sch, f, rs);
    RowRelayIs(sch, f, qs);
    var (x, y) := (RowRelay(sch, f, if p == 0 then rs else qs), RowRelay(sch, f, if p == 0 then qs else rs));
    PlannedSends(sch, plan, Phases(sch, plan), f, p, x, y);
    EndsWithFirst(Planned(sch, plan), f, p, Gather(Outs(plan.faulty, Phases(sch, plan)(0)), sch.n), x, y);
  }

  /**
   * One faulty lane signs two different rows and sends both to everyone, in one order to
   * server 0 and in the other to server 1. The run is valid with that one fault, and the
   * two servers end with different matrices. So `MatrixAgreement` does need one accepted
   * row a lane.
   */
  lemma TwoRowsSplit(sch: Scheme, f: nat, rs: seq<Receipt>, qs: seq<Receipt>)
    requires Sound(sch) && sch.k < sch.n && 2 <= f < sch.n && rs != qs
    ensures var run := Planned(sch, TwoRows(sch, f, rs, qs));
            && Valid(run) && run.faulty == {f} && 0 in run.honest && 1 in run.honest
            && Matrix(run.states(run.Last(), 0)) != Matrix(run.states(run.Last(), 1)) && !OneRowEach(run)
  {
    var run := Planned(sch, TwoRows(sch, f, rs, qs));
    TwoRowsPlayable(sch, f, rs, qs);
    PlannedIsValid(sch, TwoRows(sch, f, rs, qs));
    PlannedIs(sch, TwoRows(sch, f, rs, qs));
    ServerEnds(sch, f, rs, qs, 0);
    ServerEnds(sch, f, rs, qs, 1);
    if OneRowEach(run) { MatrixAgreement(run, 0, 1); }
  }
}
