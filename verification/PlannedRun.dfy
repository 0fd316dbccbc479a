/**
 * Runs on demand: honest servers follow a plan and are sent everything the others send,
 * together with whatever the plan lets faulty servers say under their own signatures.
 */
module PlannedRuns {
  import opened Basics
  import opened ClientSetTypes
  import opened SetServers
  import opened AbsorbFacts
  import opened ClientWindow
  import opened DolevStrong

  /** What each server does in its window, the boot keys it notes before each absorb, which
      servers are faulty, and what those send to whom in each round. */
  datatype Plan = Plan(
    ops: nat -> seq<ClientOp>,
    noted: (nat, nat) -> seq<(nat, Bytes)>,
    faulty: set<nat>,
    extra: (nat, nat) -> seq<Relay>)

  /** A plan without faults. */
  function Clean(ops: nat -> seq<ClientOp>, noted: (nat, nat) -> seq<(nat, Bytes)>): Plan {
    Plan(ops, noted, {}, (r: nat, p: nat) => [])
  }

  /** Everything servers `0..m` sent. */
  function Gather(outs: nat -> seq<Relay>, m: nat): seq<Relay> {
    if m == 0 then [] else Gather(outs, m - 1) + outs(m - 1)
  }

  ghost predicate From(outs: nat -> seq<Relay>, q: nat, x: Relay) { x in outs(q) }

  lemma {:induction false} GatherHas(outs: nat -> seq<Relay>, m: nat, x: Relay)
    ensures x in Gather(outs, m) <==> exists q: nat :: q < m && From(outs, q, x)
  {
    if m > 0 {
      GatherHas(outs, m - 1, x);
      if From(outs, m - 1, x) {
        assert m - 1 < m;
      }
      if q: nat :| q < m && From(outs, q, x) {
        assert q < m - 1 || q == m - 1;
      }
    }
  }

  type Phase = nat -> (Server, seq<Relay>)

  /** What the honest servers sent in a phase. */
  function Outs(faulty: set<nat>, prev: Phase): nat -> seq<Relay> { (q: nat) => if q in faulty then [] else prev(q).1 }

  function Incoming(sch: Scheme, plan: Plan, r: nat, p: nat, prev: Phase): seq<Relay> {
    Gather(Outs(plan.faulty, prev), sch.n) + plan.extra(r, p)
  }

  function NextPhase(sch: Scheme, plan: Plan, r: nat, prev: Phase): Phase {
    (p: nat) => Absorb(sch, NoteAll(prev(p).0, plan.noted(r, p)), r, Incoming(sch, plan, r, p, prev))
  }

  function PhaseAt(sch: Scheme, plan: Plan, r: nat): Phase {
    if r == 0 then (p: nat) => RunOps(sch, p, plan.ops(p)) else NextPhase(sch, plan, r, PhaseAt(sch, plan, r - 1))
  }

  /** The run whose phases are `phases`. */
  ghost function RunOf(sch: Scheme, plan: Plan, phases: nat -> Phase): Run {
    Run(sch, Range(sch.n) - plan.faulty, plan.faulty, plan.ops, plan.noted,
        (r: nat, p: nat) => if r >= 1 then Incoming(sch, plan, r, p, phases(r - 1)) else [],
        (r: nat, p: nat) => phases(r)(p).0,
        (r: nat, p: nat) => phases(r)(p).1)
  }

  function Phases(sch: Scheme, plan: Plan): nat -> Phase { (r: nat) => PhaseAt(sch, plan, r) }

  /** The run that follows the plan. */
  ghost function Planned(sch: Scheme, plan: Plan): Run { RunOf(sch, plan, Phases(sch, plan)) }

  // ---------------------------------------------------------------- closed runs

  /** A relay reaches everyone in the phase after an honest server sent it; besides, what the plan adds. */
  ghost predicate Delivered(run: Run, plan: Plan, r: nat, p: nat, x: Relay)
    requires r >= 1
  {
    x in run.ins(r, p) <==> (exists q :: q in run.honest && x in run.outs(r - 1, q)) || x in plan.extra(r, p)
  }

  /** The honest servers are all but the faulty ones, and those are few enough. */
  ghost predicate OthersHonest(run: Run, plan: Plan) {
    && run.faulty == plan.faulty && |plan.faulty| <= run.sch.n - run.sch.k
    && forall j: nat :: j in run.honest <==> j < run.sch.n && j !in plan.faulty
  }

  /** A faulty server's own word: signed by faulty servers only, and no honest lane's row. */
  predicate Alien(faulty: set<nat>, x: Relay) {
    (forall e :: e in x.chain ==> e.0 in faulty) && (x.item.BatchItem? ==> x.item.batch.server in faulty)
  }

  ghost predicate Unforged(plan: Plan) {
    forall r: nat, p: nat, x :: x in plan.extra(r, p) ==> Alien(plan.faulty, x)
  }

  /** Honest servers take their steps, and are sent just that. */
  ghost predicate Closed(run: Run, plan: Plan) {
    && Sound(run.sch) && OthersHonest(run, plan) && Unforged(plan)
    && (forall p {:trigger StartOk(run, p)} :: p in run.honest ==> StartOk(run, p))
    && (forall r: nat, p :: 1 <= r <= run.Last() && p in run.honest ==> StepOk(run, r, p))
    && (forall r: nat, p, x :: 1 <= r <= run.Last() && p in run.honest ==> Delivered(run, plan, r, p, x))
  }

  lemma ClosedStep(run: Run, plan: Plan, r: nat, p: nat)
    requires Closed(run, plan) && 1 <= r <= run.Last() && p in run.honest
    ensures SameClientSide(Before(run, r, p), run.states(r, p))
    ensures Before(run, r, p).id == run.states(r - 1, p).id
  {
    assert StepOk(run, r, p);
    AbsorbFacts.AbsorbFacts(run.sch, Before(run, r, p), r, run.ins(r, p));
  }

  lemma ClosedStart(run: Run, plan: Plan, p: nat)
    requires Closed(run, plan) && p in run.honest
    ensures run.states(0, p).id == p && WindowInv(run.sch, run.states(0, p), run.outs(0, p))
  {
    assert StartOk(run, p);
    WindowHolds(run.sch, p, run.ops(p));
  }

  lemma {:induction false} ClosedSelf(run: Run, plan: Plan, r: nat, p: nat)
    requires Closed(run, plan) && r <= run.Last() && p in run.honest
    ensures run.states(r, p).id == p
  {
    if r == 0 {
      StartSelf(run, plan, p);
    } else {
      ClosedSelf(run, plan, r - 1, p);
      StepSelf(run, plan, r, p);
    }
  }

  lemma StartSelf(run: Run, plan: Plan, p: nat)
    requires Closed(run, plan) && p in run.honest
    ensures run.states(0, p).id == p
  {
    ClosedStart(run, plan, p);
  }

  lemma StepSelf(run: Run, plan: Plan, r: nat, p: nat)
    requires Closed(run, plan) && 1 <= r <= run.Last() && p in run.honest
    ensures run.states(r, p).id == run.states(r - 1, p).id
  {
    ClosedStep(run, plan, r, p);
  }

  /** A forward extends something the server was sent. */
  lemma ClosedForward(run: Run, plan: Plan, r: nat, p: nat, m: Relay) returns (m0: Relay)
    requires Closed(run, plan) && 1 <= r <= run.Last() && p in run.honest && m in run.outs(r, p)
    ensures m0 in run.ins(r, p) && m == Extend(run.sch, p, m0)
  {
    assert StepOk(run, r, p);
    ClosedSelf(run, plan, r, p);
    ClosedStep(run, plan, r, p);
    m0 := AbsorbForward(run.sch, Before(run, r, p), r, run.ins(r, p), m);
  }

  /** An honest signature in the chain was made by then; an honest lane's batch is its own row. */
  ghost predicate Authored(run: Run, r: nat, m: Relay)
    requires r <= run.Last()
  {
    && (forall e :: e in m.chain && e.0 in run.honest ==> Emitted(run, r, e.0, IdOf(m.item)))
    && (m.item.BatchItem? && m.item.batch.server in run.honest ==> m.item.batch.receipts == Row(run, m.item.batch.server))
  }

  lemma AlienAuthored(run: Run, plan: Plan, r: nat, m: Relay)
    requires OthersHonest(run, plan) && r <= run.Last() && Alien(plan.faulty, m)
    ensures Authored(run, r, m)
  {
    assert forall e :: e in m.chain ==> e.0 !in run.honest;
  }

  lemma WindowAuthored(run: Run, plan: Plan, p: nat, m: Relay)
    requires Closed(run, plan) && p in run.honest && m in run.outs(0, p)
    ensures Authored(run, 0, m)
  {
    ClosedStart(run, plan, p);
    FirstAuthored(run, p, m, run.states(0, p));
  }

  lemma FirstAuthored(run: Run, p: nat, m: Relay, s: Server)
    requires p in run.honest && m in run.outs(0, p) && s == run.states(0, p) && s.id == p && WindowRelay(run.sch, s, m)
    ensures Authored(run, 0, m)
  {
    assert Names(run.outs(0, p), IdOf(m.item));
    forall e | e in m.chain && e.0 in run.honest ensures Emitted(run, 0, e.0, IdOf(m.item)) {
      assert e == ChainEntry(run.sch, p, IdOf(m.item));
    }
  }

  lemma ForwardAuthored(run: Run, r: nat, p: nat, m0: Relay, m: Relay)
    requires 1 <= r <= run.Last() && p in run.honest && Authored(run, r - 1, m0)
    requires m == Extend(run.sch, p, m0) && m in run.outs(r, p)
    ensures Authored(run, r, m)
  {
    var id := IdOf(m.item);
    assert Names(run.outs(r, p), id);
    forall e | e in m.chain && e.0 in run.honest ensures Emitted(run, r, e.0, id) {
      if e in m0.chain {
        EmittedSplit(run, r, e.0, id);
      } else {
        assert e == ChainEntry(run.sch, p, id);
      }
    }
  }

  lemma {:induction false} AllAuthored(run: Run, plan: Plan, r: nat, p: nat, m: Relay)
    requires Closed(run, plan) && r <= run.Last() && p in run.honest && m in run.outs(r, p)
    ensures Authored(run, r, m)
    decreases r, 0
  {
    if r == 0 {
      WindowAuthored(run, plan, p, m);
    } else {
      var m0 := ClosedForward(run, plan, r, p, m);
      InsAuthored(run, plan, r - 1, p, m0);
      ForwardAuthored(run, r, p, m0, m);
    }
  }

  lemma {:induction false} InsAuthored(run: Run, plan: Plan, r: nat, p: nat, m: Relay)
    requires Closed(run, plan) && r + 1 <= run.Last() && p in run.honest && m in run.ins(r + 1, p)
    ensures Authored(run, r, m)
    decreases r, 1
  {
    if m in plan.extra(r + 1, p) {
      AlienAuthored(run, plan, r, m);
    } else {
      var q := Sender(run, plan, r, p, m);
      AllAuthored(run, plan, r, q, m);
    }
  }

  lemma Sender(run: Run, plan: Plan, r: nat, p: nat, m: Relay) returns (q: nat)
    requires Closed(run, plan) && r + 1 <= run.Last() && p in run.honest && m in run.ins(r + 1, p) && m !in plan.extra(r + 1, p)
    ensures q in run.honest && m in run.outs(r, q)
  {
    assert Delivered(run, plan, r + 1, p, m);
    q :| q in run.honest && m in run.outs(r, q);
  }

  lemma AuthoredOk(run: Run, r: nat, m: Relay)
    requires r + 1 <= run.Last() && Authored(run, r, m)
    ensures ChainOk(run, r + 1, m) && RowOk(run, m.item)
  {
  }

  lemma ClosedSignatures(run: Run, plan: Plan, r: nat, p: nat, m: Relay)
    requires Closed(run, plan) && 1 <= r <= run.Last() && p in run.honest && m in run.ins(r, p)
    ensures ChainOk(run, r, m) && RowOk(run, m.item)
  {
    InsAuthored(run, plan, r - 1, p, m);
    AuthoredOk(run, r - 1, m);
  }

  lemma ClosedDelivery(run: Run, plan: Plan, r: nat, p: nat, q: nat)
    requires Closed(run, plan) && 1 <= r <= run.Last() && p in run.honest && q in run.honest
    ensures DeliveryOk(run, r, p, q)
  {
    forall m | m in run.outs(r - 1, q) ensures m in run.ins(r, p) {
      assert Delivered(run, plan, r, p, m);
    }
  }

  lemma ClosedIsValid(run: Run, plan: Plan)
    requires Closed(run, plan)
    ensures Valid(run)
  {
    forall r: nat, p, q | 1 <= r <= run.Last() && p in run.honest && q in run.honest ensures DeliveryOk(run, r, p, q) {
      ClosedDelivery(run, plan, r, p, q);
    }
    forall r: nat, p, m | 1 <= r <= run.Last() && p in run.honest && m in run.ins(r, p)
      ensures ChainOk(run, r, m) && RowOk(run, m.item)
    {
      ClosedSignatures(run, plan, r, p, m);
    }
  }

  // ---------------------------------------------------------------- they exist

  /** The run's phase `r` is `cur`, its phase before `prev`. */
  ghost predicate Follows(run: Run, plan: Plan, r: nat, prev: Phase, cur: Phase) {
    IsPhase(run, r, cur) && (r >= 1 ==> IsPhase(run, r - 1, prev) && IsSent(run, plan, r, prev))
  }

  ghost predicate IsPhase(run: Run, r: nat, cur: Phase) {
    forall q: nat :: run.states(r, q) == cur(q).0 && run.outs(r, q) == cur(q).1
  }

  ghost predicate IsSent(run: Run, plan: Plan, r: nat, prev: Phase) {
    forall q: nat :: run.ins(r, q) == Incoming(run.sch, plan, r, q, prev)
  }

  lemma RunPhase(sch: Scheme, plan: Plan, phases: nat -> Phase, r: nat)
    ensures IsPhase(RunOf(sch, plan, phases), r, phases(r))
  {
  }

  lemma RunSent(sch: Scheme, plan: Plan, phases: nat -> Phase, r: nat)
    requires r >= 1
    ensures IsSent(RunOf(sch, plan, phases), plan, r, phases(r - 1))
  {
  }

  lemma RunFollows(sch: Scheme, plan: Plan, phases: nat -> Phase, r: nat, prev: Phase, cur: Phase)
    requires cur == phases(r) && (r >= 1 ==> prev == phases(r - 1))
    ensures Follows(RunOf(sch, plan, phases), plan, r, prev, cur)
  {
    RunPhase(sch, plan, phases, r);
    if r >= 1 {
      RunPhase(sch, plan, phases, r - 1);
      RunSent(sch, plan, phases, r);
    }
  }

  lemma PhaseNext(sch: Scheme, plan: Plan, r: nat)
    requires r >= 1
    ensures Phases(sch, plan)(r) == NextPhase(sch, plan, r, Phases(sch, plan)(r - 1))
  {
  }

  lemma PhaseFirst(sch: Scheme, plan: Plan, p: nat)
    ensures Phases(sch, plan)(0)(p) == RunOps(sch, p, plan.ops(p))
  {
  }

  lemma GatherDelivers(run: Run, plan: Plan, r: nat, p: nat, x: Relay, prev: Phase, cur: Phase)
    requires r >= 1 && OthersHonest(run, plan) && Follows(run, plan, r, prev, cur)
    ensures Delivered(run, plan, r, p, x)
  {
    var outs := Outs(plan.faulty, prev);
    GatherHas(outs, run.sch.n, x);
    if q: nat :| q < run.sch.n && From(outs, q, x) {
      assert q in run.honest && x in run.outs(r - 1, q);
    }
    if q :| q in run.honest && x in run.outs(r - 1, q) {
      assert From(outs, q, x);
    }
  }

  lemma NextSteps(run: Run, plan: Plan, r: nat, p: nat, prev: Phase, cur: Phase)
    requires 1 <= r <= run.Last() && p in run.honest && run.noted == plan.noted
    requires cur == NextPhase(run.sch, plan, r, prev) && Follows(run, plan, r, prev, cur)
    ensures StepOk(run, r, p)
  {
  }

  lemma OthersAreHonest(sch: Scheme, plan: Plan, phases: nat -> Phase)
    requires |plan.faulty| <= sch.n - sch.k
    ensures OthersHonest(RunOf(sch, plan, phases), plan)
  {
  }

  lemma PlannedIs(sch: Scheme, plan: Plan)
    requires |plan.faulty| <= sch.n - sch.k
    ensures var run := Planned(sch, plan);
            run.sch == sch && run.faulty == plan.faulty && run.ops == plan.ops && run.noted == plan.noted
            && forall j: nat :: j in run.honest <==> j < sch.n && j !in plan.faulty
  {
    OthersAreHonest(sch, plan, Phases(sch, plan));
  }

  /** Few enough faulty servers, who forge nothing; every honest server originates. */
  ghost predicate Playable(sch: Scheme, plan: Plan) {
    && Sound(sch) && |plan.faulty| <= sch.n - sch.k && Unforged(plan)
    && forall p: nat :: p < sch.n && p !in plan.faulty ==> OriginateOp in plan.ops(p)
  }

  lemma PlannedDelivers(sch: Scheme, plan: Plan, phases: nat -> Phase, r: nat, p: nat, x: Relay)
    requires r >= 1 && |plan.faulty| <= sch.n - sch.k
    ensures Delivered(RunOf(sch, plan, phases), plan, r, p, x)
  {
    RunFollows(sch, plan, phases, r, phases(r - 1), phases(r));
    OthersAreHonest(sch, plan, phases);
    GatherDelivers(RunOf(sch, plan, phases), plan, r, p, x, phases(r - 1), phases(r));
  }

  lemma PlannedSteps(sch: Scheme, plan: Plan, phases: nat -> Phase, r: nat, p: nat)
    requires 1 <= r <= RunOf(sch, plan, phases).Last() && p in RunOf(sch, plan, phases).honest
    requires phases(r) == NextPhase(sch, plan, r, phases(r - 1))
    ensures StepOk(RunOf(sch, plan, phases), r, p)
  {
    RunFollows(sch, plan, phases, r, phases(r - 1), phases(r));
    NextSteps(RunOf(sch, plan, phases), plan, r, p, phases(r - 1), phases(r));
  }

  lemma PlannedStarts(sch: Scheme, plan: Plan, phases: nat -> Phase, p: nat)
    requires p in RunOf(sch, plan, phases).honest && OriginateOp in plan.ops(p)
    requires phases(0)(p) == RunOps(sch, p, plan.ops(p))
    ensures StartOk(RunOf(sch, plan, phases), p)
  {
    RunFollows(sch, plan, phases, 0, phases(0), phases(0));
  }

  /** Every such plan gives a valid run. */
  lemma PlannedIsValid(sch: Scheme, plan: Plan)
    requires Playable(sch, plan)
    ensures Closed(Planned(sch, plan), plan) && Valid(Planned(sch, plan))
  {
    var phases := Phases(sch, plan);
    forall p | p in Planned(sch, plan).honest ensures phases(0)(p) == RunOps(sch, p, plan.ops(p)) {
      PhaseFirst(sch, plan, p);
    }
    forall r: nat | r >= 1 ensures phases(r) == NextPhase(sch, plan, r, phases(r - 1)) {
      PhaseNext(sch, plan, r);
    }
    RunOfClosed(sch, plan, phases);
    ClosedIsValid(Planned(sch, plan), plan);
  }

  /** No faults, and nothing but what honest servers send. */
  ghost predicate IsClean(plan: Plan) { plan.faulty == {} && forall r: nat, p: nat :: plan.extra(r, p) == [] }

  /** A clean plan in which each server originates gives a valid run without faults. */
  lemma CleanIsValid(sch: Scheme, plan: Plan)
    requires Sound(sch) && IsClean(plan) && forall p: nat :: p < sch.n ==> OriginateOp in plan.ops(p)
    ensures Closed(Planned(sch, plan), plan) && Valid(Planned(sch, plan)) && Planned(sch, plan).faulty == {}
  {
    PlannedIsValid(sch, plan);
    PlannedIs(sch, plan);
  }

  lemma RunOfClosed(sch: Scheme, plan: Plan, phases: nat -> Phase)
    requires Playable(sch, plan)
    requires forall p :: p in RunOf(sch, plan, phases).honest ==> phases(0)(p) == RunOps(sch, p, plan.ops(p))
    requires forall r: nat :: r >= 1 ==> phases(r) == NextPhase(sch, plan, r, phases(r - 1))
    ensures Closed(RunOf(sch, plan, phases), plan)
  {
    var run := RunOf(sch, plan, phases);
    OthersAreHonest(sch, plan, phases);
    forall p | p in run.honest ensures StartOk(run, p) {
      PlannedStarts(sch, plan, phases, p);
    }
    forall r: nat, p | 1 <= r <= run.Last() && p in run.honest ensures StepOk(run, r, p) {
      PlannedSteps(sch, plan, phases, r, p);
    }
    forall r: nat, p, x | 1 <= r <= run.Last() && p in run.honest ensures Delivered(run, plan, r, p, x) {
      PlannedDelivers(sch, plan, phases, r, p, x);
    }
  }
}
