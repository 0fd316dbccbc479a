/**
 * The committee's sizing controller: how many subnets to schedule and how many
 * clients each one admits, both behind hysteresis.
 *
 * One tick sees the load (the larger of the observed total and the announced
 * demand) and the busiest subnet.  All quantities are non-negative integers; the
 * floating-point `ceil(clients * 1.2)` is written as an integer ceiling.
 */
module Controller {
  import opened Basics

  const SHRINK_GRACE: nat := 3
  const RESIZE_GRACE: nat := 3
  const MAX_SUBNETS: nat := 16
  const MIN_CAPACITY: nat := 8
  const MAX_SUBNET_CLIENTS: nat := 300

  datatype Params = Params(growAt: nat, minCapacity: nat)

  datatype Input = Input(load: nat, busiest: nat)

  datatype State = State(count: nat, shrinkStreak: nat, capacity: nat, resizeStreak: nat)

  // ---------------------------------------------------------------- one tick

  function SizeCapacity(clients: nat): nat {
    Max(Max(clients + 10, DivCeil(clients * 6, 5)), MIN_CAPACITY)
  }

  function ResizeMargin(current: nat): nat { Max(current / 10, MIN_CAPACITY) }

  function PerSubnet(load: nat, count: nat): nat { load / Max(count, 1) }

  function Merged(load: nat, count: nat): nat { load / (Max(count, 2) - 1) }

  function ShrinkFloor(growAt: nat): nat { SatSub(growAt, growAt / 10) }

  predicate Grows(p: Params, load: nat, count: nat) {
    PerSubnet(load, count) >= p.growAt && count < MAX_SUBNETS
  }

  predicate Shrinks(p: Params, load: nat, count: nat) {
    !Grows(p, load, count) && count > 1 && Merged(load, count) <= ShrinkFloor(p.growAt)
  }

  /** The count that absorbs the load, clamped between the current one and the cap. */
  function Absorbing(p: Params, load: nat, count: nat): nat {
    Min(Max(load / Max(p.growAt, 1) + 1, count), MAX_SUBNETS)
  }

  function Observed(i: Input, count: nat): nat { Max(i.busiest, DivCeil(i.load, Max(count, 1))) }

  function Desired(p: Params, observed: nat): nat {
    Min(Max(SizeCapacity(observed), p.minCapacity), MAX_SUBNET_CLIENTS)
  }

  function Distance(a: nat, b: nat): nat { Max(a - b, b - a) }

  function CountStep(p: Params, load: nat, s: State): State {
    if Grows(p, load, s.count) then s.(count := Absorbing(p, load, s.count), shrinkStreak := 0)
    else if Shrinks(p, load, s.count) then
      if s.shrinkStreak + 1 >= SHRINK_GRACE then s.(count := s.count - 1, shrinkStreak := 0)
      else s.(shrinkStreak := s.shrinkStreak + 1)
    else s.(shrinkStreak := 0)
  }

  function CapacityStep(p: Params, observed: nat, s: State): State {
    var desired := Desired(p, observed);
    var t :=
      if observed >= s.capacity then s.(capacity := Max(desired, s.capacity), resizeStreak := 0)
      else if Distance(desired, s.capacity) >= ResizeMargin(s.capacity) then
        if s.resizeStreak + 1 >= RESIZE_GRACE then s.(capacity := desired, resizeStreak := 0)
        else s.(resizeStreak := s.resizeStreak + 1)
      else s.(resizeStreak := 0);
    t.(capacity := Min(t.capacity, MAX_SUBNET_CLIENTS))
  }

  function Tick(p: Params, i: Input, s: State): State {
    var t := CountStep(p, i.load, s);
    CapacityStep(p, Observed(i, t.count), t)
  }

  function Start(p: Params): State { State(1, 0, Max(p.minCapacity, MIN_CAPACITY), 0) }

  /** What every tick keeps. */
  predicate InRange(s: State) {
    1 <= s.count <= MAX_SUBNETS && s.capacity >= MIN_CAPACITY && s.shrinkStreak < SHRINK_GRACE && s.resizeStreak < RESIZE_GRACE
  }

  /** The controller as the scheduler core holds it: four fields, updated by each tick. */
  class Sizing {
    const params: Params
    var count: nat
    var shrinkStreak: nat
    var capacity: nat
    var resizeStreak: nat

    ghost function View(): State reads this { State(count, shrinkStreak, capacity, resizeStreak) }

    constructor (p: Params)
      ensures params == p && View() == Start(p)
    {
      params, count, shrinkStreak, resizeStreak := p, 1, 0, 0;
      capacity := Max(p.minCapacity, MIN_CAPACITY);
    }

    method Size(load: nat, busiest: nat)
      requires InRange(View())
      modifies this
      ensures View() == Tick(params, Input(load, busiest), old(View()))
      ensures InRange(View())
      ensures Observed(Input(load, busiest), count) < capacity || capacity == MAX_SUBNET_CLIENTS
    {
      TickInRange(params, Input(load, busiest), View());
      SizeCount(load);
      SizeCapacities(Max(busiest, DivCeil(load, Max(count, 1))));
    }

    method SizeCount(load: nat)
      requires InRange(View())
      modifies this`count, this`shrinkStreak
      ensures View() == CountStep(params, load, old(View()))
    {
      var perSubnet := load / Max(count, 1);
      var merged := load / (Max(count, 2) - 1);
      var floor := SatSub(params.growAt, params.growAt / 10);
      if perSubnet >= params.growAt && count < MAX_SUBNETS {
        var absorbing := load / Max(params.growAt, 1) + 1;
        count := Min(Max(absorbing, count), MAX_SUBNETS);
        shrinkStreak := 0;
      } else if count > 1 && merged <= floor {
        shrinkStreak := shrinkStreak + 1;
        if shrinkStreak >= SHRINK_GRACE {
          count := count - 1;
          shrinkStreak := 0;
        }
      } else {
        shrinkStreak := 0;
      }
    }

    method SizeCapacities(observed: nat)
      modifies this`capacity, this`resizeStreak
      ensures View() == CapacityStep(params, observed, old(View()))
    {
      var desired := Min(Max(SizeCapacity(observed), params.minCapacity), MAX_SUBNET_CLIENTS);
      if observed >= capacity {
        capacity := Max(desired, capacity);
        resizeStreak := 0;
      } else if Distance(desired, capacity) >= ResizeMargin(capacity) {
        resizeStreak := resizeStreak + 1;
        if resizeStreak >= RESIZE_GRACE {
          capacity := desired;
          resizeStreak := 0;
        }
      } else {
        resizeStreak := 0;
      }
      capacity := Min(capacity, MAX_SUBNET_CLIENTS);
    }
  }

  // ---------------------------------------------------------------- every run

  lemma TickInRange(p: Params, i: Input, s: State)
    requires InRange(s)
    ensures InRange(Tick(p, i, s))
    ensures var t := Tick(p, i, s);
      t.capacity <= MAX_SUBNET_CLIENTS && (Observed(i, t.count) < t.capacity || t.capacity == MAX_SUBNET_CLIENTS)
  {
  }

  function Run(p: Params, inputs: seq<Input>, s: State): (t: State)
    requires InRange(s)
    ensures InRange(t)
  {
    if inputs == [] then s
    else
      var before := Run(p, inputs[..|inputs| - 1], s);
      TickInRange(p, inputs[|inputs| - 1], before);
      Tick(p, inputs[|inputs| - 1], before)
  }

  /** Whatever was observed, the subnet count stays within 1..16 and no subnet is left over-full below the cap. */
  lemma RunsStayInRange(p: Params, inputs: seq<Input>)
    ensures InRange(Start(p))
    ensures var t := Run(p, inputs, Start(p));
      1 <= t.count <= MAX_SUBNETS
      && (inputs != [] ==>
            Observed(inputs[|inputs| - 1], t.count) < t.capacity <= MAX_SUBNET_CLIENTS || t.capacity == MAX_SUBNET_CLIENTS)
  {
    assert InRange(Start(p));
    if inputs != [] {
      TickInRange(p, inputs[|inputs| - 1], Run(p, inputs[..|inputs| - 1], Start(p)));
    }
  }

  // ---------------------------------------------------------------- constant input

  function Repeat<S>(f: S -> S, s: S, n: nat): S
    decreases n
  {
    if n == 0 then s else Repeat(f, f(s), n - 1)
  }

  lemma {:induction false} RepeatSplit<S>(f: S -> S, s: S, a: nat, b: nat)
    ensures Repeat(f, s, a + b) == Repeat(f, Repeat(f, s, a), b)
    decreases a
  {
    if a > 0 { RepeatSplit(f, f(s), a - 1, b); }
  }

  function TickUnder(p: Params, i: Input): State -> State { s => Tick(p, i, s) }

  /** The state after `n` ticks under one input. */
  function Iterate(p: Params, i: Input, s: State, n: nat): State { Repeat(TickUnder(p, i), s, n) }

  lemma {:induction false} IterateInRange(p: Params, i: Input, s: State, n: nat)
    requires InRange(s)
    ensures InRange(Iterate(p, i, s, n))
    decreases n
  {
    if n > 0 {
      TickInRange(p, i, s);
      IterateInRange(p, i, Tick(p, i, s), n - 1);
    }
  }

  predicate Stable(p: Params, i: Input, s: State) {
    Tick(p, i, s) == s
  }

  /** The hysteresis is strict: the shrink floor lies below the growth threshold. */
  predicate Hysteretic(p: Params) { p.growAt == 0 || p.growAt >= 10 }

  lemma DivWhole(a: nat, b: nat)
    requires b > 0 && a >= b
    ensures a / b >= 1 && a / (a / b) >= b
  {
    Quotient(a, b, 1);
    Quotient(a, a / b, b) by { assert a == (a / b) * b + a % b; }
  }

  lemma AbsorbedExactly(load: nat, g: nat, c: nat)
    requires g >= 1 && load >= g && c == load / g + 1
    ensures load / c < g && load / (c - 1) >= g
  {
    DivWhole(load, g);
    Quotient(load, g, c - 1);
    assert load < c * g by { assert load == (load / g) * g + load % g; }
    if load / c >= g { Quotient(load, c, g); }
  }

  lemma GrowthSettlesWide(p: Params, load: nat, count: nat)
    requires 1 <= count <= MAX_SUBNETS && p.growAt >= 10 && Grows(p, load, count)
    ensures var c := Absorbing(p, load, count);
      count < c <= MAX_SUBNETS && !Shrinks(p, load, c) && !Grows(p, load, c)
  {
    var g, c := p.growAt, Absorbing(p, load, count);
    Quotient(load, count, g);
    Quotient(load, g, count);
    assert load >= g;
    assert ShrinkFloor(g) < g;
    if load / g + 1 <= MAX_SUBNETS {
      AbsorbedExactly(load, g, c);
      assert Merged(load, c) == load / (c - 1) && PerSubnet(load, c) == load / c;
    } else {
      AbsorbedByAll(load, g);
      assert Merged(load, c) == load / 15;
    }
  }

  lemma AbsorbedByAll(load: nat, g: nat)
    requires g >= 1 && load / g >= 15
    ensures load / 15 >= g
  {
    Quotient(load, g, 15);
    Quotient(load, 15, g);
  }

  /** After a growth the load is absorbed: the next tick neither grows nor wants to shrink. */
  lemma GrowthSettles(p: Params, load: nat, count: nat)
    requires 1 <= count <= MAX_SUBNETS && Hysteretic(p) && Grows(p, load, count)
    ensures var c := Absorbing(p, load, count);
      count <= c <= MAX_SUBNETS && !Shrinks(p, load, c) && (Grows(p, load, c) ==> Absorbing(p, load, c) == c)
    ensures p.growAt >= 10 ==> count < Absorbing(p, load, count) && !Grows(p, load, Absorbing(p, load, count))
  {
    if p.growAt >= 10 {
      GrowthSettlesWide(p, load, count);
    } else if Absorbing(p, load, count) == MAX_SUBNETS {
      Quotient(load, 15, 1);
      assert Merged(load, MAX_SUBNETS) == load / 15;
    }
  }

  /** After a shrink the remaining subnets carry the load: the next tick does not grow. */
  lemma ShrinkSettles(p: Params, load: nat, count: nat)
    requires 1 <= count <= MAX_SUBNETS && Hysteretic(p) && Shrinks(p, load, count)
    ensures Grows(p, load, count - 1) ==> Absorbing(p, load, count - 1) == count - 1
    ensures p.growAt >= 10 ==> !Grows(p, load, count - 1)
  {
    assert Merged(load, count) == PerSubnet(load, count - 1);
    if p.growAt == 0 {
      assert count == MAX_SUBNETS;
      if load >= 15 { Quotient(load, 15, 1); }
    }
  }

  /** An upper bound on the ticks until the subnet count stops moving. */
  function CountWork(p: Params, load: nat, s: State): nat
    requires InRange(s)
  {
    if Grows(p, load, s.count) then
      if Absorbing(p, load, s.count) == s.count && s.shrinkStreak == 0 then 0 else 1
    else if Shrinks(p, load, s.count) then 3 * (s.count - 1) - s.shrinkStreak
    else if s.shrinkStreak == 0 then 0 else 1
  }

  lemma CountWorkDrops(p: Params, i: Input, s: State)
    requires InRange(s) && Hysteretic(p)
    ensures InRange(Tick(p, i, s))
    ensures CountWork(p, i.load, s) <= 45
    ensures CountWork(p, i.load, s) == 0 ==>
      Tick(p, i, s).count == s.count && CountWork(p, i.load, Tick(p, i, s)) == 0 && Tick(p, i, s).shrinkStreak == s.shrinkStreak
    ensures CountWork(p, i.load, s) > 0 ==> CountWork(p, i.load, Tick(p, i, s)) < CountWork(p, i.load, s)
  {
    TickInRange(p, i, s);
    if Grows(p, i.load, s.count) {
      GrowthSettles(p, i.load, s.count);
    } else if Shrinks(p, i.load, s.count) {
      ShrinkSettles(p, i.load, s.count);
    }
  }

  /** An upper bound on the ticks until the capacity stops moving, once the count has. */
  function CapacityWork(p: Params, observed: nat, s: State): nat
    requires InRange(s)
  {
    var desired := Desired(p, observed);
    if observed >= s.capacity then
      if Max(desired, s.capacity) == s.capacity && s.resizeStreak == 0 then 0 else 1
    else if Distance(desired, s.capacity) >= ResizeMargin(s.capacity) then 3 - s.resizeStreak
    else if s.resizeStreak == 0 then 0 else 1
  }

  lemma CapacityWorkDrops(p: Params, i: Input, s: State)
    requires InRange(s) && s.capacity <= MAX_SUBNET_CLIENTS && Hysteretic(p) && CountWork(p, i.load, s) == 0
    ensures InRange(Tick(p, i, s))
    ensures var work := CapacityWork(p, Observed(i, s.count), s);
      work <= 3
      && (work == 0 ==> Stable(p, i, s))
      && (work > 0 ==> CapacityWork(p, Observed(i, s.count), Tick(p, i, s)) < work)
  {
    CountWorkDrops(p, i, s);
    var o := Observed(i, s.count);
    assert CountStep(p, i.load, s) == s;
    assert Tick(p, i, s) == CapacityStep(p, o, s);
  }

  /** A state that stays in `inv` and whose `work` falls every step until it is done. */
  ghost predicate Descends<S(!new)>(f: S -> S, inv: S -> bool, work: S -> nat) {
    forall x | inv(x) :: inv(f(x)) && (if work(x) == 0 then work(f(x)) == 0 else work(f(x)) < work(x))
  }

  lemma {:induction false} Finishes<S(!new)>(f: S -> S, inv: S -> bool, work: S -> nat, s: S, n: nat)
    requires Descends(f, inv, work) && inv(s) && work(s) <= n
    ensures inv(Repeat(f, s, n)) && work(Repeat(f, s, n)) == 0
    decreases n
  {
    if n > 0 { Finishes(f, inv, work, f(s), n - 1); }
  }

  predicate Sized(s: State) { InRange(s) && s.capacity <= MAX_SUBNET_CLIENTS }

  function CountWorkOf(p: Params, load: nat): State -> nat { s => if InRange(s) then CountWork(p, load, s) else 0 }

  function CapacityWorkOf(p: Params, observed: nat): State -> nat { s => if InRange(s) then CapacityWork(p, observed, s) else 0 }

  function CountDone(p: Params, i: Input, count: nat): State -> bool {
    s => Sized(s) && CountWork(p, i.load, s) == 0 && s.count == count
  }

  lemma CountDescends(p: Params, i: Input)
    requires Hysteretic(p)
    ensures Descends(TickUnder(p, i), (s: State) => Sized(s), CountWorkOf(p, i.load))
  {
    forall s: State | Sized(s)
      ensures Sized(Tick(p, i, s))
      ensures var w := CountWorkOf(p, i.load); if w(s) == 0 then w(Tick(p, i, s)) == 0 else w(Tick(p, i, s)) < w(s)
    {
      TickInRange(p, i, s);
      CountWorkDrops(p, i, s);
    }
  }

  lemma CapacityDescends(p: Params, i: Input, count: nat)
    requires Hysteretic(p)
    ensures Descends(TickUnder(p, i), CountDone(p, i, count), CapacityWorkOf(p, Observed(i, count)))
  {
    forall s: State | CountDone(p, i, count)(s)
      ensures CountDone(p, i, count)(Tick(p, i, s))
      ensures var w := CapacityWorkOf(p, Observed(i, count)); if w(s) == 0 then w(Tick(p, i, s)) == 0 else w(Tick(p, i, s)) < w(s)
    {
      TickInRange(p, i, s);
      CountWorkDrops(p, i, s);
      CapacityWorkDrops(p, i, s);
    }
  }

  lemma {:induction false} StableForever(p: Params, i: Input, s: State, n: nat)
    requires Stable(p, i, s)
    ensures Iterate(p, i, s, n) == s
    decreases n
  {
    if n > 0 { StableForever(p, i, s, n - 1); }
  }

  lemma CountSettled(p: Params, i: Input, s: State, n: nat)
    requires Sized(s) && Hysteretic(p) && n >= 45
    ensures var t := Iterate(p, i, s, n); CountDone(p, i, t.count)(t)
  {
    CountDescends(p, i);
    CountWorkDrops(p, i, s);
    Finishes(TickUnder(p, i), (x: State) => Sized(x), CountWorkOf(p, i.load), s, n);
  }

  lemma CapacitySettled(p: Params, i: Input, s: State, n: nat)
    requires Hysteretic(p) && CountDone(p, i, s.count)(s) && n >= 3
    ensures Stable(p, i, Iterate(p, i, s, n))
  {
    CapacityDescends(p, i, s.count);
    CapacityWorkDrops(p, i, s);
    Finishes(TickUnder(p, i), CountDone(p, i, s.count), CapacityWorkOf(p, Observed(i, s.count)), s, n);
    CapacityWorkDrops(p, i, Iterate(p, i, s, n));
  }

  lemma ConvergesWithin(p: Params, i: Input, s: State, n: nat)
    requires Sized(s) && Hysteretic(p) && n >= 48
    ensures Stable(p, i, Iterate(p, i, s, n))
  {
    CountSettled(p, i, s, n - 3);
    CapacitySettled(p, i, Iterate(p, i, s, n - 3), 3);
    RepeatSplit(TickUnder(p, i), s, n - 3, 3);
  }

  /** Under a constant input 48 ticks suffice to reach a fixed point, from any state a tick can leave. */
  lemma Converges(p: Params, i: Input, s: State, n: nat, m: nat)
    requires InRange(s) && s.capacity <= MAX_SUBNET_CLIENTS && Hysteretic(p) && 48 <= n <= m
    ensures Stable(p, i, Iterate(p, i, s, n))
    ensures Iterate(p, i, s, m) == Iterate(p, i, s, n)
  {
    ConvergesWithin(p, i, s, n);
    StableForever(p, i, Iterate(p, i, s, n), m - n);
    RepeatSplit(TickUnder(p, i), s, n, m - n);
  }

  /** After any run whatsoever (even none), 49 ticks of a constant input reach the fixed point. */
  lemma ConvergesAfterAnyRun(p: Params, inputs: seq<Input>, i: Input, n: nat)
    requires Hysteretic(p) && n >= 49
    ensures InRange(Start(p))
    ensures Stable(p, i, Iterate(p, i, Run(p, inputs, Start(p)), n))
  {
    assert InRange(Start(p));
    var s := Run(p, inputs, Start(p));
    TickInRange(p, i, s);
    Converges(p, i, Tick(p, i, s), n - 1, n - 1);
  }

  // ---------------------------------------------------------------- no flapping

  /** The load is met by at most this many subnets already: only shrinking remains. */
  predicate OnlyShrinks(p: Params, load: nat, count: nat) {
    Grows(p, load, count) ==> Absorbing(p, load, count) == count
  }

  predicate Still(p: Params, load: nat, count: nat) {
    OnlyShrinks(p, load, count) && !Shrinks(p, load, count)
  }

  lemma {:induction false} NoGrowthLater(p: Params, i: Input, s: State, n: nat)
    requires InRange(s) && Hysteretic(p) && OnlyShrinks(p, i.load, s.count)
    ensures Iterate(p, i, s, n).count <= s.count && OnlyShrinks(p, i.load, Iterate(p, i, s, n).count)
    ensures Still(p, i.load, s.count) ==> Iterate(p, i, s, n).count == s.count
    decreases n
  {
    if n > 0 {
      TickInRange(p, i, s);
      if Shrinks(p, i.load, s.count) { ShrinkSettles(p, i.load, s.count); }
      NoGrowthLater(p, i, Tick(p, i, s), n - 1);
    }
  }

  lemma FirstTick(p: Params, i: Input, s: State)
    requires InRange(s) && Hysteretic(p)
    ensures InRange(Tick(p, i, s)) && OnlyShrinks(p, i.load, Tick(p, i, s).count)
    ensures Tick(p, i, s).count > s.count ==> Still(p, i.load, Tick(p, i, s).count)
  {
    TickInRange(p, i, s);
    if Grows(p, i.load, s.count) {
      GrowthSettles(p, i.load, s.count);
    } else if Shrinks(p, i.load, s.count) {
      ShrinkSettles(p, i.load, s.count);
    }
  }

  /**
   * Under a constant input only the first tick can add subnets.  If it does, the
   * count never moves again; if it does not, the count only falls.
   */
  lemma OneGrowthStep(p: Params, i: Input, s: State, n: nat, m: nat)
    requires InRange(s) && Hysteretic(p) && 1 <= n <= m
    ensures Iterate(p, i, s, m).count <= Iterate(p, i, s, n).count
    ensures Tick(p, i, s).count > s.count ==> Iterate(p, i, s, m).count == Tick(p, i, s).count
  {
    FirstTick(p, i, s);
    LaterTicks(p, i, Tick(p, i, s), n - 1, m - 1);
    AfterOne(TickUnder(p, i), s, n);
    AfterOne(TickUnder(p, i), s, m);
  }

  lemma AfterOne<S>(f: S -> S, s: S, n: nat)
    requires n >= 1
    ensures Repeat(f, s, n) == Repeat(f, f(s), n - 1)
  {
  }

  lemma LaterTicks(p: Params, i: Input, t: State, n: nat, m: nat)
    requires InRange(t) && Hysteretic(p) && OnlyShrinks(p, i.load, t.count) && n <= m
    ensures Iterate(p, i, t, m).count <= Iterate(p, i, t, n).count
    ensures Still(p, i.load, t.count) ==> Iterate(p, i, t, m).count == t.count
  {
    NoGrowthLater(p, i, t, n);
    NoGrowthLater(p, i, t, m);
    IterateInRange(p, i, t, n);
    RepeatSplit(TickUnder(p, i), t, n, m - n);
    NoGrowthLater(p, i, Iterate(p, i, t, n), m - n);
  }

  lemma Unrolled<S>(f: S -> S, s: S)
    ensures Repeat(f, s, 3) == f(f(f(s))) && Repeat(f, s, 4) == f(f(f(f(s))))
  {
    assert Repeat(f, f(f(f(s))), 1) == f(f(f(f(s))));
  }

  /** The count and streak cycle of a step function that flaps between one and two subnets. */
  ghost predicate Flaps(f: State -> State) {
    forall s: State {:trigger f(s)} | 1 <= s.count <= 2 && s.shrinkStreak < SHRINK_GRACE ::
      (s.count == 1 ==> f(s).count == 2 && f(s).shrinkStreak == 0)
      && (s.count == 2 ==> f(s).count == (if s.shrinkStreak == 2 then 1 else 2) && f(s).shrinkStreak == (s.shrinkStreak + 1) % 3)
  }

  lemma FlapCounts(p: Params, load: nat, s: State)
    requires 1 <= p.growAt <= 9 && load == p.growAt && 1 <= s.count <= 2 && s.shrinkStreak < SHRINK_GRACE
    ensures var t := CountStep(p, load, s);
      (s.count == 1 ==> t.count == 2 && t.shrinkStreak == 0)
      && (s.count == 2 ==> t.count == (if s.shrinkStreak == 2 then 1 else 2) && t.shrinkStreak == (s.shrinkStreak + 1) % 3)
  {
    assert ShrinkFloor(load) == load && Merged(load, 2) == load && PerSubnet(load, 2) < load && PerSubnet(load, 1) == load;
    assert load / load == 1;
  }

  lemma TickCounts(p: Params, i: Input, s: State)
    ensures Tick(p, i, s).count == CountStep(p, i.load, s).count && Tick(p, i, s).shrinkStreak == CountStep(p, i.load, s).shrinkStreak
  {
  }

  lemma TicksFlap(p: Params, i: Input)
    requires 1 <= p.growAt <= 9 && i.load == p.growAt
    ensures Flaps(TickUnder(p, i))
  {
    forall s: State | 1 <= s.count <= 2 && s.shrinkStreak < SHRINK_GRACE
      ensures var t := Tick(p, i, s);
        (s.count == 1 ==> t.count == 2 && t.shrinkStreak == 0)
        && (s.count == 2 ==> t.count == (if s.shrinkStreak == 2 then 1 else 2) && t.shrinkStreak == (s.shrinkStreak + 1) % 3)
    {
      FlapCounts(p, i.load, s);
      TickCounts(p, i, s);
    }
  }

  lemma FlapCycle(f: State -> State, s: State)
    requires Flaps(f) && s.count == 2 && s.shrinkStreak == 0
    ensures Repeat(f, s, 3).count == 1
    ensures Repeat(f, s, 4).count == 2 && Repeat(f, s, 4).shrinkStreak == 0
  {
    Unrolled(f, s);
  }

  lemma {:induction false} FlapsOn(f: State -> State, s: State, k: nat)
    requires Flaps(f) && s.count == 2 && s.shrinkStreak == 0
    ensures Repeat(f, s, 4 * k).count == 2 && Repeat(f, s, 4 * k + 3).count == 1
    decreases k
  {
    FlapCycle(f, s);
    if k > 0 {
      FlapsOn(f, Repeat(f, s, 4), k - 1);
      RepeatSplit(f, s, 4, 4 * (k - 1));
      RepeatSplit(f, s, 4, 4 * (k - 1) + 3);
    }
  }

  /** With a growth threshold of 1 to 9 the shrink floor equals it, and two subnets flap for ever at load `growAt`. */
  lemma FlapsForever(p: Params, busiest: nat, s: State, k: nat)
    requires 1 <= p.growAt <= 9 && s.count == 2 && s.shrinkStreak == 0
    ensures var i := Input(p.growAt, busiest);
      Iterate(p, i, s, 4 * k).count == 2 && Iterate(p, i, s, 4 * k + 3).count == 1
  {
    TicksFlap(p, Input(p.growAt, busiest));
    FlapsOn(TickUnder(p, Input(p.growAt, busiest)), s, k);
  }

  /** The controller settles under every constant input exactly when its hysteresis is strict. */
  lemma ConvergesExactlyWhenHysteretic(p: Params)
    ensures Hysteretic(p) <==>
      forall i: Input, s: State, n: nat | InRange(s) && s.capacity <= MAX_SUBNET_CLIENTS && n >= 48 :: Stable(p, i, Iterate(p, i, s, n))
  {
    if Hysteretic(p) {
      forall i: Input, s: State, n: nat | InRange(s) && s.capacity <= MAX_SUBNET_CLIENTS && n >= 48
        ensures Stable(p, i, Iterate(p, i, s, n))
      {
        Converges(p, i, s, n, n);
      }
    } else {
      NeverStable(p, 12);
    }
  }

  lemma NeverStable(p: Params, k: nat)
    requires !Hysteretic(p)
    ensures var i, s := Input(p.growAt, 0), State(2, 0, 300, 0);
      InRange(s) && !Stable(p, i, Iterate(p, i, s, 4 * k))
  {
    var i, s := Input(p.growAt, 0), State(2, 0, 300, 0);
    FlapsForever(p, 0, s, k);
    RepeatSplit(TickUnder(p, i), s, 4 * k, 3);
    IterateInRange(p, i, s, 4 * k);
    StableRepeats(p, i, Iterate(p, i, s, 4 * k), 3);
  }

  lemma StableRepeats(p: Params, i: Input, t: State, n: nat)
    requires InRange(t)
    ensures Stable(p, i, t) ==> Iterate(p, i, t, n) == t
  {
    if Stable(p, i, t) { StableForever(p, i, t, n); }
  }
}
