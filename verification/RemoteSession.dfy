/**
 * A client session driven by numbered requests: each sequence number runs once, a
 * repeat gets the stored reply, and the output of a finalized or repaired round is
 * pinned.
 *
 * The protocol client behind it is a transition function; an action stands for its
 * own digest.
 */
module RemoteSessions {
  import opened Basics

  const U64_MAX: nat := 0xFFFF_FFFF_FFFF_FFFF
  const U32_MAX: nat := 0xFFFF_FFFF
  const QUEUE_LIMIT: nat := 64
  const QUEUE_BYTES: nat := 8388608

  type Messages = seq<Bytes>

  datatype Protocol = Panetiere | ScheduledPanetiere | Adcnet | ScheduledAdcnet

  datatype Action =
    | Prepare(scheduled: bool, round: nat)
    | Finalize(round: nat, payload: Option<Bytes>)
    | FinalizeScheduled(round: nat)
    | AcceptBatch(scheduled: bool, round: nat, batch: Bytes)
    | BuildRepair(scheduled: bool, round: nat)
    | SetCover(adcnet: bool, rate: real)
    | AdvanceRound(round: nat)
    | Reserve(message: Bytes)
    | AcceptReservations(message: Bytes)
    | Contribute(round: nat, payload: Option<Bytes>)
    | AdvanceToRound(target: int)
    | Schedule(message: Bytes, bid: nat)
    | ProcessBroadcast(message: Bytes)
    | MessagesNow

  datatype Error =
    | Closed | RoundOrder | RoundConflict | PayloadTooLarge | QueueFull | BadRate | Failed | WrongProtocol
    | RequestConflict | RequestSequence(expected: nat) | SequenceExhausted

  datatype Result = Ok(messages: Messages) | Err(error: Error)

  /** The protocol client: its next state, its messages, and whether it refused. */
  datatype Client = Client(perform: (nat, Action) -> (nat, Messages, bool), pending: nat -> nat)

  datatype Params = Params(protocol: Protocol, maxPayload: nat, client: Client)

  datatype Final = Final(round: nat, input: Action, messages: Messages)

  datatype Repair = Repair(round: nat, messages: Messages)

  datatype Reply = Reply(sequence: nat, input: Action, result: Result)

  datatype Session = Session(
    client: nat,
    current: nat,
    next: nat,
    closed: bool,
    last: Option<Reply>,
    finalized: Option<Final>,
    repair: Option<Repair>)

  function Open(client: nat, start: nat): Session { Session(client, start, 0, false, None, None, None) }

  // ---------------------------------------------------------------- one action

  function ProtocolOf(a: Action): Protocol {
    match a
    case Prepare(scheduled, _) => if scheduled then ScheduledPanetiere else Panetiere
    case AcceptBatch(scheduled, _, _) => if scheduled then ScheduledPanetiere else Panetiere
    case BuildRepair(scheduled, _) => if scheduled then ScheduledPanetiere else Panetiere
    case Finalize(_, _) => Panetiere
    case SetCover(adcnet, _) => if adcnet then ScheduledAdcnet else ScheduledPanetiere
    case FinalizeScheduled(_) => ScheduledPanetiere
    case AdvanceRound(_) => ScheduledPanetiere
    case Reserve(_) => ScheduledPanetiere
    case AcceptReservations(_) => ScheduledPanetiere
    case Contribute(_, _) => Adcnet
    case _ => ScheduledAdcnet
  }

  /** The round an action would finalize. */
  function FinalRound(current: nat, a: Action): Option<nat> {
    match a
    case Finalize(round, _) => Some(round)
    case FinalizeScheduled(round) => Some(round)
    case Contribute(round, _) => Some(round)
    case MessagesNow => Some(current)
    case _ => None
  }

  predicate RoundOk(current: nat, round: nat) { current <= round < U32_MAX }

  /** An answer that needs no client: a pinned output, or a refusal. */
  function Pinned(s: Session, a: Action): Option<Result> {
    var r := FinalRound(s.current, a);
    if r.None? then None
    else if s.finalized.Some? && r.value < s.finalized.value.round then Some(Err(RoundOrder))
    else if s.finalized.Some? && r.value == s.finalized.value.round then
      Some(if s.finalized.value.input == a then Ok(s.finalized.value.messages) else Err(RoundConflict))
    else if !RoundOk(s.current, r.value) then Some(Err(RoundOrder))
    else None
  }

  function PayloadCheck(p: Params, payload: Bytes): Option<Result> {
    if |payload| > p.maxPayload then Some(Err(PayloadTooLarge)) else None
  }

  function QueueCheck(p: Params, s: Session, payload: Bytes): Option<Result> {
    if |payload| > p.maxPayload then Some(Err(PayloadTooLarge))
    else if p.client.pending(s.client) >= QUEUE_LIMIT || Min((p.client.pending(s.client) + 1) * p.maxPayload, U64_MAX) > QUEUE_BYTES then Some(Err(QueueFull))
    else None
  }

  function Checked(p: Params, s: Session, a: Action): Option<Result> {
    match a
    case SetCover(_, rate) => if 0.0 <= rate <= 1.0 then None else Some(Err(BadRate))
    case Prepare(_, round) =>
      if !RoundOk(s.current, round) || (s.finalized.Some? && round <= s.finalized.value.round) then Some(Err(RoundOrder)) else None
    case BuildRepair(_, round) =>
      if s.finalized.None? || round > s.finalized.value.round then Some(Err(RoundOrder))
      else if s.repair.Some? && round == s.repair.value.round then Some(Ok(s.repair.value.messages))
      else if s.repair.Some? && round < s.repair.value.round then Some(Err(RoundOrder))
      else None
    case Finalize(_, payload) => if payload.Some? then PayloadCheck(p, payload.value) else None
    case Contribute(_, payload) => if payload.Some? then PayloadCheck(p, payload.value) else None
    case Reserve(payload) => QueueCheck(p, s, payload)
    case Schedule(payload, _) => QueueCheck(p, s, payload)
    case AdvanceRound(round) => if RoundOk(s.current, round) then None else Some(Err(RoundOrder))
    case AdvanceToRound(round) => if round >= 1 && RoundOk(s.current, round - 1) then None else Some(Err(RoundOrder))
    case _ => None
  }

  /** The scheduled client's steps that cannot fail. */
  predicate Infallible(a: Action) {
    a.Prepare? || a.BuildRepair? || a.SetCover? || a.AdvanceRound? || a.FinalizeScheduled?
  }

  /** The client's turn, and what its output pins. */
  function Perform(p: Params, s: Session, a: Action): (Session, Result) {
    if ProtocolOf(a) != p.protocol then (s, Err(WrongProtocol))
    else if a.FinalizeScheduled? && a.round != s.current then (s, Err(RoundOrder))
    else
      var (client, messages, refused) := p.client.perform(s.client, a);
      var after := s.(client := client, current := if a.AdvanceRound? then a.round else s.current);
      if refused && !Infallible(a) then (after, Err(Failed))
      else
        var moved := if a.AdvanceToRound? && a.target >= 1 then after.(current := a.target - 1) else after;
        var r := FinalRound(s.current, a);
        var fixed := if r.Some? && messages != [] then moved.(current := r.value, finalized := Some(Final(r.value, a, messages))) else moved;
        (if a.BuildRepair? && messages != [] then fixed.(repair := Some(Repair(a.round, messages))) else fixed, Ok(messages))
  }

  function Act(p: Params, s: Session, a: Action): (Session, Result) {
    if Pinned(s, a).Some? then (s, Pinned(s, a).value)
    else if Checked(p, s, a).Some? then (s, Checked(p, s, a).value)
    else Perform(p, s, a)
  }

  // ---------------------------------------------------------------- requests

  function Applying(p: Params, s: Session, a: Action): (Session, Result) {
    if s.closed then (s, Err(Closed)) else Act(p, s, a)
  }

  /** Whether a request actually runs its action. */
  predicate Runs(s: Session, sequence: nat) {
    !s.closed && !(s.last.Some? && s.last.value.sequence == sequence) && sequence == s.next && sequence < U64_MAX
  }

  function Executing(p: Params, s: Session, sequence: nat, a: Action): (Session, Result) {
    if s.closed then (s, Err(Closed))
    else if s.last.Some? && s.last.value.sequence == sequence then
      (s, if s.last.value.input == a then s.last.value.result else Err(RequestConflict))
    else if sequence != s.next then (s, Err(RequestSequence(s.next)))
    else if sequence >= U64_MAX then (s, Err(SequenceExhausted))
    else
      var (t, result) := Act(p, s.(next := sequence + 1), a);
      (t.(last := Some(Reply(sequence, a, result))), result)
  }

  function Closing(s: Session): Session { s.(closed := true, last := None, finalized := None, repair := None) }

  // ---------------------------------------------------------------- the session, in place

  class RemoteSession {
    const params: Params
    var client: nat
    var current: nat
    var next: nat
    var closed: bool
    var last: Option<Reply>
    var finalized: Option<Final>
    var repair: Option<Repair>

    function View(): Session reads this { Session(client, current, next, closed, last, finalized, repair) }

    constructor (p: Params, client: nat, start: nat)
      ensures params == p && View() == Open(client, start)
    {
      params, this.client, current, next, closed := p, client, start, 0, false;
      last, finalized, repair := None, None, None;
    }

    /** The pinning checks of `execute_action`; `early` is the answer they settle. */
    method CheckPins(a: Action) returns (early: Option<Result>)
      ensures early == Pinned(View(), a)
    {
      var round := FinalRound(current, a);
      if round.Some? {
        if finalized.Some? {
          if round.value < finalized.value.round {
            return Some(Err(RoundOrder));
          }
          if round.value == finalized.value.round {
            if finalized.value.input == a {
              return Some(Ok(finalized.value.messages));
            }
            return Some(Err(RoundConflict));
          }
        }
        if round.value < current || round.value >= U32_MAX {
          return Some(Err(RoundOrder));
        }
      }
      return None;
    }

    method ExecuteAction(a: Action) returns (result: Result)
      modifies this`client, this`current, this`finalized, this`repair
      ensures (View(), result) == Act(params, old(View()), a)
    {
      var early := CheckPins(a);
      if early.Some? {
        return early.value;
      }
      var check := Checked(params, View(), a);
      if check.Some? {
        return check.value;
      }
      result := PerformNow(a);
    }

    method PerformNow(a: Action) returns (result: Result)
      modifies this`client, this`current, this`finalized, this`repair
      ensures (View(), result) == Perform(params, old(View()), a)
    {
      if ProtocolOf(a) != params.protocol {
        return Err(WrongProtocol);
      }
      if a.FinalizeScheduled? && a.round != current {
        return Err(RoundOrder);
      }
      var round := FinalRound(current, a);
      var (state, messages, refused) := params.client.perform(client, a);
      client := state;
      if a.AdvanceRound? {
        current := a.round;
      }
      if refused && !Infallible(a) {
        return Err(Failed);
      }
      if a.AdvanceToRound? && a.target >= 1 {
        current := a.target - 1;
      }
      if round.Some? && messages != [] {
        current := round.value;
        finalized := Some(Final(round.value, a, messages));
      }
      if a.BuildRepair? && messages != [] {
        repair := Some(Repair(a.round, messages));
      }
      return Ok(messages);
    }

    method Apply(a: Action) returns (result: Result)
      modifies this`client, this`current, this`finalized, this`repair
      ensures (View(), result) == Applying(params, old(View()), a)
    {
      if closed {
        return Err(Closed);
      }
      result := ExecuteAction(a);
    }

    method Execute(sequence: nat, a: Action) returns (result: Result)
      modifies this
      ensures (View(), result) == Executing(params, old(View()), sequence, a)
    {
      if closed {
        return Err(Closed);
      }
      if last.Some? && sequence == last.value.sequence {
        if a == last.value.input {
          return last.value.result;
        }
        return Err(RequestConflict);
      }
      if sequence != next {
        return Err(RequestSequence(next));
      }
      if sequence >= U64_MAX {
        return Err(SequenceExhausted);
      }
      next := sequence + 1;
      result := ExecuteAction(a);
      last := Some(Reply(sequence, a, result));
    }

    method Close()
      modifies this
      ensures View() == Closing(old(View()))
    {
      finalized, repair, last, closed := None, None, None, true;
    }
  }

  // ---------------------------------------------------------------- exactly once

  /** Sending a request again changes nothing and gets the same answer, whatever the first answer was. */
  lemma RepeatIsIdempotent(p: Params, s: Session, sequence: nat, a: Action)
    ensures var (t, r) := Executing(p, s, sequence, a); Executing(p, t, sequence, a) == (t, r)
  {
    ActKeepsCounters(p, s.(next := sequence + 1), a);
  }

  lemma ActKeepsCounters(p: Params, s: Session, a: Action)
    ensures var (t, r) := Act(p, s, a); t.next == s.next && t.last == s.last && t.closed == s.closed
  {
  }

  /** The action runs exactly when its number is the next one; only then does the counter move, by one. */
  lemma RunsInOrder(p: Params, s: Session, sequence: nat, a: Action)
    ensures var (t, r) := Executing(p, s, sequence, a);
      t.next == (if Runs(s, sequence) then s.next + 1 else s.next)
      && (Runs(s, sequence) ==> r == Act(p, s.(next := sequence + 1), a).1)
      && (!Runs(s, sequence) ==> t == s)
  {
    ActKeepsCounters(p, s.(next := sequence + 1), a);
  }

  // ---------------------------------------------------------------- runs

  datatype Event = Executes(sequence: nat, action: Action) | Applies(action: Action) | Closes

  /** What a session put out for a round, and under which action. */
  datatype Output = Output(round: nat, messages: Messages)

  datatype Ledger = Ledger(s: Session, ran: seq<nat>, finals: set<Output>, repairs: set<Output>)

  /** The pinned output an answered action stands for. */
  function FinalOutput(s: Session, a: Action, r: Result): set<Output> {
    var round := FinalRound(s.current, a);
    if round.Some? && r.Ok? && r.messages != [] then {Output(round.value, r.messages)} else {}
  }

  function RepairOutput(a: Action, r: Result): set<Output> {
    if a.BuildRepair? && r.Ok? && r.messages != [] then {Output(a.round, r.messages)} else {}
  }

  function Step(p: Params, l: Ledger, e: Event): Ledger {
    match e
    case Closes => l.(s := Closing(l.s))
    case Applies(a) =>
      var (t, r) := Applying(p, l.s, a);
      l.(s := t, finals := l.finals + FinalOutput(l.s, a, r), repairs := l.repairs + RepairOutput(a, r))
    case Executes(sequence, a) =>
      var (t, r) := Executing(p, l.s, sequence, a);
      if Runs(l.s, sequence)
      then Ledger(t, l.ran + [sequence], l.finals + FinalOutput(l.s, a, r), l.repairs + RepairOutput(a, r))
      else l.(s := t)
  }

  function Run(p: Params, start: Session, events: seq<Event>): Ledger {
    if events == [] then Ledger(start, [], {}, {})
    else Step(p, Run(p, start, events[..|events| - 1]), events[|events| - 1])
  }

  function FinalPin(s: Session): Option<Output> {
    if s.finalized.Some? then Some(Output(s.finalized.value.round, s.finalized.value.messages)) else None
  }

  function RepairPin(s: Session): Option<Output> {
    if s.repair.Some? then Some(Output(s.repair.value.round, s.repair.value.messages)) else None
  }

  /** Everything put out so far is the pin, or belongs to an earlier round. */
  predicate Pins(o: set<Output>, pin: Option<Output>) {
    forall x :: x in o ==> pin.Some? && (x == pin.value || x.round < pin.value.round)
  }

  predicate PinMoves(pin: Option<Output>, next: Option<Output>) {
    pin.Some? ==> next.Some? && (next == pin || pin.value.round < next.value.round)
  }

  ghost predicate OnePerRound(o: set<Output>) {
    forall x, y :: x in o && y in o && x.round == y.round ==> x == y
  }

  ghost predicate Inv(l: Ledger) {
    && OnePerRound(l.finals) && OnePerRound(l.repairs)
    && |l.ran| == l.s.next && (forall i :: 0 <= i < |l.ran| ==> l.ran[i] == i)
    && (!l.s.closed ==>
          (l.s.finalized.Some? ==> l.s.finalized.value.round <= l.s.current)
          && Pins(l.finals, FinalPin(l.s)) && Pins(l.repairs, RepairPin(l.s)))
  }

  lemma PerformMonotone(p: Params, s: Session, a: Action)
    requires s.finalized.Some? ==> s.finalized.value.round <= s.current
    requires Pinned(s, a).None? && Checked(p, s, a).None?
    ensures var (t, r) := Perform(p, s, a);
      s.current <= t.current
      && (t.finalized.Some? ==> t.finalized.value.round <= t.current)
      && PinMoves(FinalPin(s), FinalPin(t)) && PinMoves(RepairPin(s), RepairPin(t))
  {
  }

  /** Rounds and pins only move forward. */
  lemma ActMonotone(p: Params, s: Session, a: Action)
    requires s.finalized.Some? ==> s.finalized.value.round <= s.current
    ensures var (t, r) := Act(p, s, a);
      s.current <= t.current
      && (t.finalized.Some? ==> t.finalized.value.round <= t.current)
      && PinMoves(FinalPin(s), FinalPin(t)) && PinMoves(RepairPin(s), RepairPin(t))
  {
    if Pinned(s, a).None? && Checked(p, s, a).None? { PerformMonotone(p, s, a); }
  }

  /** A nonempty output is the pin; without one the pin stays. */
  lemma ActPins(p: Params, s: Session, a: Action)
    requires s.finalized.Some? ==> s.finalized.value.round <= s.current
    ensures var (t, r) := Act(p, s, a);
      (forall o :: o in FinalOutput(s, a, r) ==> FinalPin(t) == Some(o))
      && (forall o :: o in RepairOutput(a, r) ==> RepairPin(t) == Some(o))
  {
  }

  lemma PinKeeps(o: set<Output>, more: set<Output>, pin: Option<Output>, next: Option<Output>)
    requires OnePerRound(o) && Pins(o, pin) && PinMoves(pin, next)
    requires forall x :: x in more ==> next == Some(x)
    ensures OnePerRound(o + more) && Pins(o + more, next)
  {
  }

  lemma ActKeeps(p: Params, l: Ledger, a: Action, counted: nat)
    requires Inv(l) && !l.s.closed
    ensures var (t, r) := Act(p, l.s.(next := counted), a);
      var finals, repairs := l.finals + FinalOutput(l.s, a, r), l.repairs + RepairOutput(a, r);
      OnePerRound(finals) && OnePerRound(repairs) && Pins(finals, FinalPin(t)) && Pins(repairs, RepairPin(t))
  {
    var s := l.s.(next := counted);
    ActMonotone(p, s, a);
    ActPins(p, s, a);
    var (t, r) := Act(p, s, a);
    PinKeeps(l.finals, FinalOutput(s, a, r), FinalPin(s), FinalPin(t));
    PinKeeps(l.repairs, RepairOutput(a, r), RepairPin(s), RepairPin(t));
  }

  /** What a step keeps, and that it only moves forward. */
  ghost predicate Onward(l: Ledger, t: Ledger) {
    && Inv(t) && t.s.current >= l.s.current && t.s.next >= l.s.next
    && (!t.s.closed && l.s.finalized.Some? ==> t.s.finalized.Some? && t.s.finalized.value.round >= l.s.finalized.value.round)
  }

  /** Running an action under a counter that `counted` has just reached. */
  lemma ActOnward(p: Params, l: Ledger, a: Action, counted: nat, ran: seq<nat>, last: Option<Reply>)
    requires Inv(l) && !l.s.closed && counted >= l.s.next
    requires |ran| == counted && forall i :: 0 <= i < |ran| ==> ran[i] == i
    ensures var (t, r) := Act(p, l.s.(next := counted), a);
      Onward(l, Ledger(t.(last := if last.Some? then last else t.last), ran,
                       l.finals + FinalOutput(l.s, a, r), l.repairs + RepairOutput(a, r)))
  {
    ActKeeps(p, l, a, counted);
    ActMonotone(p, l.s.(next := counted), a);
    ActKeepsCounters(p, l.s.(next := counted), a);
  }

  lemma ApplyKeeps(p: Params, l: Ledger, a: Action)
    requires Inv(l)
    ensures Onward(l, Step(p, l, Applies(a)))
  {
    if l.s.closed {
      assert Step(p, l, Applies(a)) == l;
    } else {
      assert l.s.(next := l.s.next) == l.s;
      ActOnward(p, l, a, l.s.next, l.ran, None);
    }
  }

  lemma ExecuteStep(p: Params, l: Ledger, sequence: nat, a: Action)
    requires Runs(l.s, sequence)
    ensures var (t, r) := Act(p, l.s.(next := sequence + 1), a);
      Step(p, l, Executes(sequence, a))
        == Ledger(t.(last := Some(Reply(sequence, a, r))), l.ran + [sequence], l.finals + FinalOutput(l.s, a, r), l.repairs + RepairOutput(a, r))
  {
  }

  lemma ExecuteKeeps(p: Params, l: Ledger, sequence: nat, a: Action)
    requires Inv(l)
    ensures Onward(l, Step(p, l, Executes(sequence, a)))
  {
    if Runs(l.s, sequence) {
      ExecuteStep(p, l, sequence, a);
      ActOnward(p, l, a, sequence + 1, l.ran + [sequence], Some(Reply(sequence, a, Act(p, l.s.(next := sequence + 1), a).1)));
    } else {
      RunsInOrder(p, l.s, sequence, a);
    }
  }

  lemma StepKeeps(p: Params, l: Ledger, e: Event)
    requires Inv(l)
    ensures Onward(l, Step(p, l, e))
  {
    match e
    case Closes =>
    case Applies(a) => ApplyKeeps(p, l, a);
    case Executes(sequence, a) => ExecuteKeeps(p, l, sequence, a);
  }

  lemma {:induction false} RunKeeps(p: Params, client: nat, start: nat, events: seq<Event>)
    ensures Inv(Run(p, Open(client, start), events))
  {
    if events != [] {
      RunKeeps(p, client, start, events[..|events| - 1]);
      StepKeeps(p, Run(p, Open(client, start), events[..|events| - 1]), events[|events| - 1]);
    }
  }

  /** Over every run, requests run in the order 0, 1, 2, …, each number once, however often they are sent. */
  lemma EachRequestOnce(p: Params, client: nat, start: nat, events: seq<Event>)
    ensures var l := Run(p, Open(client, start), events);
      |l.ran| == l.s.next && forall i :: 0 <= i < |l.ran| ==> l.ran[i] == i
  {
    RunKeeps(p, client, start, events);
  }

  /** Over every run, all nonempty outputs of one round are the same, for finalizing and for repair. */
  lemma OneOutputPerRound(p: Params, client: nat, start: nat, events: seq<Event>, x: Output, y: Output)
    requires x.round == y.round
    requires var l := Run(p, Open(client, start), events); (x in l.finals && y in l.finals) || (x in l.repairs && y in l.repairs)
    ensures x.messages == y.messages
  {
    RunKeeps(p, client, start, events);
  }

  /**
   * Once a round has a nonempty output, no action that would finalize that round or an
   * earlier one reaches the protocol client again in an open session: the answer is the
   * same whatever the client would do, and nothing but the request counter and the stored
   * reply can change.
   */
  lemma SettledRoundsStay(p: Params, client: nat, start: nat, events: seq<Event>, x: Output, a: Action, q: Params, sequence: nat)
    requires var l := Run(p, Open(client, start), events); x in l.finals && !l.s.closed
    requires var l := Run(p, Open(client, start), events); FinalRound(l.s.current, a).Some? && FinalRound(l.s.current, a).value <= x.round
    ensures var s := Run(p, Open(client, start), events).s;
      && Pinned(s, a).Some?
      && Applying(q, s, a) == (s, Pinned(s, a).value)
      && Executing(q, s, sequence, a) == Executing(p, s, sequence, a)
      && Executing(q, s, sequence, a).0 == s.(next := Executing(q, s, sequence, a).0.next, last := Executing(q, s, sequence, a).0.last)
  {
    RunKeeps(p, client, start, events);
    var s := Run(p, Open(client, start), events).s;
    SettledAnswer(p, s, x, a, q, sequence);
  }

  lemma SettledAnswer(p: Params, s: Session, x: Output, a: Action, q: Params, sequence: nat)
    requires !s.closed && FinalPin(s).Some? && x.round <= FinalPin(s).value.round
    requires FinalRound(s.current, a).Some? && FinalRound(s.current, a).value <= x.round
    ensures Pinned(s, a).Some? && Applying(q, s, a) == (s, Pinned(s, a).value)
    ensures var (t, r) := Executing(q, s, sequence, a);
      Executing(p, s, sequence, a) == (t, r) && t == s.(next := t.next, last := t.last)
  {
    assert Pinned(s.(next := sequence + 1), a) == Pinned(s, a);
  }

  /** The round, the request counter and the pinned round never go back while the session is open. */
  lemma ForwardOnly(p: Params, client: nat, start: nat, events: seq<Event>, e: Event)
    ensures var before := Run(p, Open(client, start), events).s;
      var after := Run(p, Open(client, start), events + [e]).s;
      before.current <= after.current && before.next <= after.next
      && (!after.closed && before.finalized.Some? ==>
            after.finalized.Some? && before.finalized.value.round <= after.finalized.value.round <= after.current)
  {
    var all := events + [e];
    assert all[..|all| - 1] == events;
    RunKeeps(p, client, start, events);
    RunKeeps(p, client, start, all);
    StepKeeps(p, Run(p, Open(client, start), events), e);
  }
}
