/**
 * The liveness fault tracker: it walks superseded rounds in order, counts the ones
 * that carried shares but produced no output, and reports once per streak.
 *
 * A run's log keeps every judgement together with the tracker as it stood then, so
 * a report can be read against the evidence it was made on.
 */
module Faults {
  import opened Basics

  const STALL_MARGIN: nat := 4
  const MAX_EVALUATE_SPAN: nat := 4096

  type Peer = nat

  /** The sorted relay roster and the failed rounds it takes to fault, at least one. */
  datatype Config = Config(roster: seq<Peer>, threshold: nat)

  predicate Proper(c: Config) {
    c.threshold >= 1 && forall i, j :: 0 <= i < j < |c.roster| ==> c.roster[i] < c.roster[j]
  }

  datatype State = State(
    shares: map<nat, set<nat>>,
    outputs: set<nat>,
    maxShare: Option<nat>,
    maxOutput: Option<nat>,
    shareAtLastOutput: Option<nat>,
    evaluated: Option<nat>,
    failRun: seq<set<nat>>,
    reported: bool)

  const Fresh: State := State(map[], {}, None, None, None, None, [], false)

  /** A liveness fault: the culprits, or nobody in particular. */
  datatype Attribution = Nobody | Peers(peers: set<Peer>)

  // ---------------------------------------------------------------- observations

  function SharesAt(s: State, round: nat): set<nat> { if round in s.shares then s.shares[round] else {} }

  function ObserveShare(c: Config, s: State, round: nat, idx: nat): State {
    if idx >= |c.roster| then s
    else s.(shares := s.shares[round := SharesAt(s, round) + {idx}],
            maxShare := Raise(s.maxShare, round),
            shareAtLastOutput := if s.shareAtLastOutput.None? then Some(round) else s.shareAtLastOutput)
  }

  function ObserveOutput(s: State, round: nat): State {
    var seen := s.(outputs := s.outputs + {round});
    if s.maxOutput.Some? && round <= s.maxOutput.value then seen
    else seen.(maxOutput := Raise(s.maxOutput, round),
               shareAtLastOutput := if s.maxShare.Some? then s.maxShare else Some(round))
  }

  function FastForward(s: State, round: nat): State {
    s.(evaluated := Raise(s.evaluated, SatSub(round, 1)), failRun := [], reported := false, shareAtLastOutput := None)
  }

  predicate Frozen(s: State) {
    s.maxShare.Some? && s.shareAtLastOutput.Some? && SatSub(s.maxShare.value, s.shareAtLastOutput.value) > STALL_MARGIN
  }

  // ---------------------------------------------------------------- judging

  datatype Outcome = Succeeded | NeverRan | Muted | Failed | Reported(attribution: Attribution)

  datatype Entry = Jumped | Judged(round: nat, outcome: Outcome, at: State)

  function Missing(c: Config, shared: set<nat>): set<nat> {
    set i | 0 <= i < |c.roster| && i !in shared
  }

  function Common(runs: seq<set<nat>>): set<nat>
    requires runs != []
  {
    if |runs| == 1 then runs[0] else Common(runs[..|runs| - 1]) * runs[|runs| - 1]
  }

  function Blame(c: Config, culprits: set<nat>): Attribution {
    if culprits != {} && |culprits| < |c.roster| then Peers(set i | i in culprits && i < |c.roster| :: c.roster[i]) else Nobody
  }

  predicate Judgeable(s: State, r: nat) { (s.maxOutput.Some? && s.maxOutput.value > r) || Frozen(s) }

  /** One round's judgement, or nothing when it must wait. */
  function Judge(c: Config, s: State, r: nat): Option<(State, Outcome)> {
    var done := s.(evaluated := Some(r));
    if r in s.outputs then Some((done.(failRun := [], reported := false), Succeeded))
    else if SharesAt(s, r) == {} then Some((done, NeverRan))
    else if !Judgeable(s, r) then None
    else if s.reported then Some((done, Muted))
    else
      var run := s.failRun + [Missing(c, SharesAt(s, r))];
      if |run| >= c.threshold then Some((done.(failRun := run, reported := true), Reported(Blame(c, Common(run)))))
      else Some((done.(failRun := run), Failed))
  }

  function Walk(c: Config, s: State, r: nat, end: nat): (State, seq<Entry>)
    decreases end - r
  {
    if r >= end then (s, [])
    else
      var j := Judge(c, s, r);
      if j.None? then (s, [])
      else
        var (t, rest) := Walk(c, j.value.0, r + 1, end);
        (t, [Judged(r, j.value.1, s)] + rest)
  }

  function FirstRound(s: State): nat
    requires s.maxShare.Some?
  {
    if s.evaluated.Some? then s.evaluated.value + 1
    else if s.shares.Keys != {} then Least(s.shares.Keys) else s.maxShare.value
  }

  function Evaluate(c: Config, s: State): (State, seq<Entry>) {
    if s.maxShare.None? then (s, [])
    else Walk(c, s, FirstRound(s), Min(s.maxShare.value, FirstRound(s) + MAX_EVALUATE_SPAN))
  }

  /** Judging a round and walking on is walking. */
  lemma WalkStep(c: Config, s: State, r: nat, end: nat, faults: seq<Attribution>)
    requires r < end
    ensures var j := Judge(c, s, r);
      if j.None? then Walk(c, s, r, end) == (s, [])
      else
        Walk(c, s, r, end).0 == Walk(c, j.value.0, r + 1, end).0
        && faults + Reports(Walk(c, s, r, end).1)
           == (if j.value.1.Reported? then faults + [j.value.1.attribution] else faults) + Reports(Walk(c, j.value.0, r + 1, end).1)
  {
    var j := Judge(c, s, r);
    if j.Some? {
      var rest := Walk(c, j.value.0, r + 1, end).1;
      assert ([Judged(r, j.value.1, s)] + rest)[1..] == rest;
    }
  }

  function Reports(log: seq<Entry>): seq<Attribution> {
    if log == [] then []
    else (if log[0].Judged? && log[0].outcome.Reported? then [log[0].outcome.attribution] else []) + Reports(log[1..])
  }

  // ---------------------------------------------------------------- the tracker, in place

  class OutputFaultTracker {
    const config: Config
    var shares: map<nat, set<nat>>
    var outputs: set<nat>
    var maxShare: Option<nat>
    var maxOutput: Option<nat>
    var shareAtLastOutput: Option<nat>
    var evaluated: Option<nat>
    var failRun: seq<set<nat>>
    var reported: bool

    ghost function View(): State reads this {
      State(shares, outputs, maxShare, maxOutput, shareAtLastOutput, evaluated, failRun, reported)
    }

    constructor (roster: seq<Peer>, threshold: nat)
      ensures config == Config(roster, Max(threshold, 1)) && View() == Fresh
    {
      config := Config(roster, Max(threshold, 1));
      shares, outputs, failRun, reported := map[], {}, [], false;
      maxShare, maxOutput, shareAtLastOutput, evaluated := None, None, None, None;
    }

    method NoteShare(round: nat, idx: nat)
      modifies this`shares, this`maxShare, this`shareAtLastOutput
      ensures View() == ObserveShare(config, old(View()), round, idx)
    {
      if idx < |config.roster| {
        shares := shares[round := (if round in shares then shares[round] else {}) + {idx}];
        maxShare := Raise(maxShare, round);
        if shareAtLastOutput.None? {
          shareAtLastOutput := Some(round);
        }
      }
    }

    method NoteOutput(round: nat)
      modifies this`outputs, this`maxOutput, this`shareAtLastOutput
      ensures View() == ObserveOutput(old(View()), round)
    {
      outputs := outputs + {round};
      if maxOutput.None? || round > maxOutput.value {
        maxOutput := Raise(maxOutput, round);
        shareAtLastOutput := if maxShare.Some? then maxShare else Some(round);
      }
    }

    method SkipTo(round: nat)
      modifies this`evaluated, this`failRun, this`reported, this`shareAtLastOutput
      ensures View() == FastForward(old(View()), round)
    {
      evaluated := Raise(evaluated, if round >= 1 then round - 1 else 0);
      failRun, reported, shareAtLastOutput := [], false, None;
    }

    method Culprits() returns (culprits: set<nat>)
      requires failRun != []
      ensures culprits == Common(failRun)
    {
      culprits := failRun[0];
      var i := 1;
      while i < |failRun|
        invariant 1 <= i <= |failRun|
        invariant culprits == Common(failRun[..i])
      {
        assert failRun[..i + 1][..i] == failRun[..i];
        culprits := culprits * failRun[i];
        i := i + 1;
      }
      assert failRun[..|failRun|] == failRun;
    }

    /** Judges one round; `proceed` is false when it has to wait. */
    method JudgeRound(r: nat) returns (proceed: bool, fault: Option<Attribution>)
      modifies this`evaluated, this`failRun, this`reported
      ensures var j := Judge(config, old(View()), r);
        proceed == j.Some?
        && (proceed ==> View() == j.value.0 && fault == if j.value.1.Reported? then Some(j.value.1.attribution) else None)
        && (!proceed ==> View() == old(View()) && fault.None?)
    {
      fault := None;
      if r in outputs {
        evaluated, failRun, reported := Some(r), [], false;
        return true, None;
      }
      var shared := if r in shares then shares[r] else {};
      if shared == {} {
        evaluated := Some(r);
        return true, None;
      }
      var skipped := maxOutput.Some? && maxOutput.value > r;
      if !(skipped || Frozen(State(shares, outputs, maxShare, maxOutput, shareAtLastOutput, evaluated, failRun, reported))) {
        return false, None;
      }
      evaluated := Some(r);
      if reported {
        return true, None;
      }
      failRun := failRun + [set i | 0 <= i < |config.roster| && i !in shared];
      if |failRun| >= config.threshold {
        var culprits := Culprits();
        fault := Some(Blame(config, culprits));
        reported := true;
      }
      return true, fault;
    }

    /** One turn of the walk, in terms of what is left of it. */
    method WalkRound(r: nat, end: nat, faults: seq<Attribution>) returns (proceed: bool, more: seq<Attribution>)
      requires r < end
      modifies this`evaluated, this`failRun, this`reported
      ensures var was := Walk(config, old(View()), r, end);
        if proceed then
          was.0 == Walk(config, View(), r + 1, end).0
          && faults + Reports(was.1) == more + Reports(Walk(config, View(), r + 1, end).1)
        else was == (View(), []) && more == faults
    {
      WalkStep(config, View(), r, end, faults);
      var fault;
      proceed, fault := JudgeRound(r);
      more := if fault.Some? then faults + [fault.value] else faults;
    }

    method EvaluateRounds() returns (faults: seq<Attribution>)
      modifies this`evaluated, this`failRun, this`reported
      ensures var (t, log) := Evaluate(config, old(View()));
        View() == t && faults == Reports(log)
    {
      faults := [];
      if maxShare.None? {
        return;
      }
      var start := if evaluated.Some? then evaluated.value + 1
                   else if shares.Keys != {} then Least(shares.Keys) else maxShare.value;
      var end := Min(maxShare.value, start + MAX_EVALUATE_SPAN);
      faults := WalkRounds(start, end);
    }

    method WalkRounds(start: nat, end: nat) returns (faults: seq<Attribution>)
      modifies this`evaluated, this`failRun, this`reported
      ensures View() == Walk(config, old(View()), start, end).0
      ensures faults == Reports(Walk(config, old(View()), start, end).1)
    {
      faults := [];
      var r := start;
      ghost var whole := Walk(config, View(), start, end);
      while r < end
        invariant Walk(config, View(), r, end).0 == whole.0
        invariant faults + Reports(Walk(config, View(), r, end).1) == Reports(whole.1)
      {
        var proceed;
        proceed, faults := WalkRound(r, end, faults);
        if !proceed {
          assert faults + [] == faults;
          return;
        }
        r := r + 1;
      }
      assert faults + [] == faults;
    }
  }

  // ---------------------------------------------------------------- runs

  datatype Event = Share(round: nat, idx: nat) | Output(round: nat) | Skip(round: nat) | Tick

  function Step(c: Config, s: State, e: Event): (State, seq<Entry>) {
    match e
    case Share(round, idx) => (ObserveShare(c, s, round, idx), [])
    case Output(round) => (ObserveOutput(s, round), [])
    case Skip(round) => (FastForward(s, round), [Jumped])
    case Tick => Evaluate(c, s)
  }

  /** The tracker after a run, and everything it judged on the way. */
  function Run(c: Config, events: seq<Event>): (State, seq<Entry>) {
    if events == [] then (Fresh, [])
    else
      var (s, log) := Run(c, events[..|events| - 1]);
      var (t, more) := Step(c, s, events[|events| - 1]);
      (t, log + more)
  }

  predicate Resets(e: Entry) { e.Jumped? || e.outcome.Succeeded? }

  predicate Counts(e: Entry) { e.Judged? && (e.outcome.Failed? || e.outcome.Reported?) }

  /** The failed rounds since the last round with output or the last jump. */
  function Streak(log: seq<Entry>): seq<Entry> {
    if log == [] then []
    else
      var last := log[|log| - 1];
      if Resets(last) then []
      else if Counts(last) then Streak(log[..|log| - 1]) + [last]
      else Streak(log[..|log| - 1])
  }

  function MissingIn(c: Config, e: Entry): set<nat> {
    if e.Jumped? then {} else Missing(c, SharesAt(e.at, e.round))
  }

  function MissingSets(c: Config, es: seq<Entry>): seq<set<nat>> {
    seq(|es|, i requires 0 <= i < |es| => MissingIn(c, es[i]))
  }

  /** A round counted as failed carried shares, had no output, and was skipped past or stalled. */
  predicate FairlyCounted(e: Entry) {
    Counts(e) ==>
      SharesAt(e.at, e.round) != {} && e.round !in e.at.outputs && Judgeable(e.at, e.round)
  }

  /** What a report claims, checked against the streak it closes. */
  ghost predicate SoundReport(c: Config, upTo: seq<Entry>, e: Entry) {
    e.Judged? && e.outcome.Reported? ==>
      |Streak(upTo)| == c.threshold >= 1
      && e.outcome.attribution == Blame(c, Common(MissingSets(c, Streak(upTo))))
  }

  ghost predicate SoundReports(c: Config, log: seq<Entry>) {
    forall i :: 0 <= i < |log| ==> SoundReport(c, log[..i + 1], log[i])
  }

  ghost predicate AllFair(log: seq<Entry>) {
    forall i :: 0 <= i < |log| ==> FairlyCounted(log[i])
  }

  ghost predicate Behind(log: seq<Entry>, o: Option<nat>) {
    forall i :: 0 <= i < |log| && log[i].Judged? ==> o.Some? && log[i].round <= o.value
  }

  ghost predicate InOrder(log: seq<Entry>) {
    forall i, j :: 0 <= i < j < |log| && log[i].Judged? && log[j].Judged? ==> log[i].round < log[j].round
  }

  predicate RunOf(c: Config, s: State, streak: seq<Entry>) {
    s.failRun == MissingSets(c, streak) && (s.reported <==> |streak| >= c.threshold) && |streak| <= c.threshold
  }

  ghost predicate Faithful(c: Config, s: State, log: seq<Entry>) {
    RunOf(c, s, Streak(log)) && SoundReports(c, log) && AllFair(log) && Behind(log, s.evaluated) && InOrder(log)
  }

  lemma AppendMissing(c: Config, es: seq<Entry>, e: Entry)
    ensures MissingSets(c, es + [e]) == MissingSets(c, es) + [MissingIn(c, e)]
  {
  }

  lemma StreakAppend(log: seq<Entry>, e: Entry)
    ensures Streak(log + [e]) == if Resets(e) then [] else if Counts(e) then Streak(log) + [e] else Streak(log)
  {
    assert (log + [e])[..|log + [e]| - 1] == log;
  }

  lemma SoundAppend(c: Config, log: seq<Entry>, e: Entry)
    requires SoundReports(c, log) && SoundReport(c, log + [e], e)
    ensures SoundReports(c, log + [e])
  {
    var all := log + [e];
    forall i | 0 <= i < |all| ensures SoundReport(c, all[..i + 1], all[i]) {
      assert all[..i + 1] == if i < |log| then log[..i + 1] else all;
      assert i < |log| ==> SoundReport(c, log[..i + 1], log[i]);
    }
  }

  lemma OrderAppend(log: seq<Entry>, o: Option<nat>, e: Entry, later: nat)
    requires AllFair(log) && Behind(log, o) && InOrder(log) && FairlyCounted(e)
    requires o.Some? ==> later >= o.value
    requires e.Judged? ==> e.round == later && (o.Some? ==> later > o.value)
    ensures AllFair(log + [e]) && Behind(log + [e], Some(later)) && InOrder(log + [e])
  {
  }

  lemma JudgeFacts(c: Config, s: State, streak: seq<Entry>, r: nat)
    requires c.threshold >= 1 && RunOf(c, s, streak) && Judge(c, s, r).Some?
    ensures var (t, o) := Judge(c, s, r).value;
      var e := Judged(r, o, s);
      t.evaluated == Some(r) && t.maxShare == s.maxShare && FairlyCounted(e)
      && RunOf(c, t, if Resets(e) then [] else if Counts(e) then streak + [e] else streak)
      && (o.Reported? ==> |streak| + 1 == c.threshold && o.attribution == Blame(c, Common(MissingSets(c, streak + [e]))))
  {
    AppendMissing(c, streak, Judged(r, Judge(c, s, r).value.1, s));
  }

  lemma JudgeKeeps(c: Config, s: State, log: seq<Entry>, r: nat)
    requires c.threshold >= 1 && Faithful(c, s, log) && Judge(c, s, r).Some?
    requires s.evaluated.Some? ==> r > s.evaluated.value
    ensures var (t, o) := Judge(c, s, r).value;
      Faithful(c, t, log + [Judged(r, o, s)]) && t.evaluated == Some(r)
  {
    var (t, o) := Judge(c, s, r).value;
    var e := Judged(r, o, s);
    JudgeFacts(c, s, Streak(log), r);
    StreakAppend(log, e);
    SoundAppend(c, log, e);
    OrderAppend(log, s.evaluated, e, r);
  }

  lemma Regroup<T>(a: seq<T>, e: T, b: seq<T>)
    ensures a + [e] + b == a + ([e] + b)
  {
  }

  lemma {:induction false} WalkKeeps(c: Config, s: State, log: seq<Entry>, r: nat, end: nat)
    requires c.threshold >= 1 && Faithful(c, s, log)
    requires s.evaluated.Some? ==> r > s.evaluated.value
    ensures Faithful(c, Walk(c, s, r, end).0, log + Walk(c, s, r, end).1)
    decreases end - r
  {
    if r < end && Judge(c, s, r).Some? {
      JudgeKeeps(c, s, log, r);
      var (t, o) := Judge(c, s, r).value;
      WalkKeeps(c, t, log + [Judged(r, o, s)], r + 1, end);
      Regroup(log, Judged(r, o, s), Walk(c, t, r + 1, end).1);
    } else {
      assert log + [] == log;
    }
  }

  lemma JumpKeeps(c: Config, s: State, log: seq<Entry>, round: nat)
    requires c.threshold >= 1 && Faithful(c, s, log)
    ensures Faithful(c, FastForward(s, round), log + [Jumped])
  {
    StreakAppend(log, Jumped);
    SoundAppend(c, log, Jumped);
    OrderAppend(log, s.evaluated, Jumped, FastForward(s, round).evaluated.value);
  }

  lemma TickKeeps(c: Config, s: State, log: seq<Entry>)
    requires c.threshold >= 1 && Faithful(c, s, log)
    ensures Faithful(c, Evaluate(c, s).0, log + Evaluate(c, s).1)
  {
    if s.maxShare.Some? {
      WalkKeeps(c, s, log, FirstRound(s), Min(s.maxShare.value, FirstRound(s) + MAX_EVALUATE_SPAN));
    } else {
      assert log + [] == log;
    }
  }

  lemma StepKeeps(c: Config, s: State, log: seq<Entry>, e: Event)
    requires c.threshold >= 1 && Faithful(c, s, log)
    ensures Faithful(c, Step(c, s, e).0, log + Step(c, s, e).1)
  {
    assert log + [] == log;
    match e
    case Share(round, idx) => assert RunOf(c, ObserveShare(c, s, round, idx), Streak(log));
    case Output(round) => assert RunOf(c, ObserveOutput(s, round), Streak(log));
    case Skip(round) => JumpKeeps(c, s, log, round);
    case Tick => TickKeeps(c, s, log);
  }

  lemma {:induction false} RunKeeps(c: Config, events: seq<Event>)
    requires c.threshold >= 1
    ensures Faithful(c, Run(c, events).0, Run(c, events).1)
  {
    if events != [] {
      var init, e := events[..|events| - 1], events[|events| - 1];
      RunKeeps(c, init);
      StepKeeps(c, Run(c, init).0, Run(c, init).1, e);
    }
  }

  // ---------------------------------------------------------------- what a report means

  lemma {:induction false} CommonIsAll(runs: seq<set<nat>>, i: nat)
    requires runs != []
    ensures i in Common(runs) <==> forall j :: 0 <= j < |runs| ==> i in runs[j]
  {
    if |runs| > 1 {
      CommonIsAll(runs[..|runs| - 1], i);
      assert forall j :: 0 <= j < |runs| - 1 ==> runs[..|runs| - 1][j] == runs[j];
    }
  }

  lemma StreakCounts(log: seq<Entry>)
    ensures forall e :: e in Streak(log) ==> e in log && Counts(e)
  {
    if log != [] {
      StreakCounts(log[..|log| - 1]);
      assert forall e :: e in log <==> e in log[..|log| - 1] || e == log[|log| - 1] by {
        assert log == log[..|log| - 1] + [log[|log| - 1]];
      }
    }
  }

  /** The relays that published no share in any round of the streak. */
  ghost predicate AbsentThroughout(c: Config, streak: seq<Entry>, i: nat) {
    i < |c.roster| && forall j :: 0 <= j < |streak| ==> streak[j].Judged? && i !in SharesAt(streak[j].at, streak[j].round)
  }

  lemma CommonMissing(c: Config, streak: seq<Entry>, i: nat)
    requires streak != [] && forall e :: e in streak ==> e.Judged?
    ensures i in Common(MissingSets(c, streak)) <==> AbsentThroughout(c, streak, i)
  {
    CommonIsAll(MissingSets(c, streak), i);
    assert forall j :: 0 <= j < |streak| ==> streak[j] in streak;
    assert forall j :: 0 <= j < |streak| ==> MissingSets(c, streak)[j] == MissingIn(c, streak[j]);
    if i in Common(MissingSets(c, streak)) {
      assert i in MissingSets(c, streak)[0];
    }
  }

  /** Named peers are a nonempty proper subset of the roster, one per culprit. */
  lemma BlameProper(c: Config, culprits: set<nat>)
    requires Proper(c) && forall i :: i in culprits ==> i < |c.roster|
    ensures var a := Blame(c, culprits);
      (a.Peers? <==> culprits != {} && exists k :: 0 <= k < |c.roster| && k !in culprits)
      && (a.Peers? ==>
            a.peers != {} && (exists k :: 0 <= k < |c.roster| && c.roster[k] !in a.peers)
            && forall k :: 0 <= k < |c.roster| ==> (c.roster[k] in a.peers <==> k in culprits))
  {
    RangeSize(culprits, |c.roster|);
    var all := Range(|c.roster|);
    SubsetSize(culprits, all);
    if |culprits| < |c.roster| {
      var k :| k in all - culprits by {
        Remainder(all, culprits);
      }
      assert k < |c.roster| && k !in culprits;
    } else {
      assert culprits == all;
    }
    var a := Blame(c, culprits);
    if a.Peers? {
      var i :| i in culprits;
      assert c.roster[i] in a.peers;
      forall k | 0 <= k < |c.roster| ensures c.roster[k] in a.peers <==> k in culprits {
        if c.roster[k] in a.peers {
          var i :| i in culprits && i < |c.roster| && c.roster[i] == c.roster[k];
          assert i == k;
        }
      }
    }
  }

  ghost predicate SoundlyBlamed(c: Config, streak: seq<Entry>, a: Attribution) {
    && |streak| == c.threshold
    && (forall e :: e in streak ==> Counts(e) && FairlyCounted(e))
    && (a.Peers? ==>
          a.peers != {} && (exists k :: 0 <= k < |c.roster| && c.roster[k] !in a.peers)
          && forall k :: 0 <= k < |c.roster| ==> (c.roster[k] in a.peers <==> AbsentThroughout(c, streak, k)))
    && (a.Nobody? ==>
          (forall k: nat :: !AbsentThroughout(c, streak, k)) || (forall k :: 0 <= k < |c.roster| ==> AbsentThroughout(c, streak, k)))
  }

  lemma BlamedSoundly(c: Config, streak: seq<Entry>)
    requires Proper(c) && |streak| == c.threshold
    requires forall e :: e in streak ==> Counts(e) && FairlyCounted(e)
    ensures SoundlyBlamed(c, streak, Blame(c, Common(MissingSets(c, streak))))
  {
    var culprits := Common(MissingSets(c, streak));
    forall i: nat ensures i in culprits <==> AbsentThroughout(c, streak, i) { CommonMissing(c, streak, i); }
    BlameProper(c, culprits);
  }

  lemma StreakFair(log: seq<Entry>, p: nat)
    requires AllFair(log) && p <= |log|
    ensures forall e :: e in Streak(log[..p]) ==> Counts(e) && FairlyCounted(e)
  {
    StreakCounts(log[..p]);
    forall e | e in Streak(log[..p]) ensures FairlyCounted(e) {
      var i :| 0 <= i < p && log[i] == e;
    }
  }

  /**
   * Every fault of every run: it closes a streak of exactly `threshold` rounds that
   * carried shares and had no output, and it names precisely the relays absent from
   * all of them, unless that is nobody or everybody.
   */
  lemma FaultsSound(c: Config, events: seq<Event>, p: nat)
    requires Proper(c)
    requires var log := Run(c, events).1; p < |log| && log[p].Judged? && log[p].outcome.Reported?
    ensures var log := Run(c, events).1;
      SoundlyBlamed(c, Streak(log[..p + 1]), log[p].outcome.attribution)
  {
    RunKeeps(c, events);
    ReportSound(c, Run(c, events).1, p);
  }

  lemma ReportSound(c: Config, log: seq<Entry>, p: nat)
    requires Proper(c) && SoundReports(c, log) && AllFair(log)
    requires p < |log| && log[p].Judged? && log[p].outcome.Reported?
    ensures SoundlyBlamed(c, Streak(log[..p + 1]), log[p].outcome.attribution)
  {
    assert SoundReport(c, log[..p + 1], log[p]);
    StreakFair(log, p + 1);
    BlamedSoundly(c, Streak(log[..p + 1]));
  }

  /** No round is judged twice, and judgements come in round order. */
  lemma JudgedOnce(c: Config, events: seq<Event>, p: nat, q: nat)
    requires c.threshold >= 1
    requires var log := Run(c, events).1; p < q < |log| && log[p].Judged? && log[q].Judged?
    ensures var log := Run(c, events).1; log[p].round < log[q].round
  {
    RunKeeps(c, events);
  }

  lemma {:induction false} StreakGrows(log: seq<Entry>, p: nat, q: nat)
    requires p <= q <= |log|
    ensures |Streak(log[..q])| >= |Streak(log[..p])| || exists k :: p <= k < q && Resets(log[k])
    decreases q
  {
    if p < q {
      StreakGrows(log, p, q - 1);
      assert log[..q][..q - 1] == log[..q - 1];
    }
  }

  /** Between two reports lies a round with output or a jump. */
  lemma ReportsSeparated(c: Config, events: seq<Event>, p: nat, q: nat)
    requires c.threshold >= 1
    requires var log := Run(c, events).1;
      p < q < |log| && log[p].Judged? && log[p].outcome.Reported? && log[q].Judged? && log[q].outcome.Reported?
    ensures var log := Run(c, events).1; exists k :: p < k < q && Resets(log[k])
  {
    RunKeeps(c, events);
    ResetBetween(c, Run(c, events).1, p, q);
  }

  lemma ResetBetween(c: Config, log: seq<Entry>, p: nat, q: nat)
    requires c.threshold >= 1 && SoundReports(c, log)
    requires p < q < |log| && log[p].Judged? && log[p].outcome.Reported? && log[q].Judged? && log[q].outcome.Reported?
    ensures exists k :: p < k < q && Resets(log[k])
  {
    assert SoundReport(c, log[..p + 1], log[p]) && SoundReport(c, log[..q + 1], log[q]);
    assert log[..q + 1] == log[..q] + [log[q]];
    StreakAppend(log[..q], log[q]);
    assert |Streak(log[..q])| < |Streak(log[..p + 1])|;
    StreakGrows(log, p + 1, q);
  }

  /** A round newer than every output seen is judged failed only when output has stalled. */
  lemma NewRoundsNeedAStall(c: Config, events: seq<Event>, p: nat)
    requires c.threshold >= 1
    requires var log := Run(c, events).1; p < |log| && Counts(log[p])
    ensures var e := Run(c, events).1[p];
      (e.at.maxOutput.None? || e.round >= e.at.maxOutput.value) ==> Frozen(e.at)
  {
    RunKeeps(c, events);
    var log := Run(c, events).1;
    assert FairlyCounted(log[p]);
  }

  // ---------------------------------------------------------------- detection

  /** Share-carrying rounds in `r..end`. */
  function Carrying(s: State, r: nat, end: nat): nat
    decreases end - r
  {
    if r >= end then 0 else (if SharesAt(s, r) != {} then 1 else 0) + Carrying(s, r + 1, end)
  }

  lemma {:induction false} CarryingSame(s: State, t: State, r: nat, end: nat)
    requires s.shares == t.shares
    ensures Carrying(s, r, end) == Carrying(t, r, end)
    decreases end - r
  {
    if r < end { CarryingSame(s, t, r + 1, end); }
  }

  /** Once reported, nothing more is reported before output returns. */
  lemma {:induction false} Silent(c: Config, s: State, r: nat, end: nat)
    requires s.reported && forall k :: r <= k < end ==> k !in s.outputs
    ensures Reports(Walk(c, s, r, end).1) == []
    decreases end - r
  {
    if r < end && Judge(c, s, r).Some? { Silent(c, Judge(c, s, r).value.0, r + 1, end); }
  }

  /** When output has stalled, enough share-carrying rounds without output bring exactly one report. */
  lemma {:induction false} StallDetected(c: Config, s: State, r: nat, end: nat)
    requires Frozen(s) && !s.reported && |s.failRun| < c.threshold
    requires forall k :: r <= k < end ==> k !in s.outputs
    ensures |Reports(Walk(c, s, r, end).1)| == if |s.failRun| + Carrying(s, r, end) >= c.threshold then 1 else 0
    decreases end - r
  {
    if r < end {
      var t := Judge(c, s, r).value.0;
      CarryingSame(s, t, r + 1, end);
      if t.reported {
        Silent(c, t, r + 1, end);
      } else {
        StallDetected(c, t, r + 1, end);
      }
    }
  }
}
