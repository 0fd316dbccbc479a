/**
 * The round clock and the checkpoints inside a round: which round it is, when it
 * ends, and when each phase of a consensus round fires.  Times are milliseconds.
 */
module Cadence {
  import opened Basics

  const CONSENSUS_PHASES: nat := 3
  const CONSENSUS_PHASE_MS: nat := 150

  datatype SetFormation = Leader | Consensus

  function RelayRounds(n: nat, k: nat): nat
    requires k <= n
  {
    n - k + 1
  }

  /** Phases of a consensus round: submit, receipts and batches, then one per relay round. */
  function Phases(n: nat, threshold: nat): nat
    requires threshold <= n
  {
    CONSENSUS_PHASES + RelayRounds(n, threshold)
  }

  predicate CadenceFits(durMs: nat, formation: SetFormation, nRelays: nat, threshold: nat)
    requires threshold <= Max(nRelays, 1)
  {
    formation == Consensus ==> durMs >= (Phases(Max(nRelays, 1), threshold) + 1) * CONSENSUS_PHASE_MS
  }

  datatype Checkpoint = Checkpoint(k: nat, offset: nat)

  datatype Flow = Relayed(rounds: nat) | Quarters | Plain

  function PhaseOffset(k: nat, durMs: nat, n: nat): nat { k * durMs / (n + 1) }

  /** Checkpoints and their offsets from the start of the round; `k` is a byte. */
  function CheckpointSchedule(durMs: nat, flow: Flow): seq<Checkpoint> {
    match flow
    case Relayed(rounds) =>
      var n := CONSENSUS_PHASES + rounds;
      seq(n, i requires 0 <= i < n => Checkpoint((i + 1) % 256, PhaseOffset(i + 1, durMs, n)))
    case Quarters => [Checkpoint(1, durMs / 4), Checkpoint(2, durMs / 2), Checkpoint(3, 3 * durMs / 4)]
    case Plain => [Checkpoint(1, durMs / 2), Checkpoint(2, durMs)]
  }

  /** The moments of a round: its start, its checkpoints and its end. */
  function Moment(durMs: nat, s: seq<Checkpoint>, i: nat): nat
    requires i <= |s| + 1
  {
    if i == 0 then 0 else if i == |s| + 1 then durMs else s[i - 1].offset
  }

  predicate Apart(durMs: nat, s: seq<Checkpoint>, gap: nat, i: nat) {
    i <= |s| && Moment(durMs, s, i + 1) >= Moment(durMs, s, i) + gap
  }

  predicate Spaced(durMs: nat, s: seq<Checkpoint>, gap: nat) {
    forall i: nat :: i <= |s| ==> Apart(durMs, s, gap, i)
  }

  lemma DivGap(d: nat, m: nat, i: nat, gap: nat)
    requires m > 0 && d >= m * gap
    ensures (i + 1) * d / m >= i * d / m + gap
  {
    var q := i * d / m;
    Quotient(i * d, m, q);
    assert (i + 1) * d == i * d + d && (q + gap) * m == q * m + m * gap;
    Quotient((i + 1) * d, m, q + gap);
  }

  lemma WholeRound(d: nat, m: nat)
    requires m > 0
    ensures m * d / m == d
  {
    Quotient(m * d, m, d);
    Quotient(m * d, m, d + 1);
    assert m * d == d * m && (d + 1) * m == d * m + m;
  }

  lemma RelayedMoment(durMs: nat, rounds: nat, i: nat)
    requires i <= CONSENSUS_PHASES + rounds + 1
    ensures |CheckpointSchedule(durMs, Relayed(rounds))| == CONSENSUS_PHASES + rounds
    ensures Moment(durMs, CheckpointSchedule(durMs, Relayed(rounds)), i) == i * durMs / (CONSENSUS_PHASES + rounds + 1)
  {
    if i == CONSENSUS_PHASES + rounds + 1 { WholeRound(durMs, i); }
  }

  lemma RelayedSpaced(durMs: nat, rounds: nat, gap: nat)
    requires durMs >= (CONSENSUS_PHASES + rounds + 1) * gap
    ensures Spaced(durMs, CheckpointSchedule(durMs, Relayed(rounds)), gap)
  {
    var s := CheckpointSchedule(durMs, Relayed(rounds));
    forall i: nat | i <= |s| ensures Apart(durMs, s, gap, i) {
      RelayedMoment(durMs, rounds, i);
      RelayedMoment(durMs, rounds, i + 1);
      DivGap(durMs, CONSENSUS_PHASES + rounds + 1, i, gap);
    }
  }

  lemma {:induction false} SpacedSum(durMs: nat, s: seq<Checkpoint>, gap: nat, i: nat)
    requires Spaced(durMs, s, gap) && i <= |s| + 1
    ensures Moment(durMs, s, i) >= i * gap
  {
    if i > 0 {
      SpacedSum(durMs, s, gap, i - 1);
      assert Apart(durMs, s, gap, i - 1);
      assert i * gap == (i - 1) * gap + gap;
    }
  }

  /**
   * The validator's cadence test is exact: a consensus round passes it if and only
   * if every phase of its schedule, the first and the last included, gets its hop.
   */
  lemma CadenceExact(durMs: nat, nRelays: nat, threshold: nat)
    requires threshold <= nRelays && 1 <= nRelays
    ensures CadenceFits(durMs, Consensus, nRelays, threshold)
      <==> Spaced(durMs, CheckpointSchedule(durMs, Relayed(RelayRounds(nRelays, threshold))), CONSENSUS_PHASE_MS)
  {
    var rounds := RelayRounds(nRelays, threshold);
    var s := CheckpointSchedule(durMs, Relayed(rounds));
    if CadenceFits(durMs, Consensus, nRelays, threshold) {
      RelayedSpaced(durMs, rounds, CONSENSUS_PHASE_MS);
    }
    if Spaced(durMs, s, CONSENSUS_PHASE_MS) {
      SpacedSum(durMs, s, CONSENSUS_PHASE_MS, |s| + 1);
    }
  }

  /** All phases are there, numbered in order, at least one hop apart and one hop clear of both ends of the round. */
  lemma ScheduleFits(durMs: nat, nRelays: nat, threshold: nat, i: nat, j: nat)
    requires 1 <= threshold <= nRelays <= 16 && CadenceFits(durMs, Consensus, nRelays, threshold)
    requires 0 <= i < j < Phases(nRelays, threshold)
    ensures var s := CheckpointSchedule(durMs, Relayed(RelayRounds(nRelays, threshold)));
      |s| == Phases(nRelays, threshold)
      && s[i].k == i + 1 && s[j].k == j + 1
      && CONSENSUS_PHASE_MS <= s[i].offset
      && s[i].offset + CONSENSUS_PHASE_MS <= s[j].offset
      && s[j].offset + CONSENSUS_PHASE_MS <= durMs
  {
    var s := CheckpointSchedule(durMs, Relayed(RelayRounds(nRelays, threshold)));
    CadenceExact(durMs, nRelays, threshold);
    CheckpointNumber(durMs, RelayRounds(nRelays, threshold), i);
    CheckpointNumber(durMs, RelayRounds(nRelays, threshold), j);
    SpacedOffsets(durMs, s, CONSENSUS_PHASE_MS, i, j);
  }

  lemma CheckpointNumber(durMs: nat, rounds: nat, i: nat)
    requires i < CONSENSUS_PHASES + rounds <= 255
    ensures var s := CheckpointSchedule(durMs, Relayed(rounds)); |s| == CONSENSUS_PHASES + rounds && s[i].k == i + 1
  {
  }

  lemma SpacedOffsets(durMs: nat, s: seq<Checkpoint>, gap: nat, i: nat, j: nat)
    requires Spaced(durMs, s, gap) && i < j < |s|
    ensures gap <= s[i].offset && s[i].offset + gap <= s[j].offset && s[j].offset + gap <= durMs
  {
    MomentsAscend(durMs, s, gap, 0, i + 1);
    MomentsAscend(durMs, s, gap, i + 1, j + 1);
    MomentsAscend(durMs, s, gap, j + 1, |s| + 1);
  }

  lemma {:induction false} MomentsAscend(durMs: nat, s: seq<Checkpoint>, gap: nat, i: nat, j: nat)
    requires Spaced(durMs, s, gap) && i < j <= |s| + 1
    ensures Moment(durMs, s, i) + gap <= Moment(durMs, s, j)
    decreases j
  {
    assert Apart(durMs, s, gap, j - 1);
    if i < j - 1 { MomentsAscend(durMs, s, gap, i, j - 1); }
  }

  // ---------------------------------------------------------------- the round clock

  function RoundAt(base: nat, epochMs: nat, durMs: nat, nowMs: nat): nat
    requires durMs > 0
  {
    if nowMs <= epochMs then base else base + (nowMs - epochMs) / durMs
  }

  /** When `round` ends: the instant `deadline_for` waits for. */
  function Boundary(round: nat, base: nat, epochMs: nat, durMs: nat): nat
    requires round >= base
  {
    epochMs + (round - base + 1) * durMs
  }

  /** `now + boundary.saturating_sub(now)`. */
  function DeadlineFor(round: nat, base: nat, epochMs: nat, durMs: nat, nowMs: nat): nat
    requires round >= base
  {
    nowMs + SatSub(Boundary(round, base, epochMs, durMs), nowMs)
  }

  /** Checkpoints fire relative to the deadline. */
  function CheckpointDeadline(deadline: nat, durMs: nat, s: seq<Checkpoint>, cp: nat): int {
    var offset := if cp < |s| then s[cp].offset else durMs;
    deadline - SatSub(durMs, offset)
  }

  /** The boundary formula brackets `now`, and only the current round's boundary does. */
  lemma ClockBrackets(base: nat, epochMs: nat, durMs: nat, nowMs: nat, round: nat)
    requires durMs > 0 && nowMs >= epochMs && round >= base
    ensures RoundAt(base, epochMs, durMs, nowMs) >= base
    ensures round == RoundAt(base, epochMs, durMs, nowMs)
      <==> Boundary(round, base, epochMs, durMs) - durMs <= nowMs < Boundary(round, base, epochMs, durMs)
    ensures round == RoundAt(base, epochMs, durMs, nowMs) ==>
      DeadlineFor(round, base, epochMs, durMs, nowMs) == Boundary(round, base, epochMs, durMs)
  {
    var t, r := nowMs - epochMs, round - base;
    Quotient(t, durMs, r);
    Quotient(t, durMs, r + 1);
    assert (r + 1) * durMs == r * durMs + durMs;
  }

  /** Nodes whose clocks fall in one slot agree on the round; a later clock never shows an earlier round. */
  lemma ClocksAgree(base: nat, epochMs: nat, durMs: nat, a: nat, b: nat, round: nat)
    requires durMs > 0 && epochMs <= a <= b && round >= base
    ensures RoundAt(base, epochMs, durMs, a) <= RoundAt(base, epochMs, durMs, b)
    ensures Boundary(round, base, epochMs, durMs) - durMs <= a && b < Boundary(round, base, epochMs, durMs)
      <==> RoundAt(base, epochMs, durMs, a) == round == RoundAt(base, epochMs, durMs, b)
  {
    ClockBrackets(base, epochMs, durMs, a, round);
    ClockBrackets(base, epochMs, durMs, b, round);
    Quotient(a - epochMs, durMs, (a - epochMs) / durMs);
    Quotient(b - epochMs, durMs, (a - epochMs) / durMs);
  }

  /** The checkpoints of one round come strictly before those of the next, one hop apart at least. */
  lemma RoundsDoNotOverlap(base: nat, epochMs: nat, durMs: nat, nRelays: nat, threshold: nat, round: nat, i: nat, j: nat)
    requires 1 <= threshold <= nRelays <= 16 && CadenceFits(durMs, Consensus, nRelays, threshold) && round >= base
    requires i < Phases(nRelays, threshold) && j < Phases(nRelays, threshold)
    ensures var s := CheckpointSchedule(durMs, Relayed(RelayRounds(nRelays, threshold)));
      CheckpointDeadline(Boundary(round, base, epochMs, durMs), durMs, s, i) + CONSENSUS_PHASE_MS
        <= Boundary(round, base, epochMs, durMs)
        <= CheckpointDeadline(Boundary(round + 1, base, epochMs, durMs), durMs, s, j) - CONSENSUS_PHASE_MS
  {
    var s := CheckpointSchedule(durMs, Relayed(RelayRounds(nRelays, threshold)));
    CadenceExact(durMs, nRelays, threshold);
    MomentsAscend(durMs, s, CONSENSUS_PHASE_MS, i + 1, |s| + 1);
    MomentsAscend(durMs, s, CONSENSUS_PHASE_MS, 0, j + 1);
    MomentsAscend(durMs, s, CONSENSUS_PHASE_MS, j + 1, |s| + 1);
    assert (round + 1 - base + 1) * durMs == (round - base + 1) * durMs + durMs;
  }
}
