/**
 * Runs without a single fault whose servers end with different coded pieces of a client:
 * what one fragment per index and keys in step are needed for.
 */
module FragmentWitnesses {
  import opened Basics
  import opened ClientSetTypes
  import opened SetServers
  import opened AbsorbFacts
  import opened ClientWindow
  import opened DolevStrong
  import opened AgreedPool
  import opened PlannedRuns
  import opened PoolSpread

  lemma KeysCarry(run: Run, r: nat, p: nat)
    requires Valid(run) && p in run.honest && 1 <= r <= run.Last() && run.noted(r, p) == []
    ensures run.states(r, p).bulletins == run.states(r - 1, p).bulletins
  {
    Step(run, r, p);
  }

  lemma {:induction false} KeysStand(run: Run, r: nat, p: nat)
    requires Valid(run) && p in run.honest && r <= run.Last()
    requires forall i: nat :: 1 <= i <= r ==> run.noted(i, p) == []
    ensures run.states(r, p).bulletins == run.states(0, p).bulletins
  {
    if r > 0 {
      KeysStand(run, r - 1, p);
      KeysCarry(run, r, p);
    }
  }

  // ---------------------------------------------------------------- one client's windows

  /** Learn the client's key, take its fragment, open the relay rounds. */
  function TakingIn(key: Bytes, f: Fragment): seq<ClientOp> { [NoteOp(f.client, key), SubmitOp([f]), OriginateOp] }

  function Posts(client: nat, key: Bytes): map<nat, set<Bytes>> { map[client := {key}] }

  lemma After(sch: Scheme, id: nat, ops: seq<ClientOp>, op: ClientOp, all: seq<ClientOp>, s: Server)
    requires RunOps(sch, id, ops).0 == s && all == ops + [op]
    ensures RunOps(sch, id, all).0 == StepOp(sch, s, op).0
  {
    assert all[..|all| - 1] == ops;
  }

  lemma EmptyWindow(sch: Scheme, id: nat)
    ensures RunOps(sch, id, []).0 == NewServer(id)
  {
  }

  lemma FirstNote(s: Server, client: nat, key: Bytes)
    requires s.bulletins == map[]
    ensures NoteBulletin(s, client, key) == s.(bulletins := Posts(client, key))
  {
    assert {} + {key} == {key};
    assert s.bulletins[client := {key}] == map[client := {key}];
  }

  lemma AfterNote(sch: Scheme, id: nat, client: nat, key: Bytes)
    ensures RunOps(sch, id, [NoteOp(client, key)]).0 == NewServer(id).(bulletins := Posts(client, key))
  {
    EmptyWindow(sch, id);
    FirstNote(NewServer(id), client, key);
    After(sch, id, [], NoteOp(client, key), [NoteOp(client, key)], NewServer(id));
  }

  lemma KeyReported(s: Server, client: nat, key: Bytes)
    requires s.bulletins == Posts(client, key)
    ensures ReportedKey(s.bulletins, client) == Some(key)
  {
    assert |{key}| == 1;
  }

  /** A lone new fragment submitted under the posted key is stored. */
  lemma SubmitLone(sch: Scheme, s: Server, key: Bytes, f: Fragment)
    requires s.bulletins == Posts(f.client, key) && s.fragments == map[] && s.accepted == {}
    requires f.idx < sch.n && FragmentSigned(sch, key, f)
    ensures Holds(Submit(sch, s, [f]).0, f) && Submit(sch, s, [f]).0.bulletins == s.bulletins
  {
    KeyReported(s, f.client, key);
    SubmitFacts(sch, s, [f]);
    TakeFragment(sch, s, f);
    assert Take(sch, s, FragmentItem(f)) == Submit(sch, s, [f]).0;
  }

  lemma LeavesAfter(sch: Scheme, id: nat, ops: seq<ClientOp>, s: Server, key: Bytes, f: Fragment)
    requires RunOps(sch, id, ops).0 == s && f.idx < sch.n && FragmentSigned(sch, key, f)
    requires s.bulletins == Posts(f.client, key) && s.fragments == map[] && s.accepted == {}
    ensures var t := RunOps(sch, id, ops + [SubmitOp([f])] + [OriginateOp]).0;
            Holds(t, f) && t.bulletins == Posts(f.client, key)
  {
    var mid := ops + [SubmitOp([f])];
    SubmitLone(sch, s, key, f);
    After(sch, id, ops, SubmitOp([f]), mid, s);
    After(sch, id, mid, OriginateOp, mid + [OriginateOp], Submit(sch, s, [f]).0);
  }

  /** Such a window leaves the fragment held and the key known. */
  lemma WindowLeaves(sch: Scheme, id: nat, key: Bytes, f: Fragment)
    requires f.idx < sch.n && FragmentSigned(sch, key, f)
    ensures var s := RunOps(sch, id, TakingIn(key, f)).0; Holds(s, f) && s.bulletins == Posts(f.client, key)
  {
    AfterNote(sch, id, f.client, key);
    LeavesAfter(sch, id, [NoteOp(f.client, key)], NewServer(id).(bulletins := Posts(f.client, key)), key, f);
    assert [NoteOp(f.client, key)] + [SubmitOp([f])] + [OriginateOp] == TakingIn(key, f);
  }

  lemma BareWindow(sch: Scheme, id: nat)
    ensures var s := RunOps(sch, id, [OriginateOp]).0; s.bulletins == map[] && s.fragments == map[]
  {
    EmptyWindow(sch, id);
    After(sch, id, [], OriginateOp, [OriginateOp], NewServer(id));
  }

  lemma NotedWindow(sch: Scheme, id: nat, client: nat, key: Bytes)
    ensures RunOps(sch, id, [NoteOp(client, key), OriginateOp]).0.bulletins == Posts(client, key)
  {
    AfterNote(sch, id, client, key);
    var s := NewServer(id).(bulletins := Posts(client, key));
    After(sch, id, [NoteOp(client, key)], OriginateOp, [NoteOp(client, key), OriginateOp], s);
  }

  /** After its window the server holds the fragment and knows the key. */
  lemma TookIn(run: Run, p: nat, key: Bytes, f: Fragment)
    requires Valid(run) && p in run.honest && f.idx < run.sch.n && FragmentSigned(run.sch, key, f)
    requires run.ops(p) == TakingIn(key, f)
    ensures Holds(run.states(0, p), f) && run.states(0, p).bulletins == Posts(f.client, key)
  {
    assert StartOk(run, p);
    WindowLeaves(run.sch, p, key, f);
  }

  lemma PoolHas(s: Server, f: Fragment)
    requires Holds(s, f)
    ensures f.idx in Pool(s, f.client) && Pool(s, f.client)[f.idx] == f.data
  {
  }

  // ---------------------------------------------------------------- two fragments under one index

  /** Every server learns the client's key; server 0 is given `f`, server 1 `g`. */
  function TwoSubmissions(key: Bytes, f: Fragment, g: Fragment): Plan {
    Clean((p: nat) => if p == 0 then TakingIn(key, f) else if p == 1 then TakingIn(key, g) else [NoteOp(f.client, key), OriginateOp],
         (r: nat, p: nat) => [])
  }

  lemma EveryoneOriginates(sch: Scheme, key: Bytes, f: Fragment, g: Fragment, p: nat)
    ensures OriginateOp in TwoSubmissions(key, f, g).ops(p)
    ensures OriginateOp in LateKey(sch, key, f).ops(p)
  {
    assert TakingIn(key, f)[2] == TakingIn(key, g)[2] == OriginateOp;
    assert [NoteOp(f.client, key), OriginateOp][1] == OriginateOp;
    assert [OriginateOp][0] == OriginateOp;
  }

  lemma KeyAfter(run: Run, r: nat, p: nat, client: nat, key: Bytes)
    requires Valid(run) && p in run.honest && r <= run.Last() && (forall i: nat :: 1 <= i <= r ==> run.noted(i, p) == [])
    requires run.states(0, p).bulletins == Posts(client, key)
    ensures ReportedKey(run.states(r, p).bulletins, client) == Some(key)
  {
    KeysStand(run, r, p);
    KeyReported(run.states(r, p), client, key);
  }

  lemma TwoKeys(run: Run, key: Bytes, f: Fragment, g: Fragment, p: nat)
    requires Valid(run) && p in run.honest && f.client == g.client
    requires f.idx < run.sch.n && g.idx < run.sch.n && FragmentSigned(run.sch, key, f) && FragmentSigned(run.sch, key, g)
    requires run.ops == TwoSubmissions(key, f, g).ops
    ensures run.states(0, p).bulletins == Posts(f.client, key)
  {
    assert StartOk(run, p);
    if p == 0 { WindowLeaves(run.sch, p, key, f); }
    else if p == 1 { WindowLeaves(run.sch, p, key, g); }
    else { NotedWindow(run.sch, p, f.client, key); }
  }

  /**
   * Two servers each submitted one of two fragments the client signed for one index: with
   * no fault, the client's key in step everywhere and everything delivered, the two servers
   * end with different pieces under that index. So `PoolAgreement` does need one fragment
   * per index, although each submission by itself is backed.
   */
  lemma TwoSubmissionsSplit(sch: Scheme, key: Bytes, f: Fragment, g: Fragment)
    requires Sound(sch) && sch.n >= 2
    requires f.client == g.client && f.idx == g.idx < sch.n && f.data != g.data
    requires FragmentSigned(sch, key, f) && FragmentSigned(sch, key, g)
    ensures var run := Planned(sch, TwoSubmissions(key, f, g)); Valid(run) && run.faulty == {} && Splits(run, key, f)
  {
    forall p: nat ensures OriginateOp in TwoSubmissions(key, f, g).ops(p) { EveryoneOriginates(sch, key, f, g, p); }
    CleanIsValid(sch, TwoSubmissions(key, f, g));
    PlannedIs(sch, TwoSubmissions(key, f, g));
    TwoRunSplits(Planned(sch, TwoSubmissions(key, f, g)), key, f, g);
  }

  /** The client's one key is known from the window on, and servers 0 and 1 end with different pieces of it. */
  ghost predicate Splits(run: Run, key: Bytes, f: Fragment) {
    && (forall r: nat, p :: r <= run.Last() && p in run.honest ==> ReportedKey(run.states(r, p).bulletins, f.client) == Some(key))
    && 0 in run.honest && 1 in run.honest
    && Pool(run.states(run.Last(), 0), f.client) != Pool(run.states(run.Last(), 1), f.client)
  }

  lemma TwoRunSplits(run: Run, key: Bytes, f: Fragment, g: Fragment)
    requires Valid(run) && 0 in run.honest && 1 in run.honest
    requires run.ops == TwoSubmissions(key, f, g).ops && run.noted == TwoSubmissions(key, f, g).noted
    requires f.client == g.client && f.idx == g.idx < run.sch.n && f.data != g.data
    requires FragmentSigned(run.sch, key, f) && FragmentSigned(run.sch, key, g)
    ensures Splits(run, key, f)
  {
    forall r: nat, p | r <= run.Last() && p in run.honest
      ensures ReportedKey(run.states(r, p).bulletins, f.client) == Some(key)
    {
      TwoKeys(run, key, f, g, p);
      KeyAfter(run, r, p, f.client, key);
    }
    EndsWith(run, 0, key, f);
    EndsWith(run, 1, key, g);
  }

  lemma EndsWith(run: Run, p: nat, key: Bytes, f: Fragment)
    requires Valid(run) && p in run.honest && f.idx < run.sch.n && FragmentSigned(run.sch, key, f)
    requires run.ops(p) == TakingIn(key, f)
    ensures var pool := Pool(run.states(run.Last(), p), f.client); f.idx in pool && pool[f.idx] == f.data
  {
    TookIn(run, p, key, f);
    HeldForGood(run, run.Last(), p, f);
    PoolHas(run.states(run.Last(), p), f);
  }

  // ---------------------------------------------------------------- a key that comes late

  /** Server 0 learns the key and takes `f` in its window; the others learn the key before the last absorb. */
  function LateKey(sch: Scheme, key: Bytes, f: Fragment): Plan {
    Clean((p: nat) => if p == 0 then TakingIn(key, f) else [OriginateOp],
         (r: nat, p: nat) => if r == RelayRounds(sch) && p > 0 then [(f.client, key)] else [])
  }

  /** What server `p` leaves its window with. */
  ghost predicate StartsLate(run: Run, key: Bytes, f: Fragment, p: nat) {
    && (p == 0 ==> Holds(run.states(0, p), f) && run.states(0, p).bulletins == Posts(f.client, key))
    && (p > 0 ==> run.states(0, p).bulletins == map[] && run.states(0, p).fragments == map[])
    && SingleSubmits(run.ops(p))
  }

  ghost predicate NotesLate(run: Run, key: Bytes, f: Fragment, r: nat, p: nat) {
    run.noted(r, p) == if r == run.Last() && p > 0 then [(f.client, key)] else []
  }

  ghost predicate LateRun(run: Run, key: Bytes, f: Fragment) {
    && Valid(run) && run.Last() >= 2
    && (forall p :: p in run.honest ==> StartsLate(run, key, f, p))
    && (forall r: nat, p: nat :: NotesLate(run, key, f, r, p))
  }

  lemma LateStart(run: Run, key: Bytes, f: Fragment, p: nat)
    requires Valid(run) && p in run.honest && f.idx < run.sch.n && FragmentSigned(run.sch, key, f)
    requires run.ops == LateKey(run.sch, key, f).ops
    ensures StartsLate(run, key, f, p)
  {
    if p == 0 {
      TookIn(run, p, key, f);
    } else {
      assert StartOk(run, p);
      BareWindow(run.sch, p);
    }
  }

  lemma QuietUntil(run: Run, key: Bytes, f: Fragment, r: nat, p: nat)
    requires LateRun(run, key, f) && p in run.honest && r <= run.Last() && (p == 0 || r < run.Last())
    ensures run.states(r, p).bulletins == run.states(0, p).bulletins
  {
    forall i: nat | 1 <= i <= r ensures run.noted(i, p) == [] { assert NotesLate(run, key, f, i, p); }
    KeysStand(run, r, p);
  }

  lemma LateKeysAt(run: Run, key: Bytes, f: Fragment, p: nat)
    requires LateRun(run, key, f) && p in run.honest
    ensures FinalKey(run, f.client, key, p)
  {
    assert StartsLate(run, key, f, p);
    if p == 0 {
      QuietUntil(run, key, f, run.Last(), p);
    } else {
      QuietUntil(run, key, f, run.Last() - 1, p);
      LateNote(run, key, f, p);
    }
    KeyReported(run.states(run.Last(), p), f.client, key);
  }

  lemma LateNote(run: Run, key: Bytes, f: Fragment, p: nat)
    requires LateRun(run, key, f) && p in run.honest && p > 0
    requires run.states(run.Last() - 1, p).bulletins == map[]
    ensures run.states(run.Last(), p).bulletins == Posts(f.client, key)
  {
    assert NotesLate(run, key, f, run.Last(), p);
    Step(run, run.Last(), p);
    OneNote(run.states(run.Last() - 1, p), run.noted(run.Last(), p), f.client, key);
  }

  lemma OneNote(s: Server, notes: seq<(nat, Bytes)>, client: nat, key: Bytes)
    requires s.bulletins == map[] && notes == [(client, key)]
    ensures NoteAll(s, notes).bulletins == Posts(client, key)
  {
    assert notes[..0] == [];
    assert NoteAll(s, []) == s;
    FirstNote(s, client, key);
  }

  lemma LateIsIgnorant(run: Run, key: Bytes, f: Fragment, p: nat)
    requires LateRun(run, key, f) && p in run.honest && p > 0
    ensures !Knows(run, f.client, 1, p)
  {
    QuietUntil(run, key, f, 1, p);
    assert StartsLate(run, key, f, p);
  }

  lemma LateWindow(run: Run, key: Bytes, f: Fragment, p: nat)
    requires LateRun(run, key, f) && p in run.honest
    ensures f.idx in PoolSpread.Window(run, f.client, p) <==> p == 0
    ensures p > 0 ==> PoolSpread.Window(run, f.client, p) == map[]
  {
    assert StartsLate(run, key, f, p);
    if p == 0 { PoolHas(run.states(0, p), f); }
  }

  /** In the first round everyone but server 0 waits for the key, and nobody learns it. */
  lemma LateGap(run: Run, key: Bytes, f: Fragment)
    requires LateRun(run, key, f) && 0 in run.honest && 1 in run.honest
    ensures TakenIn(run, f.client, f.idx) && !NoGap(run, f.client, f.idx)
  {
    LateWindow(run, key, f, 0);
    LateWindow(run, key, f, 1);
    LateIsIgnorant(run, key, f, 1);
    if q :| q in run.honest && f.idx !in PoolSpread.Window(run, f.client, q) && Learns(run, f.client, 1, q) {
      LateWindow(run, key, f, q);
      LateIsIgnorant(run, key, f, q);
      assert false;
    }
    assert !NoGapAt(run, f.client, f.idx, 1, 1);
  }

  lemma LateWindowsAgree(run: Run, key: Bytes, f: Fragment)
    requires LateRun(run, key, f)
    ensures WindowsAgree(run, f.client)
  {
    forall p, q, i | p in run.honest && q in run.honest ensures WindowsAgreeAt(run, f.client, p, q, i) {
      LateWindow(run, key, f, p);
      LateWindow(run, key, f, q);
    }
  }

  lemma LateSetting(run: Run, key: Bytes, f: Fragment)
    requires LateRun(run, key, f) && Quiet(run)
    ensures Setting(run, f.client, key)
  {
    forall p | p in run.honest
      ensures SingleSubmits(run.ops(p)) && FinalKey(run, f.client, key, p)
    {
      assert StartsLate(run, key, f, p);
      LateKeysAt(run, key, f, p);
    }
  }

  lemma ClosedIsQuiet(run: Run, plan: Plan)
    requires Closed(run, plan) && IsClean(plan)
    ensures Quiet(run)
  {
    forall r: nat, p, m | 1 <= r <= run.Last() && p in run.honest && m in run.ins(r, p) ensures SentBefore(run, r, m) {
      var q := Sender(run, plan, r - 1, p, m);
    }
  }

  lemma LateRunIs(run: Run, key: Bytes, f: Fragment)
    requires Valid(run) && run.sch.k < run.sch.n && f.idx < run.sch.n && FragmentSigned(run.sch, key, f)
    requires run.ops == LateKey(run.sch, key, f).ops && run.noted == LateKey(run.sch, key, f).noted
    ensures LateRun(run, key, f)
  {
    forall p | p in run.honest ensures StartsLate(run, key, f, p) { LateStart(run, key, f, p); }
  }

  /**
   * One key at every server in the end is not enough. Server 0 sends the client's only
   * fragment while the others have not been posted its key; they drop it, and learn the key
   * before the last round. With no fault, one final key and windows that agree, the
   * servers end with different pieces.
   */
  lemma LateKeySplits(sch: Scheme, key: Bytes, f: Fragment)
    requires Sound(sch) && sch.n >= 2 && sch.k < sch.n && f.idx < sch.n && FragmentSigned(sch, key, f)
    ensures var run := Planned(sch, LateKey(sch, key, f));
            run.faulty == {} && Setting(run, f.client, key) && WindowsAgree(run, f.client) && !PoolsAgree(run, f.client)
  {
    forall p: nat ensures OriginateOp in LateKey(sch, key, f).ops(p) { EveryoneOriginates(sch, key, f, f, p); }
    CleanIsValid(sch, LateKey(sch, key, f));
    PlannedIs(sch, LateKey(sch, key, f));
    ClosedIsQuiet(Planned(sch, LateKey(sch, key, f)), LateKey(sch, key, f));
    LateRunSplits(Planned(sch, LateKey(sch, key, f)), key, f);
  }

  lemma LateRunSplits(run: Run, key: Bytes, f: Fragment)
    requires Valid(run) && Quiet(run) && run.sch.k < run.sch.n && f.idx < run.sch.n && FragmentSigned(run.sch, key, f)
    requires run.ops == LateKey(run.sch, key, f).ops && run.noted == LateKey(run.sch, key, f).noted
    requires 0 in run.honest && 1 in run.honest
    ensures Setting(run, f.client, key) && WindowsAgree(run, f.client) && !PoolsAgree(run, f.client)
  {
    LateRunIs(run, key, f);
    LateSetting(run, key, f);
    LateWindowsAgree(run, key, f);
    LateGap(run, key, f);
    PoolsAgreeExactly(run, f.client, key);
  }
}
