/**
 * When no faulty server speaks: exactly when the servers end with the same coded pieces
 * of a client.  Pieces are taken in by windows, one fragment a submission, and travel
 * from server to server as the client's boot key becomes known.
 */
module PoolSpread {
  import opened Basics
  import opened ClientSetTypes
  import opened SetServers
  import opened AbsorbFacts
  import opened ClientWindow
  import opened DolevStrong
  import opened AgreedPool

  // ---------------------------------------------------------------- a held fragment stays

  ghost predicate Holds(s: Server, f: Fragment) {
    HoldsFragment(s, f.client, f.idx) && s.fragments[f.client][f.idx] == f
  }

  lemma TakeKeeps(sch: Scheme, s: Server, item: Item, f: Fragment)
    requires Holds(s, f)
    ensures Holds(Take(sch, s, item), f)
  {
    TakeFacts(sch, s, item);
    if item.FragmentItem? {
      TakeFragment(sch, s, item.fragment);
      StoredWhere(s, item.fragment, f.client, f.idx);
    }
  }

  lemma {:induction false} AbsorbAllKeeps(sch: Scheme, s: Server, round: nat, rs: seq<Relay>, f: Fragment)
    requires Holds(s, f)
    ensures Holds(AbsorbAll(sch, s, round, rs).0, f)
    decreases |rs|
  {
    if rs != [] {
      AbsorbAllKeeps(sch, s, round, rs[..|rs| - 1], f);
      TakeKeeps(sch, AbsorbAll(sch, s, round, rs[..|rs| - 1]).0, rs[|rs| - 1].item, f);
    }
  }

  lemma PhaseKeeps(run: Run, r: nat, p: nat, f: Fragment)
    requires Valid(run) && p in run.honest && 1 <= r <= run.Last() && Holds(run.states(r - 1, p), f)
    ensures Holds(run.states(r, p), f)
  {
    AbsorbAllKeeps(run.sch, Before(run, r, p), r, Picked(run.ins(r, p), true) + Picked(run.ins(r, p), false), f);
    StepIs(run, r, p);
  }

  /** The fragment an honest server holds under an index after its window is its fragment for good. */
  lemma {:induction false} HeldForGood(run: Run, r: nat, p: nat, f: Fragment)
    requires Valid(run) && p in run.honest && r <= run.Last() && Holds(run.states(0, p), f)
    ensures Holds(run.states(r, p), f)
  {
    if r > 0 {
      HeldForGood(run, r - 1, p, f);
      PhaseKeeps(run, r, p, f);
    }
  }

  // ---------------------------------------------------------------- the setting

  ghost predicate SentBefore(run: Run, r: nat, m: Relay)
    requires r >= 1
  {
    exists q :: q in run.honest && m in run.outs(r - 1, q)
  }

  /** Faulty servers, if there are any, say nothing. */
  ghost predicate Quiet(run: Run) {
    forall r: nat, p, m {:trigger SentBefore(run, r, m), m in run.ins(r, p)} ::
      1 <= r <= run.Last() && p in run.honest && m in run.ins(r, p) ==> SentBefore(run, r, m)
  }

  /** Fragments are submitted one at a time. */
  predicate SingleSubmits(ops: seq<ClientOp>) {
    forall op :: op in ops && op.SubmitOp? ==> |op.fragments| <= 1
  }

  /** A valid run of that kind, at whose end the client's one boot key is known everywhere. */
  ghost predicate Setting(run: Run, client: nat, key: Bytes) {
    && Valid(run) && Quiet(run)
    && (forall p :: p in run.honest ==> SingleSubmits(run.ops(p)))
    && FinalKeys(run, client, key)
  }

  // ---------------------------------------------------------------- what one window leaves

  lemma SubmitSingle(sch: Scheme, s: Server, f: Fragment)
    ensures !Storable(sch, s, f) ==> Submit(sch, s, [f]) == (s, [])
  {
    if !Storable(sch, s, f) {
      assert [f][1..] == [];
      assert Vetted(sch, s, [f]) == [];
    }
  }

  /** The coding once `f` has been taken in. */
  function Taking(c: Coding, f: Fragment): Coding {
    if f.client == c.client then Coding(c.client, c.key, (i: nat) => if i == f.idx then f.data else c.coded(i)) else c
  }

  lemma TakingSync(sch: Scheme, c: Coding, s: Server, f: Fragment)
    requires FragmentSync(sch, c, s) && !HoldsFragment(s, f.client, f.idx)
    ensures FragmentSync(sch, Taking(c, f), s) && Coded(sch, Taking(c, f), f)
  {
    forall i | HoldsFragment(s, c.client, i) ensures FragmentHeld(sch, Taking(c, f), s, i) {
      assert FragmentHeld(sch, c, s, i);
    }
  }

  lemma SoloStep(sch: Scheme, c: Coding, s: Server, op: ClientOp) returns (d: Coding)
    requires FragmentSync(sch, c, s) && KeyAtMost(c, s) && Keyed(s) && (op.SubmitOp? ==> |op.fragments| <= 1)
    ensures var (t, out) := StepOp(sch, s, op); FragmentSync(sch, d, t) && Keyed(t) && OutSigned(sch, c, out)
    ensures d.client == c.client && d.key == c.key
  {
    d := c;
    if op.SubmitOp? && op.fragments != [] {
      var f := op.fragments[0];
      assert op.fragments == [f];
      if Storable(sch, s, f) {
        d := Taking(c, f);
        TakingSync(sch, c, s, f);
        StepOpFragments(sch, d, s, op);
      } else {
        SubmitSingle(sch, s, f);
      }
    } else {
      StepOpFragments(sch, c, s, op);
    }
  }

  lemma {:induction false} SoloWindow(sch: Scheme, client: nat, key: Bytes, id: nat, ops: seq<ClientOp>) returns (c: Coding)
    requires SingleSubmits(ops) && KeyAtMost(Coding(client, key, i => []), RunOps(sch, id, ops).0)
    ensures c.client == client && c.key == key
    ensures var (s, out) := RunOps(sch, id, ops); FragmentSync(sch, c, s) && Keyed(s) && OutSigned(sch, c, out)
    decreases |ops|
  {
    c := Coding(client, key, i => []);
    if ops != [] {
      var n := |ops| - 1;
      var s := RunOps(sch, id, ops[..n]).0;
      assert ops[n] in ops;
      StepOpKeys(sch, c, s, ops[n]);
      var b := SoloWindow(sch, client, key, id, ops[..n]);
      c := SoloStep(sch, b, s, ops[n]);
    }
  }

  // ---------------------------------------------------------------- windows that agree

  /** The pieces of the client a server holds after its window. */
  function Window(run: Run, client: nat, p: nat): map<nat, Share> { Pool(run.states(0, p), client) }

  /** No two windows leave different data under one index. */
  ghost predicate WindowsAgree(run: Run, client: nat) {
    forall p, q, i :: p in run.honest && q in run.honest ==> WindowsAgreeAt(run, client, p, q, i)
  }

  ghost predicate WindowsAgreeAt(run: Run, client: nat, p: nat, q: nat, i: nat) {
    i in Window(run, client, p) && i in Window(run, client, q) ==> Window(run, client, p)[i] == Window(run, client, q)[i]
  }

  ghost predicate TakenIn(run: Run, client: nat, i: nat) {
    exists p :: p in run.honest && i in Window(run, client, p)
  }

  ghost function Taken(run: Run, client: nat, i: nat): Share {
    if TakenIn(run, client, i) then
      var p :| p in run.honest && i in Window(run, client, p);
      Window(run, client, p)[i]
    else []
  }

  /** The pieces all windows together took in. */
  ghost function CodingOf(run: Run, client: nat, key: Bytes): Coding {
    Coding(client, key, (i: nat) => Taken(run, client, i))
  }

  lemma TakenIs(run: Run, client: nat, p: nat, i: nat)
    requires WindowsAgree(run, client) && p in run.honest && i in Window(run, client, p)
    ensures TakenIn(run, client, i) && Taken(run, client, i) == Window(run, client, p)[i]
  {
    var q :| q in run.honest && i in Window(run, client, q) && Taken(run, client, i) == Window(run, client, q)[i];
    assert WindowsAgreeAt(run, client, p, q, i);
  }

  lemma SameSync(sch: Scheme, b: Coding, c: Coding, s: Server)
    requires FragmentSync(sch, b, s) && b.client == c.client && b.key == c.key
    requires forall i :: i in Pool(s, c.client) ==> Pool(s, c.client)[i] == c.coded(i)
    ensures FragmentSync(sch, c, s)
  {
    forall i | HoldsFragment(s, c.client, i) ensures FragmentHeld(sch, c, s, i) {
      assert FragmentHeld(sch, b, s, i) && i in Pool(s, c.client);
    }
    forall i, d | FragmentId(c.client, i, d) in s.accepted ensures HoldsFragment(s, c.client, i) && d == c.coded(i) {
      assert FragmentHeld(sch, b, s, i) && i in Pool(s, c.client);
    }
  }

  lemma WindowIsCoded(run: Run, client: nat, key: Bytes, p: nat)
    requires Setting(run, client, key) && WindowsAgree(run, client) && p in run.honest
    ensures WindowCoded(run, CodingOf(run, client, key), p)
  {
    var c := CodingOf(run, client, key);
    KeyIsAtMost(run, c, 0, p);
    assert StartOk(run, p);
    var b := SoloWindow(run.sch, client, key, p, run.ops(p));
    forall i | i in Pool(run.states(0, p), client) ensures Pool(run.states(0, p), client)[i] == c.coded(i) {
      TakenIs(run, client, p, i);
    }
    SameSync(run.sch, b, c, run.states(0, p));
  }

  /** A fragment of the client that is sent has the coded data. */
  ghost predicate SentCoded(c: Coding, m: Relay) {
    m.item.FragmentItem? && m.item.fragment.client == c.client ==> m.item.fragment.data == c.coded(m.item.fragment.idx)
  }

  lemma FirstSentCoded(run: Run, c: Coding, p: nat, m: Relay)
    requires Valid(run) && p in run.honest && WindowsCoded(run, c) && m in run.outs(0, p)
    ensures SentCoded(c, m)
  {
    Start(run, p);
    assert WindowCoded(run, c, p);
    assert Names(run.outs(0, p), IdOf(m.item));
  }

  /** What is forwarded was sent the phase before. */
  lemma Origin(run: Run, r: nat, p: nat, m: Relay) returns (m0: Relay, q: nat)
    requires Valid(run) && Quiet(run) && r + 1 <= run.Last() && p in run.honest && m in run.outs(r + 1, p)
    ensures q in run.honest && m0 in run.outs(r, q) && m0.item == m.item
  {
    m0 := ForwardedFrom(run, r + 1, p, m);
    q := SentBy(run, r, p, m0);
  }

  ghost predicate WindowsCoded(run: Run, c: Coding) {
    forall q :: q in run.honest ==> WindowCoded(run, c, q)
  }

  lemma {:induction false} AllSentCoded(run: Run, c: Coding, r: nat, p: nat, m: Relay)
    requires Valid(run) && Quiet(run) && WindowsCoded(run, c)
    requires r <= run.Last() && p in run.honest && m in run.outs(r, p)
    ensures SentCoded(c, m)
  {
    if r == 0 {
      FirstSentCoded(run, c, p, m);
    } else {
      var e: nat := r - 1;
      var m0, q := Origin(run, e, p, m);
      AllSentCoded(run, c, e, q, m0);
    }
  }

  lemma SentBy(run: Run, r: nat, p: nat, m: Relay) returns (q: nat)
    requires Quiet(run) && r + 1 <= run.Last() && p in run.honest && m in run.ins(r + 1, p)
    ensures q in run.honest && m in run.outs(r, q)
  {
    assert SentBefore(run, r + 1, m);
    q :| q in run.honest && m in run.outs(r, q);
  }

  lemma InsCoded(run: Run, c: Coding, r: nat, p: nat, m: Relay)
    requires Valid(run) && Quiet(run) && WindowsCoded(run, c)
    requires r + 1 <= run.Last() && p in run.honest && m in run.ins(r + 1, p)
    ensures SentCoded(c, m)
  {
    var q := SentBy(run, r, p, m);
    AllSentCoded(run, c, r, q, m);
  }

  lemma PhaseCoded(run: Run, c: Coding, r: nat, p: nat)
    requires Valid(run) && Quiet(run) && WindowsCoded(run, c) && 1 <= r <= run.Last() && p in run.honest
    ensures AllCoded(run.sch, c, run.ins(r, p))
  {
    forall m | m in run.ins(r, p) ensures SentCoded(c, m) { InsCoded(run, c, r - 1, p, m); }
    SentIsCoded(run.sch, c, run.ins(r, p));
  }

  lemma AgreeingIsCoded(run: Run, client: nat, key: Bytes)
    requires Setting(run, client, key) && WindowsAgree(run, client)
    ensures StaysCoded(run, CodingOf(run, client, key))
  {
    var c := CodingOf(run, client, key);
    forall p | p in run.honest ensures WindowCoded(run, c, p) { WindowIsCoded(run, client, key, p); }
    forall r: nat, p | 1 <= r <= run.Last() && p in run.honest ensures AllCoded(run.sch, c, run.ins(r, p)) {
      PhaseCoded(run, c, r, p);
    }
  }

  lemma SentIsCoded(sch: Scheme, c: Coding, rs: seq<Relay>)
    requires forall m :: m in rs ==> SentCoded(c, m)
    ensures AllCoded(sch, c, rs)
  {
    forall m | m in rs && m.item.FragmentItem? ensures Coded(sch, c, m.item.fragment) { assert SentCoded(c, m); }
  }

  // ---------------------------------------------------------------- how one piece travels

  /** `p` absorbs round `t` knowing the client's key: absorbing itself posts none. */
  ghost predicate Knows(run: Run, client: nat, t: nat, p: nat) {
    ReportedKey(run.states(t, p).bulletins, client).Some?
  }

  /** Round `t` is the first one `p` absorbs knowing the key. */
  ghost predicate Learns(run: Run, client: nat, t: nat, p: nat)
    requires t >= 1
  {
    Knows(run, client, t, p) && (t == 1 || !Knows(run, client, t - 1, p))
  }

  /** Coded, and nothing but what honest servers send: the setting of one piece's journey. */
  ghost predicate Travels(run: Run, c: Coding) { Valid(run) && Quiet(run) && StaysCoded(run, c) }

  function IdAt(c: Coding, i: nat): ItemId { FragmentId(c.client, i, c.coded(i)) }

  ghost predicate Sent(run: Run, t: nat, id: ItemId) {
    exists q :: q in run.honest && Names(run.outs(t, q), id)
  }

  lemma HoldsIsAccepted(run: Run, c: Coding, t: nat, p: nat, i: nat)
    requires Travels(run, c) && t <= run.Last() && p in run.honest
    ensures var pool := Pool(run.states(t, p), c.client);
            (i in pool <==> IdAt(c, i) in run.states(t, p).accepted) && (i in pool ==> pool[i] == c.coded(i))
  {
    FragmentsInSync(run, c, t, p);
    var s := run.states(t, p);
    if HoldsFragment(s, c.client, i) { assert FragmentHeld(run.sch, c, s, i); }
  }

  lemma KnownKey(run: Run, c: Coding, t: nat, p: nat)
    requires Travels(run, c) && t <= run.Last() && p in run.honest && Knows(run, c.client, t, p)
    ensures HasKey(c, run.states(t, p))
  {
    KeyIsAtMost(run, c, t, p);
    ReportIs(c, run.states(t, p));
  }

  lemma KnownBefore(run: Run, c: Coding, r: nat, p: nat)
    requires Travels(run, c) && r + 1 <= run.Last() && p in run.honest && Knows(run, c.client, r + 1, p)
    ensures ReportedKey(Before(run, r + 1, p).bulletins, c.client) == Some(c.key)
  {
    KnownKey(run, c, r + 1, p);
    PhaseGrows(run, c, r + 1, p);
    ReportIs(c, run.states(r + 1, p));
  }

  lemma KnowsStays(run: Run, c: Coding, t: nat, p: nat)
    requires Travels(run, c) && t + 1 <= run.Last() && p in run.honest && Knows(run, c.client, t, p)
    ensures Knows(run, c.client, t + 1, p)
  {
    KnownKey(run, c, t, p);
    KeyCarriesOver(run, c, t + 1, p);
    PhaseGrows(run, c, t + 1, p);
  }

  /** The relay a forwarded piece was taken from. */
  lemma ForwardedPiece(run: Run, r: nat, p: nat, id: ItemId) returns (m0: Relay)
    requires Valid(run) && r + 1 <= run.Last() && p in run.honest && Names(run.outs(r + 1, p), id)
    ensures m0 in run.ins(r + 1, p) && IdOf(m0.item) == id && id !in run.states(r, p).accepted && id in run.states(r + 1, p).accepted
    ensures id.FragmentId? ==> ReportedKey(run.states(r + 1, p).bulletins, id.client).Some?
  {
    var m :| m in run.outs(r + 1, p) && IdOf(m.item) == id;
    m0 := ForwardedFrom(run, r + 1, p, m);
    Step(run, r + 1, p);
  }

  /** A forward is of something sent the phase before, new here, and vetted under a known key. */
  lemma ForwardNeeds(run: Run, c: Coding, r: nat, p: nat, i: nat)
    requires Travels(run, c) && r + 1 <= run.Last() && p in run.honest && Names(run.outs(r + 1, p), IdAt(c, i))
    ensures Knows(run, c.client, r + 1, p) && Sent(run, r, IdAt(c, i))
    ensures IdAt(c, i) !in run.states(r, p).accepted && IdAt(c, i) in run.states(r + 1, p).accepted
  {
    var m0 := ForwardedPiece(run, r, p, IdAt(c, i));
    var q := SentBy(run, r, p, m0);
    assert Names(run.outs(r, q), IdAt(c, i));
  }

  lemma NewIsForwarded(run: Run, r: nat, p: nat, id: ItemId)
    requires Valid(run) && r + 1 <= run.Last() && p in run.honest
    requires id !in run.states(r, p).accepted && id in run.states(r + 1, p).accepted
    ensures Names(run.outs(r + 1, p), id)
  {
    Step(run, r + 1, p);
  }

  /** A piece that was sent is taken up by whoever knows the key. */
  lemma TakesUp(run: Run, c: Coding, r: nat, p: nat, i: nat)
    requires Travels(run, c) && r + 1 <= run.Last() && p in run.honest
    requires Sent(run, r, IdAt(c, i)) && Knows(run, c.client, r + 1, p)
    ensures IdAt(c, i) in run.states(r + 1, p).accepted
  {
    var q :| q in run.honest && Names(run.outs(r, q), IdAt(c, i));
    TakesFrom(run, c, r, p, q, IdAt(c, i));
  }

  lemma TakesFrom(run: Run, c: Coding, r: nat, p: nat, q: nat, id: ItemId)
    requires Travels(run, c) && r + 1 <= run.Last() && p in run.honest && q in run.honest
    requires Names(run.outs(r, q), id) && id.FragmentId? && id.client == c.client && Knows(run, c.client, r + 1, p)
    ensures id in run.states(r + 1, p).accepted
  {
    if q == p {
      OwnReaches(run, r, p, id);
    } else {
      var m :| m in run.outs(r, q) && IdOf(m.item) == id;
      TakesRelay(run, c, r, p, q, m);
    }
  }

  lemma TakesRelay(run: Run, c: Coding, r: nat, p: nat, q: nat, m: Relay)
    requires Travels(run, c) && r + 1 <= run.Last() && p in run.honest && q in run.honest && p != q
    requires m in run.outs(r, q) && m.item.FragmentItem? && m.item.fragment.client == c.client && Knows(run, c.client, r + 1, p)
    ensures IdOf(m.item) in run.states(r + 1, p).accepted
  {
    Arrives(run, r, p, q, m);
    SentUnderKey(run, c, r, q, m);
    KnownBefore(run, c, r, p);
    FragmentAbsorbed(run, c, r + 1, p, m);
  }

  lemma SentBack(run: Run, c: Coding, r: nat, i: nat)
    requires Travels(run, c) && r + 1 <= run.Last() && Sent(run, r + 1, IdAt(c, i))
    ensures Sent(run, r, IdAt(c, i))
  {
    var q :| q in run.honest && Names(run.outs(r + 1, q), IdAt(c, i));
    ForwardNeeds(run, c, r, q, i);
  }

  lemma ForwarderLacked(run: Run, c: Coding, r: nat, q: nat, i: nat)
    requires Travels(run, c) && r <= run.Last() && q in run.honest && IdAt(c, i) !in run.states(r, q).accepted
    ensures i !in Window(run, c.client, q)
  {
    HoldsIsAccepted(run, c, 0, q, i);
    if i in Window(run, c.client, q) { StaysAccepted(run, 0, r, q, IdAt(c, i)); }
  }

  lemma ForwarderDidNotKnow(run: Run, c: Coding, r: nat, q: nat, i: nat)
    requires Travels(run, c) && r + 1 <= run.Last() && q in run.honest
    requires Sent(run, r + 1, IdAt(c, i)) && IdAt(c, i) !in run.states(r + 1, q).accepted
    ensures !Knows(run, c.client, r + 1, q)
  {
    SentBack(run, c, r, i);
    if Knows(run, c.client, r + 1, q) { TakesUp(run, c, r, q, i); }
  }

  /** Whoever forwards a piece had lacked it, and learned the key just then. */
  lemma ForwardLearns(run: Run, c: Coding, r: nat, q: nat, i: nat)
    requires Travels(run, c) && r + 1 <= run.Last() && q in run.honest && Names(run.outs(r + 1, q), IdAt(c, i))
    ensures Learns(run, c.client, r + 1, q) && i !in Window(run, c.client, q)
  {
    ForwardNeeds(run, c, r, q, i);
    ForwarderLacked(run, c, r, q, i);
    if r > 0 { ForwarderDidNotKnow(run, c, r - 1, q, i); }
  }

  /** The server has not come to know the key by phase `t`; what its window knew does not count. */
  ghost predicate Unknowing(run: Run, client: nat, t: nat, p: nat) { t >= 1 ==> !Knows(run, client, t, p) }

  lemma UnknowingBefore(run: Run, c: Coding, r: nat, p: nat)
    requires Travels(run, c) && r + 1 <= run.Last() && p in run.honest && Unknowing(run, c.client, r + 1, p)
    ensures Unknowing(run, c.client, r, p)
  {
    if Knows(run, c.client, r, p) { KnowsStays(run, c, r, p); }
  }

  /** Without the key a server does not come to a piece it lacks. */
  lemma {:induction false} Ignorant(run: Run, c: Coding, t: nat, p: nat, i: nat)
    requires Travels(run, c) && t <= run.Last() && p in run.honest && i !in Window(run, c.client, p)
    requires Unknowing(run, c.client, t, p)
    ensures IdAt(c, i) !in run.states(t, p).accepted
  {
    if t == 0 {
      HoldsIsAccepted(run, c, 0, p, i);
    } else {
      var r: nat := t - 1;
      UnknowingBefore(run, c, r, p);
      Ignorant(run, c, r, p, i);
      StillIgnorant(run, c, r, p, i);
    }
  }

  lemma StillIgnorant(run: Run, c: Coding, r: nat, p: nat, i: nat)
    requires Travels(run, c) && r + 1 <= run.Last() && p in run.honest && !Knows(run, c.client, r + 1, p)
    requires IdAt(c, i) !in run.states(r, p).accepted
    ensures IdAt(c, i) !in run.states(r + 1, p).accepted
  {
    if IdAt(c, i) in run.states(r + 1, p).accepted {
      NewIsForwarded(run, r, p, IdAt(c, i));
      ForwardNeeds(run, c, r, p, i);
    }
  }

  // ---------------------------------------------------------------- keys without a gap

  /** As long as `p` lacks piece `i` and does not know the key, each round some such server learns it. */
  ghost predicate NoGapAt(run: Run, client: nat, i: nat, t: nat, p: nat)
    requires 1 <= t <= run.Last() && p in run.honest
  {
    i !in Window(run, client, p) && !Knows(run, client, t, p) ==> SomeoneLearns(run, client, i, t)
  }

  ghost predicate SomeoneLearns(run: Run, client: nat, i: nat, t: nat)
    requires 1 <= t <= run.Last()
  {
    exists q :: q in run.honest && i !in Window(run, client, q) && Learns(run, client, t, q)
  }

  ghost predicate NoGap(run: Run, client: nat, i: nat) {
    forall t: nat, p :: 1 <= t <= run.Last() && p in run.honest ==> NoGapAt(run, client, i, t, p)
  }

  lemma FirstSent(run: Run, c: Coding, i: nat)
    requires Travels(run, c) && TakenIn(run, c.client, i)
    ensures Sent(run, 0, IdAt(c, i))
  {
    var h :| h in run.honest && i in Window(run, c.client, h);
    HoldsIsAccepted(run, c, 0, h, i);
    Start(run, h);
    assert Names(run.outs(0, h), IdAt(c, i));
  }

  /** Without a gap the next learner sends the piece on. */
  lemma NextSent(run: Run, c: Coding, i: nat, r: nat, p: nat)
    requires Travels(run, c) && NoGap(run, c.client, i) && r + 1 <= run.Last() && p in run.honest
    requires i !in Window(run, c.client, p) && !Knows(run, c.client, r + 1, p) && Sent(run, r, IdAt(c, i))
    ensures Sent(run, r + 1, IdAt(c, i))
  {
    assert NoGapAt(run, c.client, i, r + 1, p);
    var q :| q in run.honest && i !in Window(run, c.client, q) && Learns(run, c.client, r + 1, q);
    LearnerSends(run, c, r, q, i);
  }

  /** Without a gap the piece is sent in every phase until the last server knows the key. */
  lemma {:induction false} SentOn(run: Run, c: Coding, i: nat, t: nat, p: nat)
    requires Travels(run, c) && TakenIn(run, c.client, i) && NoGap(run, c.client, i)
    requires t <= run.Last() && p in run.honest && i !in Window(run, c.client, p) && Unknowing(run, c.client, t, p)
    ensures Sent(run, t, IdAt(c, i))
  {
    if t == 0 {
      FirstSent(run, c, i);
    } else {
      var r: nat := t - 1;
      UnknowingBefore(run, c, r, p);
      SentOn(run, c, i, r, p);
      NextSent(run, c, i, r, p);
    }
  }

  lemma LearnerSends(run: Run, c: Coding, r: nat, q: nat, i: nat)
    requires Travels(run, c) && r + 1 <= run.Last() && q in run.honest && i !in Window(run, c.client, q)
    requires Learns(run, c.client, r + 1, q) && Sent(run, r, IdAt(c, i))
    ensures Sent(run, r + 1, IdAt(c, i)) && IdAt(c, i) in run.states(r + 1, q).accepted
  {
    Ignorant(run, c, r, q, i);
    TakesUp(run, c, r, q, i);
    NewIsForwarded(run, r, q, IdAt(c, i));
  }

  lemma {:induction false} FirstLearns(run: Run, client: nat, t: nat, p: nat) returns (u: nat)
    requires 1 <= t <= run.Last() && p in run.honest && Knows(run, client, t, p)
    ensures 1 <= u <= t && Learns(run, client, u, p)
  {
    if t > 1 && Knows(run, client, t - 1, p) { u := FirstLearns(run, client, t - 1, p); } else { u := t; }
  }

  lemma KnowsInTheEnd(run: Run, c: Coding, p: nat)
    requires Travels(run, c) && p in run.honest
    ensures Knows(run, c.client, run.Last(), p)
  {
    assert FinalKey(run, c.client, c.key, p);
  }

  lemma LearnsSometime(run: Run, c: Coding, p: nat) returns (u: nat)
    requires Travels(run, c) && p in run.honest
    ensures 1 <= u <= run.Last() && Learns(run, c.client, u, p)
  {
    KnowsInTheEnd(run, c, p);
    u := FirstLearns(run, c.client, run.Last(), p);
  }

  lemma LearnerEndsWith(run: Run, c: Coding, i: nat, r: nat, p: nat)
    requires Travels(run, c) && r + 1 <= run.Last() && p in run.honest && i !in Window(run, c.client, p)
    requires Learns(run, c.client, r + 1, p) && Sent(run, r, IdAt(c, i))
    ensures IdAt(c, i) in run.states(run.Last(), p).accepted
  {
    LearnerSends(run, c, r, p, i);
    StaysAccepted(run, r + 1, run.Last(), p, IdAt(c, i));
  }

  lemma LackingTakes(run: Run, c: Coding, i: nat, r: nat, p: nat)
    requires Travels(run, c) && TakenIn(run, c.client, i) && NoGap(run, c.client, i)
    requires r + 1 <= run.Last() && p in run.honest && i !in Window(run, c.client, p) && Learns(run, c.client, r + 1, p)
    ensures IdAt(c, i) in run.states(run.Last(), p).accepted
  {
    SentOn(run, c, i, r, p);
    LearnerEndsWith(run, c, i, r, p);
  }

  lemma HolderEndsWith(run: Run, c: Coding, i: nat, p: nat)
    requires Travels(run, c) && p in run.honest && i in Window(run, c.client, p)
    ensures IdAt(c, i) in run.states(run.Last(), p).accepted
  {
    HoldsIsAccepted(run, c, 0, p, i);
    StaysAccepted(run, 0, run.Last(), p, IdAt(c, i));
  }

  lemma LackerEndsWith(run: Run, c: Coding, i: nat, p: nat)
    requires Travels(run, c) && TakenIn(run, c.client, i) && NoGap(run, c.client, i) && p in run.honest
    requires i !in Window(run, c.client, p)
    ensures IdAt(c, i) in run.states(run.Last(), p).accepted
  {
    var u := LearnsSometime(run, c, p);
    LackingTakes(run, c, i, u - 1, p);
  }

  lemma EveryoneTakes(run: Run, c: Coding, i: nat, p: nat)
    requires Travels(run, c) && TakenIn(run, c.client, i) && NoGap(run, c.client, i) && p in run.honest
    ensures IdAt(c, i) in run.states(run.Last(), p).accepted
  {
    if i in Window(run, c.client, p) { HolderEndsWith(run, c, i, p); } else { LackerEndsWith(run, c, i, p); }
  }

  lemma SenderLearns(run: Run, c: Coding, i: nat, r: nat)
    requires Travels(run, c) && r + 1 <= run.Last() && Sent(run, r + 1, IdAt(c, i))
    ensures SomeoneLearns(run, c.client, i, r + 1)
  {
    var q :| q in run.honest && Names(run.outs(r + 1, q), IdAt(c, i));
    ForwardLearns(run, c, r, q, i);
  }

  /** A gap ends the journey: nobody sends the piece any more. */
  lemma {:induction false} GapSilences(run: Run, c: Coding, i: nat, t: nat, u: nat)
    requires Travels(run, c) && 1 <= t <= u <= run.Last() && !SomeoneLearns(run, c.client, i, t)
    ensures !Sent(run, u, IdAt(c, i))
  {
    if u == t {
      if Sent(run, t, IdAt(c, i)) { SenderLearns(run, c, i, t - 1); }
    } else {
      var r: nat := u - 1;
      GapSilences(run, c, i, t, r);
      if Sent(run, r + 1, IdAt(c, i)) { SentBack(run, c, r, i); }
    }
  }

  lemma SilenceDenies(run: Run, c: Coding, i: nat, r: nat, p: nat)
    requires Travels(run, c) && r + 1 <= run.Last() && p in run.honest && !Sent(run, r, IdAt(c, i))
    requires IdAt(c, i) !in run.states(r, p).accepted
    ensures IdAt(c, i) !in run.states(r + 1, p).accepted
  {
    if IdAt(c, i) in run.states(r + 1, p).accepted {
      NewIsForwarded(run, r, p, IdAt(c, i));
      ForwardNeeds(run, c, r, p, i);
    }
  }

  lemma {:induction false} GapDenies(run: Run, c: Coding, i: nat, t: nat, u: nat, p: nat)
    requires Travels(run, c) && 1 <= t <= u <= run.Last() && p in run.honest
    requires !NoGapAt(run, c.client, i, t, p)
    ensures IdAt(c, i) !in run.states(u, p).accepted
  {
    if u == t {
      Ignorant(run, c, t, p, i);
    } else {
      var r: nat := u - 1;
      GapDenies(run, c, i, t, r, p);
      GapSilences(run, c, i, t, r);
      SilenceDenies(run, c, i, r, p);
    }
  }

  /** One piece: everyone ends with it if and only if no server was left waiting by a gap. */
  lemma PieceReachesExactly(run: Run, c: Coding, i: nat)
    requires Travels(run, c) && TakenIn(run, c.client, i)
    ensures (forall p :: p in run.honest ==> IdAt(c, i) in run.states(run.Last(), p).accepted) <==> NoGap(run, c.client, i)
  {
    if NoGap(run, c.client, i) {
      forall p | p in run.honest ensures IdAt(c, i) in run.states(run.Last(), p).accepted { EveryoneTakes(run, c, i, p); }
    } else {
      var t: nat, p :| 1 <= t <= run.Last() && p in run.honest && !NoGapAt(run, c.client, i, t, p);
      GapDenies(run, c, i, t, run.Last(), p);
    }
  }

  // ---------------------------------------------------------------- the exact condition

  function End(run: Run, client: nat, p: nat): map<nat, Share> { Pool(run.states(run.Last(), p), client) }

  ghost predicate PoolsAgree(run: Run, client: nat) {
    forall p, q :: p in run.honest && q in run.honest ==> End(run, client, p) == End(run, client, q)
  }

  ghost predicate NoGaps(run: Run, client: nat) {
    forall i :: TakenIn(run, client, i) ==> NoGap(run, client, i)
  }

  lemma EndKeepsWindow(run: Run, client: nat, key: Bytes, p: nat, i: nat)
    requires Setting(run, client, key) && p in run.honest && i in Window(run, client, p)
    ensures i in End(run, client, p) && End(run, client, p)[i] == Window(run, client, p)[i]
  {
    var c := Coding(client, key, (j: nat) => []);
    KeyIsAtMost(run, c, 0, p);
    assert StartOk(run, p);
    var b := SoloWindow(run.sch, client, key, p, run.ops(p));
    assert FragmentHeld(run.sch, b, run.states(0, p), i);
    HeldForGood(run, run.Last(), p, run.states(0, p).fragments[client][i]);
  }

  lemma AgreementNeedsWindows(run: Run, client: nat, key: Bytes)
    requires Setting(run, client, key) && PoolsAgree(run, client)
    ensures WindowsAgree(run, client)
  {
    forall p, q, i | p in run.honest && q in run.honest ensures WindowsAgreeAt(run, client, p, q, i) {
      if i in Window(run, client, p) && i in Window(run, client, q) {
        EndKeepsWindow(run, client, key, p, i);
        EndKeepsWindow(run, client, key, q, i);
        assert End(run, client, p) == End(run, client, q);
      }
    }
  }

  lemma AgreementNeedsKeys(run: Run, c: Coding, i: nat)
    requires Travels(run, c) && PoolsAgree(run, c.client) && TakenIn(run, c.client, i)
    ensures NoGap(run, c.client, i)
  {
    var h :| h in run.honest && i in Window(run, c.client, h);
    HoldsIsAccepted(run, c, 0, h, i);
    StaysAccepted(run, 0, run.Last(), h, IdAt(c, i));
    HoldsIsAccepted(run, c, run.Last(), h, i);
    forall p | p in run.honest ensures IdAt(c, i) in run.states(run.Last(), p).accepted {
      assert End(run, c.client, p) == End(run, c.client, h);
      HoldsIsAccepted(run, c, run.Last(), p, i);
    }
    PieceReachesExactly(run, c, i);
  }

  /** What a server ends with, some window took in. */
  lemma EndWasTaken(run: Run, c: Coding, p: nat, i: nat)
    requires Travels(run, c) && p in run.honest && i in End(run, c.client, p)
    ensures TakenIn(run, c.client, i)
  {
    HoldsIsAccepted(run, c, run.Last(), p, i);
    AcceptedIsEmitted(run, run.Last(), p, IdAt(c, i));
    var t: nat :| t <= run.Last() && Names(run.outs(t, p), IdAt(c, i));
    assert Sent(run, t, IdAt(c, i));
    SentFirst(run, c, t, i);
  }

  lemma {:induction false} SentFirst(run: Run, c: Coding, t: nat, i: nat)
    requires Travels(run, c) && t <= run.Last() && Sent(run, t, IdAt(c, i))
    ensures TakenIn(run, c.client, i)
  {
    if t == 0 {
      var q :| q in run.honest && Names(run.outs(0, q), IdAt(c, i));
      Start(run, q);
      HoldsIsAccepted(run, c, 0, q, i);
    } else {
      var r: nat := t - 1;
      SentBack(run, c, r, i);
      SentFirst(run, c, r, i);
    }
  }

  lemma EndContained(run: Run, c: Coding, p: nat, q: nat, i: nat)
    requires Travels(run, c) && NoGaps(run, c.client) && p in run.honest && q in run.honest && i in End(run, c.client, p)
    ensures i in End(run, c.client, q) && End(run, c.client, p)[i] == End(run, c.client, q)[i]
  {
    EndWasTaken(run, c, p, i);
    EveryoneTakes(run, c, i, q);
    HoldsIsAccepted(run, c, run.Last(), p, i);
    HoldsIsAccepted(run, c, run.Last(), q, i);
  }

  lemma KeysSuffice(run: Run, c: Coding)
    requires Travels(run, c) && NoGaps(run, c.client)
    ensures PoolsAgree(run, c.client)
  {
    forall p, q | p in run.honest && q in run.honest ensures End(run, c.client, p) == End(run, c.client, q) {
      forall i | i in End(run, c.client, p) ensures i in End(run, c.client, q) && End(run, c.client, p)[i] == End(run, c.client, q)[i] {
        EndContained(run, c, p, q, i);
      }
      forall i | i in End(run, c.client, q) ensures i in End(run, c.client, p) { EndContained(run, c, q, p, i); }
    }
  }

  /**
   * Exactly when honest servers end with the same pieces of a client: no two of their
   * windows left different data under one index, and for each piece taken in, as long as
   * some server lacks it and the key, every round another such server learns the key.
   */
  lemma PoolsAgreeExactly(run: Run, client: nat, key: Bytes)
    requires Setting(run, client, key)
    ensures PoolsAgree(run, client) <==> WindowsAgree(run, client) && NoGaps(run, client)
  {
    if PoolsAgree(run, client) { AgreementNeedsWindows(run, client, key); }
    if WindowsAgree(run, client) {
      AgreeingIsCoded(run, client, key);
      AgreeExactly(run, CodingOf(run, client, key));
    }
  }

  /** Keys in step leave no gap: whoever took a piece in knew the key, so everyone did. */
  lemma InStepPoolsAgree(run: Run, client: nat, key: Bytes)
    requires Setting(run, client, key) && WindowsAgree(run, client) && KeysInStep(run, client)
    ensures PoolsAgree(run, client)
  {
    var c := CodingOf(run, client, key);
    AgreeingIsCoded(run, client, key);
    forall i | TakenIn(run, client, i) ensures NoGap(run, client, i) { InStepNoGap(run, c, i); }
    KeysSuffice(run, c);
  }

  /** A server that knew the key after its window knows it in every phase. */
  lemma {:induction false} StillHasKey(run: Run, c: Coding, t: nat, p: nat)
    requires Valid(run) && p in run.honest && t <= run.Last() && FinalKey(run, c.client, c.key, p) && HasKey(c, run.states(0, p))
    ensures HasKey(c, run.states(t, p))
  {
    if t > 0 {
      StillHasKey(run, c, t - 1, p);
      KeyIsAtMost(run, c, t, p);
      PhaseGrows(run, c, t, p);
    }
  }

  lemma WindowPosted(run: Run, c: Coding, h: nat)
    requires Valid(run) && h in run.honest && KeyAtMost(c, run.states(0, h))
    ensures Posted(c, run.states(0, h), run.outs(0, h))
  {
    assert StartOk(run, h);
    RunOpsPosted(run.sch, c, h, run.ops(h));
  }

  /** A window takes a piece in under a key it knows. */
  lemma TakerHasKey(run: Run, c: Coding, i: nat, h: nat)
    requires Valid(run) && h in run.honest && FinalKey(run, c.client, c.key, h) && i in Window(run, c.client, h)
    ensures HasKey(c, run.states(0, h))
  {
    KeyIsAtMost(run, c, 0, h);
    WindowPosted(run, c, h);
    assert HoldsFragment(run.states(0, h), c.client, i);
  }

  lemma InStepNoGap(run: Run, c: Coding, i: nat)
    requires Valid(run) && FinalKeys(run, c.client, c.key)
    requires KeysInStep(run, c.client) && TakenIn(run, c.client, i)
    ensures NoGap(run, c.client, i)
  {
    forall t: nat, p | 1 <= t <= run.Last() && p in run.honest ensures NoGapAt(run, c.client, i, t, p) {
      AllKnow(run, c, i, t, p);
    }
  }

  lemma AllKnow(run: Run, c: Coding, i: nat, t: nat, p: nat)
    requires Valid(run) && FinalKeys(run, c.client, c.key)
    requires KeysInStep(run, c.client) && TakenIn(run, c.client, i) && t <= run.Last() && p in run.honest
    ensures Knows(run, c.client, t, p)
  {
    var h :| h in run.honest && i in Window(run, c.client, h);
    TakerHasKey(run, c, i, h);
    SameKey(run, c, 0, p, h);
    StillHasKey(run, c, t, p);
    ReportIs(c, run.states(t, p));
  }

  lemma AgreeExactly(run: Run, c: Coding)
    requires Travels(run, c)
    ensures PoolsAgree(run, c.client) <==> NoGaps(run, c.client)
  {
    if PoolsAgree(run, c.client) {
      forall i | TakenIn(run, c.client, i) ensures NoGap(run, c.client, i) { AgreementNeedsKeys(run, c, i); }
    }
    if NoGaps(run, c.client) { KeysSuffice(run, c); }
  }
}
