/**
 * A run without a single fault in which a lane admitted a client it is short of, and
 * serves the bundle it holds under another key instead of sitting the round out.
 */
module ShortLaneWitness {
  import opened Basics
  import opened ClientSetTypes
  import opened Repair
  import opened SetServers
  import opened ClientWindow
  import opened DolevStrong
  import opened AgreedPool
  import opened PlannedRuns
  import opened PoolSpread
  import opened FragmentWitnesses
  import opened Finalize
  import opened SetAgreement

  // ---------------------------------------------------------------- the plan

  /** Learn the client's key, receive a bundle, open the relay rounds. */
  function Holding(key: Bytes, b: Bundle): seq<ClientOp> { [NoteOp(b.client, key), ReceiveOp(b), OriginateOp] }

  /** Every server learns `key` and receives its bundle; nobody submits a fragment. */
  function Bundled(key: Bytes, bundles: nat -> Bundle): Plan {
    Clean((p: nat) => Holding(key, bundles(p)), (r: nat, p: nat) => [])
  }

  /** A valid bundle of the client for lane `p`. */
  ghost predicate Issued(sch: Scheme, c: nat, pubkey: Bytes, p: nat, b: Bundle) {
    b.client == c && b.lane == p && b.pubkey == pubkey && BundleValid(sch, b)
  }

  function KeyAt(key: Bytes, other: Bytes, p: nat): Bytes { if p == 0 then other else key }

  /** Lane 0's bundle is under `other`, every other lane's under `key`. */
  ghost predicate OneOff(sch: Scheme, c: nat, key: Bytes, other: Bytes, bundles: nat -> Bundle) {
    key != other && forall p: nat :: p < sch.n ==> Issued(sch, c, KeyAt(key, other, p), p, bundles(p))
  }

  // ---------------------------------------------------------------- what the windows leave

  function OneHeld(sch: Scheme, b: Bundle): map<nat, map<Bytes, Bundle>> { map[b.client := map[sch.bundleHash(b) := b]] }

  function OneReceipt(sch: Scheme, b: Bundle): seq<Receipt> { [Receipt(b.client, b.pubkey, sch.bundleHash(b))] }

  lemma FirstBundle(sch: Scheme, s: Server, b: Bundle)
    requires !s.relaying && s.held == map[] && b.lane == s.id && BundleValid(sch, b)
    ensures Receive(sch, s, b).0 == s.(held := OneHeld(sch, b))
  {
    var hash := sch.bundleHash(b);
    var none: map<Bytes, Bundle> := map[];
    assert none[hash := b] == map[hash := b];
    assert s.held[b.client := map[hash := b]] == OneHeld(sch, b);
  }

  ghost predicate Left(sch: Scheme, s: Server, key: Bytes, b: Bundle) {
    s.held == OneHeld(sch, b) && s.bulletins == Posts(b.client, key) && s.fragments == map[]
  }

  lemma HoldingLeaves(sch: Scheme, id: nat, key: Bytes, b: Bundle)
    requires b.lane == id && BundleValid(sch, b)
    ensures Left(sch, RunOps(sch, id, Holding(key, b)).0, key, b)
  {
    AfterNote(sch, id, b.client, key);
    HoldingAfter(sch, id, [NoteOp(b.client, key)], NewServer(id).(bulletins := Posts(b.client, key)), key, b);
    assert [NoteOp(b.client, key)] + [ReceiveOp(b)] + [OriginateOp] == Holding(key, b);
  }

  lemma HoldingAfter(sch: Scheme, id: nat, ops: seq<ClientOp>, s: Server, key: Bytes, b: Bundle)
    requires RunOps(sch, id, ops).0 == s && b.lane == id && BundleValid(sch, b)
    requires s == NewServer(id).(bulletins := Posts(b.client, key))
    ensures Left(sch, RunOps(sch, id, ops + [ReceiveOp(b)] + [OriginateOp]).0, key, b)
  {
    var mid := ops + [ReceiveOp(b)];
    FirstBundle(sch, s, b);
    After(sch, id, ops, ReceiveOp(b), mid, s);
    After(sch, id, mid, OriginateOp, mid + [OriginateOp], s.(held := OneHeld(sch, b)));
  }

  lemma SortedOne(c: nat)
    ensures Sorted({c}) == [c]
  {
    AscendingUnique(Sorted({c}), [c]);
  }

  lemma LeastOne(h: Bytes)
    ensures LexLeast({h}) == h
  {
  }

  lemma RowOne(sch: Scheme, b: Bundle)
    ensures Receipts(OneHeld(sch, b)) == OneReceipt(sch, b)
  {
    var held := OneHeld(sch, b);
    SortedOne(b.client);
    LeastOne(sch.bundleHash(b));
    assert held.Keys == {b.client} && held[b.client].Keys == {sch.bundleHash(b)};
    ReceiptsOne(held, [b.client]);
  }

  lemma ReceiptsOne(held: map<nat, map<Bytes, Bundle>>, clients: seq<nat>)
    requires |clients| == 1 && clients[0] in held && held[clients[0]] != map[]
    requires forall c :: c in clients ==> c in held
    ensures var hash := LexLeast(held[clients[0]].Keys);
            ReceiptsFor(held, clients) == [Receipt(clients[0], held[clients[0]][hash].pubkey, hash)]
  {
    assert clients[1..] == [];
    assert ReceiptsFor(held, clients[1..]) == [];
  }

  // ---------------------------------------------------------------- what the run ends with

  ghost predicate StartsHolding(run: Run, key: Bytes, bundles: nat -> Bundle, p: nat) {
    Left(run.sch, run.states(0, p), key, bundles(p)) && SingleSubmits(run.ops(p))
  }

  ghost predicate BundledRun(run: Run, c: nat, key: Bytes, other: Bytes, bundles: nat -> Bundle) {
    && Valid(run) && Quiet(run) && OneOff(run.sch, c, key, other, bundles)
    && (forall j: nat :: j in run.honest <==> j < run.sch.n)
    && (forall p {:trigger StartsHolding(run, key, bundles, p)} :: p in run.honest ==> StartsHolding(run, key, bundles, p))
    && (forall r: nat, p: nat :: run.noted(r, p) == [])
  }

  lemma StartsSo(run: Run, c: nat, key: Bytes, other: Bytes, bundles: nat -> Bundle, p: nat)
    requires Valid(run) && p in run.honest && p < run.sch.n && OneOff(run.sch, c, key, other, bundles)
    requires run.ops == Bundled(key, bundles).ops
    ensures StartsHolding(run, key, bundles, p)
  {
    assert StartOk(run, p);
    assert Issued(run.sch, c, KeyAt(key, other, p), p, bundles(p));
    HoldingLeaves(run.sch, p, key, bundles(p));
  }

  lemma EndsPosted(run: Run, c: nat, key: Bytes, other: Bytes, bundles: nat -> Bundle, p: nat)
    requires BundledRun(run, c, key, other, bundles) && p in run.honest
    ensures Final(run, p).bulletins == Posts(c, key) && FinalKey(run, c, key, p)
    ensures Final(run, p).id == p && Final(run, p).held == OneHeld(run.sch, bundles(p))
  {
    assert StartsHolding(run, key, bundles, p) && Issued(run.sch, c, KeyAt(key, other, p), p, bundles(p));
    KeysStand(run, run.Last(), p);
    SameServer(run, run.Last(), p);
    KeyReported(Final(run, p), c, key);
  }

  lemma NoneTaken(run: Run, c: nat, key: Bytes, other: Bytes, bundles: nat -> Bundle, p: nat)
    requires BundledRun(run, c, key, other, bundles) && p in run.honest
    ensures PoolSpread.Window(run, c, p) == map[]
  {
    assert StartsHolding(run, key, bundles, p);
  }

  lemma InSetting(run: Run, c: nat, key: Bytes, other: Bytes, bundles: nat -> Bundle)
    requires BundledRun(run, c, key, other, bundles)
    ensures Setting(run, c, key) && WindowsAgree(run, c)
  {
    forall p | p in run.honest ensures FinalKey(run, c, key, p) { EndsPosted(run, c, key, other, bundles, p); }
    forall p | p in run.honest ensures SingleSubmits(run.ops(p)) { assert StartsHolding(run, key, bundles, p); }
    forall p, q, i | p in run.honest && q in run.honest ensures WindowsAgreeAt(run, c, p, q, i) {
      NoneTaken(run, c, key, other, bundles, p);
    }
  }

  /** No server ever has a piece of the client. */
  lemma EndsWithout(run: Run, c: nat, key: Bytes, other: Bytes, bundles: nat -> Bundle, p: nat)
    requires BundledRun(run, c, key, other, bundles) && p in run.honest
    ensures Pool(Final(run, p), c) == map[]
  {
    InSetting(run, c, key, other, bundles);
    AgreeingIsCoded(run, c, key);
    var pool := Pool(Final(run, p), c);
    if pool != map[] {
      var i :| i in pool.Keys;
      NotEnded(run, c, key, other, bundles, p, i);
    }
  }

  lemma NotEnded(run: Run, c: nat, key: Bytes, other: Bytes, bundles: nat -> Bundle, p: nat, i: nat)
    requires BundledRun(run, c, key, other, bundles) && p in run.honest && StaysCoded(run, CodingOf(run, c, key))
    ensures i !in End(run, c, p)
  {
    if i in End(run, c, p) {
      EndWasTaken(run, CodingOf(run, c, key), p, i);
      var h :| h in run.honest && i in PoolSpread.Window(run, c, h);
      NoneTaken(run, c, key, other, bundles, h);
      assert false;
    }
  }

  /** Every lane's one receipt. */
  function AllRows(sch: Scheme, bundles: nat -> Bundle): map<nat, seq<Receipt>> {
    map j: nat | j < sch.n :: OneReceipt(sch, bundles(j))
  }

  lemma KnownBatch(run: Run, p: nat, j: nat)
    requires Valid(run) && p in run.honest && j in Final(run, p).batches
    ensures j < run.sch.n
  {
    var rows: Rows := i => None;
    RowsInSync(run, rows, run.Last(), p);
    assert RowHeld(run.sch, rows, Final(run, p), j);
  }

  lemma LaneRow(run: Run, c: nat, key: Bytes, other: Bytes, bundles: nat -> Bundle, p: nat, j: nat)
    requires BundledRun(run, c, key, other, bundles) && p in run.honest && j < run.sch.n
    ensures j in Final(run, p).batches && Final(run, p).batches[j].receipts == OneReceipt(run.sch, bundles(j))
  {
    HonestRowEverywhere(run, j, p);
    assert StartsHolding(run, key, bundles, j);
    RowOne(run.sch, bundles(j));
  }

  lemma EndMatrix(run: Run, c: nat, key: Bytes, other: Bytes, bundles: nat -> Bundle, p: nat)
    requires BundledRun(run, c, key, other, bundles) && p in run.honest
    ensures Matrix(Final(run, p)) == AllRows(run.sch, bundles)
  {
    var m := Matrix(Final(run, p));
    forall j: nat ensures j in m <==> j < run.sch.n {
      if j in m { KnownBatch(run, p, j); }
      if j < run.sch.n { LaneRow(run, c, key, other, bundles, p, j); }
    }
    forall j | j in m ensures m[j] == OneReceipt(run.sch, bundles(j)) {
      LaneRow(run, c, key, other, bundles, p, j);
    }
  }

  // ---------------------------------------------------------------- what is decided

  /** The view every server ends with. */
  ghost predicate OneOffView(sch: Scheme, v: View, c: nat, key: Bytes, bundles: nat -> Bundle) {
    v.matrix == AllRows(sch, bundles) && v.bulletins == Posts(c, key) && v.pool == map[c := map[]]
  }

  lemma EndView(run: Run, c: nat, key: Bytes, other: Bytes, bundles: nat -> Bundle, p: nat)
    requires BundledRun(run, c, key, other, bundles) && p in run.honest
    ensures OneOffView(run.sch, ViewOf(Final(run, p)), c, key, bundles)
  {
    EndMatrix(run, c, key, other, bundles, p);
    EndsPosted(run, c, key, other, bundles, p);
    EndsWithout(run, c, key, other, bundles, p);
    assert |{key}| == 1;
  }

  lemma LaneReports(sch: Scheme, c: nat, key: Bytes, other: Bytes, bundles: nat -> Bundle, l: nat)
    requires OneOff(sch, c, key, other, bundles) && l < sch.n
    ensures Reports(OneReceipt(sch, bundles(l)), c, key) <==> l != 0
  {
    assert Issued(sch, c, KeyAt(key, other, l), l, bundles(l));
    var rs := OneReceipt(sch, bundles(l));
    assert |rs| == 1 && rs[0].client == c && rs[0].key == KeyAt(key, other, l);
  }

  lemma OnlyLaneZeroMissing(t: Tools, v: View, c: nat, key: Bytes, other: Bytes, bundles: nat -> Bundle)
    requires OneOff(t.sch, c, key, other, bundles) && OneOffView(t.sch, v, c, key, bundles) && t.sch.n > 0
    ensures MissingLanes(t, v, c, key) == [0]
  {
    var missing := MissingLanes(t, v, c, key);
    forall l: nat ensures l in missing <==> l in [0] {
      if l < t.sch.n {
        LaneReports(t.sch, c, key, other, bundles, l);
        assert v.matrix[l] == OneReceipt(t.sch, bundles(l));
      }
    }
    AscendingUnique(missing, [0]);
  }

  lemma NothingRebuilds(t: Tools, v: View, c: nat, key: Bytes, bundles: nat -> Bundle)
    requires OneOffView(t.sch, v, c, key, bundles) && t.sch.k < t.sch.n
    ensures RebuiltFor(t, v, c, key) == None
  {
    var pool: map<nat, Share> := map[];
    assert v.pool[c] == pool;
    SortedLength(pool.Keys);
    assert Reconstructed(t.sch, t.e, pool) == None;
  }

  lemma OnlyClient(t: Tools, v: View, c: nat, key: Bytes, other: Bytes, bundles: nat -> Bundle)
    requires OneOff(t.sch, c, key, other, bundles) && OneOffView(t.sch, v, c, key, bundles) && t.sch.n > 0
    ensures Clients(v) == [c]
  {
    forall x ensures x in ClientSetOf(v.matrix) <==> x == c {
      forall l | l in v.matrix ensures v.matrix[l][0].client == c && |v.matrix[l]| == 1 {
        assert Issued(t.sch, c, KeyAt(key, other, l), l, bundles(l));
      }
      if x == c {
        assert 0 in v.matrix && 0 < |v.matrix[0]| && v.matrix[0][0].client == c;
      }
    }
    AscendingUnique(Clients(v), [c]);
  }

  /** The client is in, and lane 0, which it is short of, is to sit the round out. */
  const Zero: seq<nat> := [0]

  function WithoutLaneZero(c: nat): Decision { Decision([c], [], [], {0}, map[], map[c := Zero]) }

  lemma JudgedShort(budget: nat, c: nat)
    requires budget >= 1
    ensures JudgeBy(budget, Undecided, c, Short(Zero)) == WithoutLaneZero(c)
  {
    assert Members(Zero) == {0};
    var cost := Undecided.abstaining + Members(Zero);
    assert cost == {0} && |cost| == 1;
    assert Undecided.unrepaired[c := Zero] == map[c := Zero];
  }

  lemma JudgesOne(t: Tools, v: View, c: nat)
    ensures JudgeAll(t, v, [c]) == Judge(t, v, Undecided, c)
  {
    assert [c][..0] == [];
    assert JudgeAll(t, v, []) == Undecided;
  }

  lemma DecidesShort(t: Tools, v: View, c: nat, key: Bytes, other: Bytes, bundles: nat -> Bundle)
    requires OneOff(t.sch, c, key, other, bundles) && OneOffView(t.sch, v, c, key, bundles) && t.sch.k < t.sch.n
    ensures Decide(t, v) == WithoutLaneZero(c)
  {
    OnlyClient(t, v, c, key, other, bundles);
    OnlyLaneZeroMissing(t, v, c, key, other, bundles);
    NothingRebuilds(t, v, c, key, bundles);
    assert |{key}| == 1;
    assert ReportedKey(v.bulletins, c) == Some(key);
    assert StandingOf(t, v, c) == Short(Zero);
    JudgesOne(t, v, c);
    JudgedShort(SatSub(t.sch.n, t.sch.k), c);
  }

  // ---------------------------------------------------------------- what lane 0 serves

  lemma OwnFound(s: Server, sch: Scheme, c: nat, b: Bundle)
    requires s.id in s.batches && s.batches[s.id].receipts == OneReceipt(sch, b) && b.client == c && s.held == OneHeld(sch, b)
    ensures OwnBundleOf(s, c) == Some(b)
  {
    var rs := OneReceipt(sch, b);
    assert rs[0].client == c;
    assert FindReceipt(rs, c) == Some(rs[0]);
  }

  lemma ServesOnly(t: Tools, s: Server, d: Decision, c: nat, b: Bundle)
    requires Served(s, d, c) == Some(b)
    ensures ServeAll(t, s, d, [c]).lane == [(c, b.share, b.path)]
  {
    assert [c][..0] == [];
    var out := ServeAll(t, s, d, []);
    assert out.lane == [];
    var none: seq<(nat, Share, Path)> := [];
    assert none + [(c, b.share, b.path)] == [(c, b.share, b.path)];
  }

  lemma LaneZeroServes(t: Tools, run: Run, c: nat, key: Bytes, other: Bytes, bundles: nat -> Bundle)
    requires BundledRun(run, c, key, other, bundles) && run.sch.n > 0
    ensures Served(Final(run, 0), WithoutLaneZero(c), c) == Some(bundles(0))
  {
    EndsPosted(run, c, key, other, bundles, 0);
    LaneRow(run, c, key, other, bundles, 0, 0);
    assert Issued(run.sch, c, KeyAt(key, other, 0), 0, bundles(0));
    OwnFound(Final(run, 0), run.sch, c, bundles(0));
  }

  /** Everyone decides that lane 0 sits the round out, and lane 0 serves its bundle all the same. */
  ghost predicate ServesOther(t: Tools, run: Run, c: nat, b: Bundle) {
    && 0 in run.honest && (forall p :: p in run.honest ==> Decide(t, ViewOf(Final(run, p))) == WithoutLaneZero(c))
    && Served(Final(run, 0), WithoutLaneZero(c), c) == Some(b)
    && FinalizeRound(t, Final(run, 0)).lane == [(c, b.share, b.path)]
  }

  lemma BundledServes(t: Tools, run: Run, c: nat, key: Bytes, other: Bytes, bundles: nat -> Bundle)
    requires t.sch == run.sch && run.sch.k < run.sch.n && BundledRun(run, c, key, other, bundles)
    ensures ServesOther(t, run, c, bundles(0))
  {
    forall p | p in run.honest ensures Decide(t, ViewOf(Final(run, p))) == WithoutLaneZero(c) {
      EndView(run, c, key, other, bundles, p);
      DecidesShort(t, ViewOf(Final(run, p)), c, key, other, bundles);
    }
    LaneZeroServes(t, run, c, key, other, bundles);
    ServesOnly(t, Final(run, 0), WithoutLaneZero(c), c, bundles(0));
  }

  lemma BundledIs(run: Run, c: nat, key: Bytes, other: Bytes, bundles: nat -> Bundle)
    requires Valid(run) && Quiet(run) && OneOff(run.sch, c, key, other, bundles)
    requires (forall j: nat :: j in run.honest <==> j < run.sch.n)
    requires run.ops == Bundled(key, bundles).ops && run.noted == Bundled(key, bundles).noted
    ensures BundledRun(run, c, key, other, bundles)
  {
    forall p | p in run.honest ensures StartsHolding(run, key, bundles, p) { StartsSo(run, c, key, other, bundles, p); }
  }

  /**
   * Lane 0 was given the client's bundle under `other`, all others theirs under `key`, which
   * is the key the client posted. With no fault, every server decides to admit the client
   * with lane 0 sitting the round out; lane 0, whose row names the client, serves the
   * bundle under `other` instead.
   */
  lemma OtherKeyIsServed(t: Tools, c: nat, key: Bytes, other: Bytes, bundles: nat -> Bundle)
    requires Sound(t.sch) && t.sch.k < t.sch.n && OneOff(t.sch, c, key, other, bundles)
    ensures var run := Planned(t.sch, Bundled(key, bundles));
            Valid(run) && run.faulty == {} && ServesOther(t, run, c, bundles(0)) && bundles(0).pubkey == other
  {
    forall p: nat ensures OriginateOp in Bundled(key, bundles).ops(p) { Opens(key, bundles(p)); }
    CleanIsValid(t.sch, Bundled(key, bundles));
    PlannedIs(t.sch, Bundled(key, bundles));
    ClosedIsQuiet(Planned(t.sch, Bundled(key, bundles)), Bundled(key, bundles));
    BundledIs(Planned(t.sch, Bundled(key, bundles)), c, key, other, bundles);
    BundledServes(t, Planned(t.sch, Bundled(key, bundles)), c, key, other, bundles);
    assert Issued(t.sch, c, KeyAt(key, other, 0), 0, bundles(0));
  }

  lemma Opens(key: Bytes, b: Bundle)
    ensures OriginateOp in Holding(key, b)
  {
    assert Holding(key, b)[2] == OriginateOp;
  }
}
