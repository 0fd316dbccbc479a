/** From agreement on items to agreement on the pool every server finalizes over: the matrix
    of receipt rows, and the fragments of each client with one boot key. */
module AgreedPool {
  import opened Basics
  import opened ClientSetTypes
  import opened SetServers
  import opened AbsorbFacts
  import opened ClientWindow
  import opened DolevStrong

  // ---------------------------------------------------------------- rows

  /** Lanes known to sign at most one row, and that row. */
  type Rows = nat -> Option<seq<Receipt>>

  ghost predicate RowExpected(sch: Scheme, rows: Rows, item: Item) {
    (item.BatchItem? && BatchValid(sch, item.batch) && rows(item.batch.server).Some?) ==>
      item.batch.receipts == rows(item.batch.server).value
  }

  ghost predicate RowHeld(sch: Scheme, rows: Rows, s: Server, j: nat)
    requires j in s.batches
  {
    var b := s.batches[j];
    b.server == j && BatchValid(sch, b) && BatchId(j, b.receipts) in s.accepted && RowExpected(sch, rows, BatchItem(b))
  }

  ghost predicate RowSync(sch: Scheme, rows: Rows, s: Server) {
    && (forall j :: j in s.batches ==> RowHeld(sch, rows, s, j))
    && (forall j, rs :: BatchId(j, rs) in s.accepted ==>
          j in s.batches && (rows(j).Some? ==> rs == rows(j).value))
  }

  lemma AbsorbOneRows(sch: Scheme, rows: Rows, s: Server, round: nat, r: Relay)
    requires RowSync(sch, rows, s) && RowExpected(sch, rows, r.item)
    ensures RowSync(sch, rows, AbsorbOne(sch, s, round, r).0)
  {
    TakeFacts(sch, s, r.item);
    if r.item.FragmentItem? {
      SameRows(sch, rows, s, AbsorbOne(sch, s, round, r).0, r.item);
    } else {
      AbsorbBatchRows(sch, rows, s, round, r);
    }
  }

  lemma SameRows(sch: Scheme, rows: Rows, s: Server, t: Server, item: Item)
    requires RowSync(sch, rows, s) && item.FragmentItem? && t.batches == s.batches && t.id == s.id
    requires s.accepted <= t.accepted <= s.accepted + {IdOf(item)}
    ensures RowSync(sch, rows, t)
  {
    forall j | j in t.batches ensures RowHeld(sch, rows, t, j) {
      assert RowHeld(sch, rows, s, j);
    }
  }

  lemma AbsorbBatchRows(sch: Scheme, rows: Rows, s: Server, round: nat, r: Relay)
    requires RowSync(sch, rows, s) && RowExpected(sch, rows, r.item) && r.item.BatchItem?
    ensures RowSync(sch, rows, AbsorbOne(sch, s, round, r).0)
  {
    var t := AbsorbOne(sch, s, round, r).0;
    forall j | j in t.batches ensures RowHeld(sch, rows, t, j) {
      if j in s.batches { assert RowHeld(sch, rows, s, j); }
    }
  }

  lemma {:induction false} AbsorbAllRows(sch: Scheme, rows: Rows, s: Server, round: nat, rs: seq<Relay>)
    requires RowSync(sch, rows, s) && forall r :: r in rs ==> RowExpected(sch, rows, r.item)
    ensures RowSync(sch, rows, AbsorbAll(sch, s, round, rs).0)
    decreases |rs|
  {
    if rs != [] {
      AbsorbAllRows(sch, rows, s, round, rs[..|rs| - 1]);
      AbsorbOneRows(sch, rows, AbsorbAll(sch, s, round, rs[..|rs| - 1]).0, round, rs[|rs| - 1]);
    }
  }

  /** `rows` is right about every batch honest servers are sent, and about their own. */
  ghost predicate RowsKnown(run: Run, rows: Rows) {
    && (forall p :: p in run.honest && rows(p).Some? ==> rows(p).value == Row(run, p))
    && (forall r: nat, p, m :: 1 <= r <= run.Last() && p in run.honest && m in run.ins(r, p) ==> RowExpected(run.sch, rows, m.item))
  }

  lemma {:induction false} RowsInSync(run: Run, rows: Rows, r: nat, p: nat)
    requires Valid(run) && RowsKnown(run, rows) && r <= run.Last() && p in run.honest
    ensures RowSync(run.sch, rows, run.states(r, p))
  {
    if r == 0 {
      WindowRows(run, rows, p);
    } else {
      RowsInSync(run, rows, r - 1, p);
      RowsStep(run, rows, r, p);
    }
  }

  lemma RowsSame(sch: Scheme, rows: Rows, s: Server, t: Server)
    requires RowSync(sch, rows, s) && t.id == s.id && t.batches == s.batches && t.accepted == s.accepted
    ensures RowSync(sch, rows, t)
  {
    forall j | j in t.batches ensures RowHeld(sch, rows, t, j) {
      assert RowHeld(sch, rows, s, j);
    }
  }

  lemma RowsStep(run: Run, rows: Rows, r: nat, p: nat)
    requires Valid(run) && RowsKnown(run, rows) && 1 <= r <= run.Last() && p in run.honest
    requires RowSync(run.sch, rows, run.states(r - 1, p))
    ensures RowSync(run.sch, rows, run.states(r, p))
  {
    RowsSame(run.sch, rows, run.states(r - 1, p), Before(run, r, p));
    AbsorbAllRows(run.sch, rows, Before(run, r, p), r, Picked(run.ins(r, p), true) + Picked(run.ins(r, p), false));
    StepIs(run, r, p);
  }

  lemma WindowRows(run: Run, rows: Rows, p: nat)
    requires Valid(run) && RowsKnown(run, rows) && p in run.honest
    ensures RowSync(run.sch, rows, run.states(0, p))
  {
    Start(run, p);
    var s := run.states(0, p);
    var own := BatchOf(run.sch, s);
    assert run.sch.serverVerify(p, BatchMsg(p, own.receipts), own.sig);
    assert RowHeld(run.sch, rows, s, p);
    forall j, rs | BatchId(j, rs) in s.accepted
      ensures j in s.batches && (rows(j).Some? ==> rs == rows(j).value)
    {
      var m :| m in run.outs(0, p) && IdOf(m.item) == BatchId(j, rs);
      assert WindowRelay(run.sch, s, m);
    }
  }

  /** Totality: every honest lane's own row is in every honest server's matrix. */
  lemma HonestRowEverywhere(run: Run, p: nat, q: nat)
    requires Valid(run) && p in run.honest && q in run.honest
    ensures var pool := run.states(run.Last(), q).batches;
            p in pool && pool[p].receipts == Row(run, p)
  {
    var rows: Rows := j => if j in run.honest then Some(Row(run, j)) else None;
    forall r: nat, h, m | 1 <= r <= run.Last() && h in run.honest && m in run.ins(r, h)
      ensures RowExpected(run.sch, rows, m.item)
    {
      assert RowOk(run, m.item);
    }
    Start(run, p);
    var id := BatchId(p, Row(run, p));
    StaysAccepted(run, 0, run.Last(), p, id);
    Agreement(run, p, q, p, Row(run, p));
    RowsInSync(run, rows, run.Last(), q);
    assert RowHeld(run.sch, rows, run.states(run.Last(), q), p);
  }

  function Matrix(s: Server): map<nat, seq<Receipt>> {
    map j | j in s.batches :: s.batches[j].receipts
  }

  /** The server has accepted at most one row of lane `j`. */
  ghost predicate OneRowAt(s: Server, j: nat) {
    forall rs, qs :: BatchId(j, rs) in s.accepted && BatchId(j, qs) in s.accepted ==> rs == qs
  }

  /** Honest servers end having accepted at most one row of each lane. */
  ghost predicate OneRowEach(run: Run) {
    forall p, j {:trigger OneRowAt(run.states(run.Last(), p), j)} :: p in run.honest ==> OneRowAt(run.states(run.Last(), p), j)
  }

  /** So it is when lanes sign at most one row each: rows no honest server is sent cannot matter. */
  lemma KnownRowsAreOne(run: Run, rows: Rows)
    requires Valid(run) && RowsKnown(run, rows) && forall j :: rows(j).Some?
    ensures OneRowEach(run)
  {
    forall p, j | p in run.honest ensures OneRowAt(run.states(run.Last(), p), j) {
      RowsInSync(run, rows, run.Last(), p);
    }
  }

  /** What a server holds it has accepted, and it holds a row of every lane it accepted one of. */
  lemma HeldRows(run: Run, p: nat, j: nat, rs: seq<Receipt>)
    requires Valid(run) && p in run.honest
    ensures var s := run.states(run.Last(), p);
            && (j in s.batches ==> BatchId(j, s.batches[j].receipts) in s.accepted)
            && (BatchId(j, rs) in s.accepted ==> j in s.batches)
  {
    var unknown: Rows := i => None;
    RowsInSync(run, unknown, run.Last(), p);
    var s := run.states(run.Last(), p);
    if j in s.batches { assert RowHeld(run.sch, unknown, s, j); }
  }

  /** With one accepted row per lane, every honest server ends with the same matrix. */
  lemma MatrixAgreement(run: Run, p: nat, q: nat)
    requires Valid(run) && OneRowEach(run) && p in run.honest && q in run.honest
    ensures Matrix(run.states(run.Last(), p)) == Matrix(run.states(run.Last(), q))
  {
    MatrixContained(run, p, q);
    MatrixContained(run, q, p);
  }

  lemma MatrixContained(run: Run, p: nat, q: nat)
    requires Valid(run) && OneRowEach(run) && p in run.honest && q in run.honest
    ensures var a, b := run.states(run.Last(), p).batches, run.states(run.Last(), q).batches;
            forall j :: j in a ==> j in b && a[j].receipts == b[j].receipts
  {
    var a, b := run.states(run.Last(), p).batches, run.states(run.Last(), q).batches;
    forall j | j in a ensures j in b && a[j].receipts == b[j].receipts { SameRow(run, p, q, j); }
  }

  lemma SameRow(run: Run, p: nat, q: nat, j: nat)
    requires Valid(run) && OneRowEach(run) && p in run.honest && q in run.honest && j in run.states(run.Last(), p).batches
    ensures var a, b := run.states(run.Last(), p).batches, run.states(run.Last(), q).batches;
            j in b && a[j].receipts == b[j].receipts
  {
    var rs := run.states(run.Last(), p).batches[j].receipts;
    HeldRows(run, p, j, rs);
    Agreement(run, p, q, j, rs);
    HeldRows(run, q, j, rs);
    assert OneRowAt(run.states(run.Last(), q), j);
  }

  // ---------------------------------------------------------------- fragments

  /** A client with one boot key `key`, whose signed fragment under each index is `coded`. */
  datatype Coding = Coding(client: nat, key: Bytes, coded: nat -> Share)

  /** `f` is a fragment of the client, signed under its key: then it is the one for its index. */
  ghost predicate Coded(sch: Scheme, c: Coding, f: Fragment) {
    (f.client == c.client && FragmentSigned(sch, c.key, f)) ==> f.data == c.coded(f.idx)
  }

  ghost predicate KeyAtMost(c: Coding, s: Server) {
    c.client in s.bulletins ==> s.bulletins[c.client] <= {c.key}
  }

  ghost predicate FragmentHeld(sch: Scheme, c: Coding, s: Server, i: nat)
    requires HoldsFragment(s, c.client, i)
  {
    var f := s.fragments[c.client][i];
    && f.client == c.client && f.idx == i < sch.n
    && FragmentSigned(sch, c.key, f) && f.data == c.coded(i)
    && FragmentId(c.client, i, c.coded(i)) in s.accepted
  }

  ghost predicate FragmentSync(sch: Scheme, c: Coding, s: Server) {
    && (forall i :: HoldsFragment(s, c.client, i) ==> FragmentHeld(sch, c, s, i))
    && (forall i, d :: FragmentId(c.client, i, d) in s.accepted ==> HoldsFragment(s, c.client, i) && d == c.coded(i))
  }

  lemma StoreOneFragments(sch: Scheme, c: Coding, s: Server, f: Fragment)
    requires FragmentSync(sch, c, s) && Coded(sch, c, f)
    requires f.client == c.client ==> f.idx < sch.n && FragmentSigned(sch, c.key, f)
    ensures FragmentSync(sch, c, StoreOne(s, f).0)
    ensures SameClientSide(s, StoreOne(s, f).0)
  {
    var t := StoreOne(s, f).0;
    forall i ensures HoldsFragment(t, c.client, i) <==> HoldsFragment(s, c.client, i) || (f.client == c.client && f.idx == i) {
      StoredWhere(s, f, c.client, i);
    }
    forall i | HoldsFragment(t, c.client, i) ensures FragmentHeld(sch, c, t, i) {
      StoredWhere(s, f, c.client, i);
      if HoldsFragment(s, c.client, i) { assert FragmentHeld(sch, c, s, i); }
    }
  }

  /** Storing a fragment touches its own index only. */
  lemma StoredWhere(s: Server, f: Fragment, client: nat, i: nat)
    ensures var t := StoreOne(s, f).0;
            && (HoldsFragment(t, client, i) <==> HoldsFragment(s, client, i) || (f.client == client && f.idx == i))
            && (HoldsFragment(t, client, i) ==>
                  t.fragments[client][i] == if f.client == client && f.idx == i then f else s.fragments[client][i])
  {
  }

  lemma {:induction false} StoreAllFragments(sch: Scheme, c: Coding, s: Server, vetted: seq<Fragment>)
    requires FragmentSync(sch, c, s)
    requires forall f :: f in vetted ==> Coded(sch, c, f) && (f.client == c.client ==> f.idx < sch.n && FragmentSigned(sch, c.key, f))
    ensures FragmentSync(sch, c, StoreFragments(s, vetted).0)
    decreases |vetted|
  {
    if vetted != [] {
      var n := |vetted| - 1;
      StoreAllFragments(sch, c, s, vetted[..n]);
      assert vetted[n] in vetted;
      StoreOneFragments(sch, c, StoreFragments(s, vetted[..n]).0, vetted[n]);
    }
  }

  lemma StorableKey(sch: Scheme, c: Coding, s: Server, f: Fragment)
    requires KeyAtMost(c, s) && Storable(sch, s, f) && f.client == c.client
    ensures f.idx < sch.n && FragmentSigned(sch, c.key, f)
  {
    var keys := s.bulletins[c.client];
    assert ReportedKey(s.bulletins, c.client).value in keys;
  }

  lemma AcceptFragmentsSync(sch: Scheme, c: Coding, s: Server, fs: seq<Fragment>)
    requires FragmentSync(sch, c, s) && KeyAtMost(c, s) && forall f :: f in fs ==> Coded(sch, c, f)
    ensures FragmentSync(sch, c, AcceptFragments(sch, s, fs).0)
  {
    var vetted := Vetted(sch, s, fs);
    forall f | f in vetted
      ensures Coded(sch, c, f) && (f.client == c.client ==> f.idx < sch.n && FragmentSigned(sch, c.key, f))
    {
      if f.client == c.client { StorableKey(sch, c, s, f); }
    }
    StoreAllFragments(sch, c, s, vetted);
  }

  lemma AbsorbOneFragments(sch: Scheme, c: Coding, s: Server, round: nat, r: Relay)
    requires FragmentSync(sch, c, s) && KeyAtMost(c, s)
    requires r.item.FragmentItem? ==> Coded(sch, c, r.item.fragment)
    ensures FragmentSync(sch, c, AbsorbOne(sch, s, round, r).0)
  {
    TakeFacts(sch, s, r.item);
    match r.item
    case FragmentItem(f) => AcceptFragmentsSync(sch, c, s, [f]);
    case BatchItem(b) =>
      var t := AbsorbOne(sch, s, round, r).0;
      forall i | HoldsFragment(t, c.client, i) ensures FragmentHeld(sch, c, t, i) {
        assert FragmentHeld(sch, c, s, i);
      }
  }

  /** A signed fragment of the client with a long enough chain ends accepted. */
  lemma AbsorbOneTakes(sch: Scheme, c: Coding, s: Server, round: nat, r: Relay)
    requires FragmentSync(sch, c, s) && ReportedKey(s.bulletins, c.client) == Some(c.key)
    requires r.item.FragmentItem? && r.item.fragment.client == c.client && r.item.fragment.idx < sch.n
    requires FragmentSigned(sch, c.key, r.item.fragment) && Coded(sch, c, r.item.fragment)
    requires |Signers(sch, IdOf(r.item), r.chain)| >= round
    ensures IdOf(r.item) in AbsorbOne(sch, s, round, r).0.accepted
  {
    var f := r.item.fragment;
    TakeFragment(sch, s, f);
    if HoldsFragment(s, c.client, f.idx) {
      assert FragmentHeld(sch, c, s, f.idx);
    } else {
      assert Storable(sch, s, f);
    }
  }

  ghost predicate AllCoded(sch: Scheme, c: Coding, rs: seq<Relay>) {
    forall r :: r in rs && r.item.FragmentItem? ==> Coded(sch, c, r.item.fragment)
  }

  lemma {:induction false} AbsorbAllFragments(sch: Scheme, c: Coding, s: Server, round: nat, rs: seq<Relay>)
    requires FragmentSync(sch, c, s) && KeyAtMost(c, s) && AllCoded(sch, c, rs)
    ensures FragmentSync(sch, c, AbsorbAll(sch, s, round, rs).0)
    ensures SameClientSide(s, AbsorbAll(sch, s, round, rs).0)
    decreases |rs|
  {
    if rs != [] {
      var n := |rs| - 1;
      AbsorbAllFragments(sch, c, s, round, rs[..n]);
      assert rs[n] in rs;
      var t := AbsorbAll(sch, s, round, rs[..n]).0;
      AbsorbOneFragments(sch, c, t, round, rs[n]);
      TakeFacts(sch, t, rs[n].item);
    }
  }

  lemma FragmentDelivered(sch: Scheme, c: Coding, s: Server, round: nat, rs: seq<Relay>, r: Relay)
    requires FragmentSync(sch, c, s) && ReportedKey(s.bulletins, c.client) == Some(c.key) && AllCoded(sch, c, rs)
    requires r in rs && r.item.FragmentItem? && r.item.fragment.client == c.client && r.item.fragment.idx < sch.n
    requires FragmentSigned(sch, c.key, r.item.fragment)
    requires |Signers(sch, IdOf(r.item), r.chain)| >= round
    ensures IdOf(r.item) in AbsorbAll(sch, s, round, rs).0.accepted
  {
    var i :| 0 <= i < |rs| && rs[i] == r;
    assert forall x :: x in rs[..i] ==> x in rs;
    AbsorbAllFragments(sch, c, s, round, rs[..i]);
    AbsorbOneTakes(sch, c, AbsorbAll(sch, s, round, rs[..i]).0, round, r);
    AbsorbedAt(sch, s, round, rs, i, IdOf(r.item));
  }

  // ---------------------------------------------------------------- fragments over a run

  ghost predicate SubmitsCoded(sch: Scheme, c: Coding, ops: seq<ClientOp>) {
    forall op :: op in ops && op.SubmitOp? ==> forall f :: f in op.fragments ==> Coded(sch, c, f)
  }

  /** The server ends with `key` as the client's one boot key. */
  ghost predicate FinalKey(run: Run, client: nat, key: Bytes, p: nat) {
    ReportedKey(run.states(run.Last(), p).bulletins, client) == Some(key)
  }

  ghost predicate FinalKeys(run: Run, client: nat, key: Bytes) {
    forall p {:trigger FinalKey(run, client, key, p)} :: p in run.honest ==> FinalKey(run, client, key, p)
  }

  /** The client ends with one key at every honest server, and has one signed fragment per
      index in everything they are sent. */
  ghost predicate Codes(run: Run, c: Coding) {
    && FinalKeys(run, c.client, c.key)
    && (forall p :: p in run.honest ==> SubmitsCoded(run.sch, c, run.ops(p)))
    && (forall r: nat, p {:trigger AllCoded(run.sch, c, run.ins(r, p))} ::
          1 <= r <= run.Last() && p in run.honest ==> AllCoded(run.sch, c, run.ins(r, p)))
  }

  /** In each phase honest servers report the client alike: its key reaches them together. */
  ghost predicate KeysInStep(run: Run, client: nat) {
    forall r: nat, p, q :: r <= run.Last() && p in run.honest && q in run.honest ==> SameReport(run, r, p, q, client)
  }

  ghost predicate SameReport(run: Run, r: nat, p: nat, q: nat, client: nat) {
    ReportedKey(run.states(r, p).bulletins, client) == ReportedKey(run.states(r, q).bulletins, client)
  }

  ghost predicate OneCoding(run: Run, c: Coding) { Codes(run, c) && KeysInStep(run, c.client) }

  /** What that leaves after the windows, and all that later phases rely on. */
  ghost predicate StaysCoded(run: Run, c: Coding) {
    && FinalKeys(run, c.client, c.key)
    && (forall p {:trigger WindowCoded(run, c, p)} :: p in run.honest ==> WindowCoded(run, c, p))
    && (forall r: nat, p {:trigger AllCoded(run.sch, c, run.ins(r, p))} ::
          1 <= r <= run.Last() && p in run.honest ==> AllCoded(run.sch, c, run.ins(r, p)))
  }

  ghost predicate WindowCoded(run: Run, c: Coding, p: nat) {
    FragmentSync(run.sch, c, run.states(0, p)) && OutSigned(run.sch, c, run.outs(0, p))
  }

  ghost predicate InStep(run: Run, c: Coding) { StaysCoded(run, c) && KeysInStep(run, c.client) }

  // ---------------------------------------------------------------- boot keys over a run

  /** The server has been posted the client's key, and no other. */
  ghost predicate HasKey(c: Coding, s: Server) { c.client in s.bulletins && s.bulletins[c.client] == {c.key} }

  lemma ReportIs(c: Coding, s: Server)
    ensures ReportedKey(s.bulletins, c.client) == Some(c.key) <==> HasKey(c, s)
    ensures KeyAtMost(c, s) && ReportedKey(s.bulletins, c.client).Some? ==> HasKey(c, s)
  {
    if c.client in s.bulletins && |s.bulletins[c.client]| == 1 {
      assert TheElement(s.bulletins[c.client]) in s.bulletins[c.client];
    }
  }

  /** Boot keys are only ever added. */
  ghost predicate KeysGrow(c: Coding, s: Server, t: Server) {
    c.client in s.bulletins ==> c.client in t.bulletins && s.bulletins[c.client] <= t.bulletins[c.client]
  }

  lemma {:induction false} NotesGrow(c: Coding, s: Server, notes: seq<(nat, Bytes)>)
    ensures KeysGrow(c, s, NoteAll(s, notes))
  {
    if notes != [] { NotesGrow(c, s, notes[..|notes| - 1]); }
  }

  lemma PhaseGrows(run: Run, c: Coding, r: nat, p: nat)
    requires Valid(run) && p in run.honest && 1 <= r <= run.Last()
    ensures KeysGrow(c, run.states(r - 1, p), Before(run, r, p))
    ensures run.states(r, p).bulletins == Before(run, r, p).bulletins
  {
    NotesGrow(c, run.states(r - 1, p), run.noted(r, p));
    Step(run, r, p);
  }

  lemma {:induction false} KeyIsAtMost(run: Run, c: Coding, r: nat, p: nat)
    requires Valid(run) && r <= run.Last() && p in run.honest
    requires FinalKey(run, c.client, c.key, p)
    ensures KeyAtMost(c, run.states(r, p))
    decreases run.Last() - r
  {
    if r == run.Last() {
      ReportIs(c, run.states(r, p));
    } else {
      KeyIsAtMost(run, c, r + 1, p);
      KeyWasAtMost(run, c, r + 1, p);
    }
  }

  lemma KeyWasAtMost(run: Run, c: Coding, r: nat, p: nat)
    requires Valid(run) && p in run.honest && 1 <= r <= run.Last() && KeyAtMost(c, run.states(r, p))
    ensures KeyAtMost(c, run.states(r - 1, p))
  {
    PhaseGrows(run, c, r, p);
  }

  /** Every relayed fragment of the client is one any server would vet. */
  ghost predicate OutSigned(sch: Scheme, c: Coding, out: seq<Relay>) {
    forall m :: m in out && m.item.FragmentItem? && m.item.fragment.client == c.client ==>
      m.item.fragment.idx < sch.n && FragmentSigned(sch, c.key, m.item.fragment)
  }

  ghost predicate Keyed(s: Server) {
    forall cl, i :: HoldsFragment(s, cl, i) ==> s.fragments[cl][i].client == cl
  }

  lemma {:induction false} StoreKeyed(s: Server, vetted: seq<Fragment>)
    requires Keyed(s)
    ensures Keyed(StoreFragments(s, vetted).0)
    decreases |vetted|
  {
    if vetted != [] { StoreKeyed(s, vetted[..|vetted| - 1]); }
  }

  lemma SyncSame(sch: Scheme, c: Coding, s: Server, t: Server)
    requires FragmentSync(sch, c, s) && t.fragments == s.fragments
    requires forall i, d :: FragmentId(c.client, i, d) in t.accepted <==> FragmentId(c.client, i, d) in s.accepted
    ensures FragmentSync(sch, c, t)
  {
    forall i | HoldsFragment(t, c.client, i) ensures FragmentHeld(sch, c, t, i) {
      assert FragmentHeld(sch, c, s, i);
    }
  }

  lemma SubmitFragments(sch: Scheme, c: Coding, s: Server, fs: seq<Fragment>)
    requires FragmentSync(sch, c, s) && KeyAtMost(c, s) && forall f :: f in fs ==> Coded(sch, c, f)
    ensures FragmentSync(sch, c, Submit(sch, s, fs).0)
    ensures OutSigned(sch, c, Submit(sch, s, fs).1)
  {
    AcceptFragmentsSync(sch, c, s, fs);
    SubmitFacts(sch, s, fs);
    var out := Submit(sch, s, fs).1;
    forall m | m in out && m.item.FragmentItem? && m.item.fragment.client == c.client
      ensures m.item.fragment.idx < sch.n && FragmentSigned(sch, c.key, m.item.fragment)
    {
      StorableKey(sch, c, s, m.item.fragment);
    }
  }

  lemma OriginateRelay(sch: Scheme, c: Coding, s: Server, m: Relay)
    requires FragmentSync(sch, c, s) && Keyed(s)
    requires OriginalRelay(sch, s, m) && m.item.FragmentItem? && m.item.fragment.client == c.client
    ensures m.item.fragment.idx < sch.n && FragmentSigned(sch, c.key, m.item.fragment)
    ensures IdOf(m.item) in s.accepted
  {
    var cl, i :| HoldsFragment(s, cl, i) && s.fragments[cl][i] == m.item.fragment;
    assert FragmentHeld(sch, c, s, i);
  }

  lemma OriginateFragments(sch: Scheme, c: Coding, s: Server)
    requires FragmentSync(sch, c, s) && Keyed(s)
    ensures FragmentSync(sch, c, Originate(sch, s).0)
    ensures OutSigned(sch, c, Originate(sch, s).1)
  {
    OriginateFacts(sch, s);
    var (t, out) := Originate(sch, s);
    forall m | m in out && m.item.FragmentItem? && m.item.fragment.client == c.client
      ensures m.item.fragment.idx < sch.n && FragmentSigned(sch, c.key, m.item.fragment)
    {
      OriginateRelay(sch, c, s, m);
    }
    forall i, d ensures FragmentId(c.client, i, d) in t.accepted <==> FragmentId(c.client, i, d) in s.accepted {
      if FragmentId(c.client, i, d) in t.accepted && FragmentId(c.client, i, d) !in s.accepted {
        var m :| m in out && IdOf(m.item) == FragmentId(c.client, i, d);
        OriginateRelay(sch, c, s, m);
      }
    }
    SyncSame(sch, c, s, t);
  }

  lemma StepOpFragments(sch: Scheme, c: Coding, s: Server, op: ClientOp)
    requires FragmentSync(sch, c, s) && KeyAtMost(c, s) && Keyed(s)
    requires op.SubmitOp? ==> forall f :: f in op.fragments ==> Coded(sch, c, f)
    ensures var (t, out) := StepOp(sch, s, op);
            FragmentSync(sch, c, t) && Keyed(t) && OutSigned(sch, c, out)
  {
    match op
    case NoteOp(_, _) => SyncSame(sch, c, s, StepOp(sch, s, op).0);
    case ReceiveOp(_) => SyncSame(sch, c, s, StepOp(sch, s, op).0);
    case SubmitOp(fs) =>
      SubmitFragments(sch, c, s, fs);
      StoreKeyed(s, Vetted(sch, s, fs));
    case OriginateOp => OriginateFragments(sch, c, s);
  }

  lemma StepOpKeys(sch: Scheme, c: Coding, s: Server, op: ClientOp)
    ensures KeyAtMost(c, StepOp(sch, s, op).0) ==> KeyAtMost(c, s)
  {
    match op
    case SubmitOp(fs) => SubmitFacts(sch, s, fs);
    case _ =>
  }

  lemma {:induction false} RunOpsFragments(sch: Scheme, c: Coding, id: nat, ops: seq<ClientOp>)
    requires SubmitsCoded(sch, c, ops) && KeyAtMost(c, RunOps(sch, id, ops).0)
    ensures var (s, out) := RunOps(sch, id, ops);
            FragmentSync(sch, c, s) && Keyed(s) && OutSigned(sch, c, out)
    decreases |ops|
  {
    if ops != [] {
      var n := |ops| - 1;
      var s := RunOps(sch, id, ops[..n]).0;
      assert ops[n] in ops;
      StepOpKeys(sch, c, s, ops[n]);
      RunOpsFragments(sch, c, id, ops[..n]);
      StepOpFragments(sch, c, s, ops[n]);
    }
  }

  /** Stored and sent fragments of the client were vetted under a key the server still has. */
  ghost predicate Posted(c: Coding, s: Server, out: seq<Relay>) {
    && (forall i :: HoldsFragment(s, c.client, i) ==> HasKey(c, s))
    && (forall m :: m in out && m.item.FragmentItem? && m.item.fragment.client == c.client ==> HasKey(c, s))
  }

  lemma {:induction false} StoreNeedsSome(s: Server, vetted: seq<Fragment>, client: nat, i: nat)
    ensures HoldsFragment(StoreFragments(s, vetted).0, client, i) ==>
      HoldsFragment(s, client, i) || exists f :: f in vetted && f.client == client
    decreases |vetted|
  {
    if vetted != [] {
      var n := |vetted| - 1;
      StoreNeedsSome(s, vetted[..n], client, i);
      StoredWhere(StoreFragments(s, vetted[..n]).0, vetted[n], client, i);
      assert vetted[n] in vetted;
    }
  }

  lemma SubmitPosted(sch: Scheme, c: Coding, s: Server, fs: seq<Fragment>, out: seq<Relay>)
    requires Posted(c, s, out) && KeyAtMost(c, s)
    ensures var (t, more) := Submit(sch, s, fs); Posted(c, t, out + more)
  {
    SubmitFacts(sch, s, fs);
    ReportIs(c, s);
    var (t, more) := Submit(sch, s, fs);
    forall i | HoldsFragment(t, c.client, i) ensures HasKey(c, t) {
      StoreNeedsSome(s, Vetted(sch, s, fs), c.client, i);
    }
  }

  lemma SamePosted(c: Coding, s: Server, t: Server, out: seq<Relay>)
    requires Posted(c, s, out) && t.fragments == s.fragments && t.bulletins == s.bulletins
    ensures Posted(c, t, out)
  {
    assert forall i :: HoldsFragment(t, c.client, i) <==> HoldsFragment(s, c.client, i);
  }

  lemma OriginalHeld(sch: Scheme, s: Server, client: nat, m: Relay) returns (i: nat)
    requires Keyed(s) && OriginalRelay(sch, s, m) && m.item.FragmentItem? && m.item.fragment.client == client
    ensures HoldsFragment(s, client, i)
  {
    var cl, k :| HoldsFragment(s, cl, k) && s.fragments[cl][k] == m.item.fragment;
    i := k;
  }

  lemma OriginatePosted(sch: Scheme, c: Coding, s: Server, out: seq<Relay>)
    requires Posted(c, s, out) && Keyed(s)
    ensures var (t, more) := Originate(sch, s); Posted(c, t, out + more)
  {
    OriginateFacts(sch, s);
    var (t, more) := Originate(sch, s);
    SamePosted(c, s, t, out);
    forall m | m in more && m.item.FragmentItem? && m.item.fragment.client == c.client ensures HasKey(c, t) {
      var i := OriginalHeld(sch, s, c.client, m);
    }
    PostedAppend(c, t, out, more);
  }

  lemma PostedAppend(c: Coding, s: Server, out: seq<Relay>, more: seq<Relay>)
    requires Posted(c, s, out)
    requires forall m :: m in more && m.item.FragmentItem? && m.item.fragment.client == c.client ==> HasKey(c, s)
    ensures Posted(c, s, out + more)
  {
  }

  lemma NotePosted(c: Coding, s: Server, client: nat, key: Bytes, out: seq<Relay>)
    requires Posted(c, s, out) && KeyAtMost(c, NoteBulletin(s, client, key))
    ensures Posted(c, NoteBulletin(s, client, key), out)
  {
    var t := NoteBulletin(s, client, key);
    assert forall i :: HoldsFragment(t, c.client, i) <==> HoldsFragment(s, c.client, i);
    assert HasKey(c, s) ==> HasKey(c, t);
  }

  lemma {:induction false} RunOpsPosted(sch: Scheme, c: Coding, id: nat, ops: seq<ClientOp>)
    requires KeyAtMost(c, RunOps(sch, id, ops).0)
    ensures var (s, out) := RunOps(sch, id, ops); Posted(c, s, out) && Keyed(s)
    decreases |ops|
  {
    if ops != [] {
      var n := |ops| - 1;
      var (s, out) := RunOps(sch, id, ops[..n]);
      StepOpKeys(sch, c, s, ops[n]);
      RunOpsPosted(sch, c, id, ops[..n]);
      StepOpPosted(sch, c, s, ops[n], out);
    }
  }

  lemma StepOpPosted(sch: Scheme, c: Coding, s: Server, op: ClientOp, out: seq<Relay>)
    requires Posted(c, s, out) && Keyed(s) && KeyAtMost(c, StepOp(sch, s, op).0)
    ensures var (t, more) := StepOp(sch, s, op); Posted(c, t, out + more) && Keyed(t)
  {
    StepOpKeys(sch, c, s, op);
    match op
    case NoteOp(client, key) =>
      NotePosted(c, s, client, key, out);
      assert out + [] == out;
    case ReceiveOp(b) =>
      SamePosted(c, s, Receive(sch, s, b).0, out);
      assert out + [] == out;
    case SubmitOp(fs) =>
      SubmitPosted(sch, c, s, fs, out);
      StoreKeyed(s, Vetted(sch, s, fs));
    case OriginateOp => OriginatePosted(sch, c, s, out);
  }

  lemma OrderedCoded(sch: Scheme, c: Coding, rs: seq<Relay>)
    requires AllCoded(sch, c, rs)
    ensures AllCoded(sch, c, Picked(rs, true) + Picked(rs, false))
  {
  }

  lemma {:induction false} FragmentsInSync(run: Run, c: Coding, r: nat, p: nat)
    requires Valid(run) && StaysCoded(run, c) && r <= run.Last() && p in run.honest
    ensures FragmentSync(run.sch, c, run.states(r, p))
  {
    KeyIsAtMost(run, c, r, p);
    if r == 0 {
      assert WindowCoded(run, c, p);
    } else {
      FragmentsInSync(run, c, r - 1, p);
      SyncStep(run, c, r, p);
    }
  }

  lemma SyncStep(run: Run, c: Coding, r: nat, p: nat)
    requires Valid(run) && StaysCoded(run, c) && 1 <= r <= run.Last() && p in run.honest
    requires FragmentSync(run.sch, c, run.states(r - 1, p)) && KeyAtMost(c, run.states(r, p))
    ensures FragmentSync(run.sch, c, run.states(r, p))
  {
    Step(run, r, p);
    SyncSame(run.sch, c, run.states(r - 1, p), Before(run, r, p));
    OrderedCoded(run.sch, c, run.ins(r, p));
    AbsorbAllFragments(run.sch, c, Before(run, r, p), r, Picked(run.ins(r, p), true) + Picked(run.ins(r, p), false));
    StepIs(run, r, p);
  }

  /** A fragment an honest server sends was vetted under a key it holds by then. */
  lemma SentUnderKey(run: Run, c: Coding, r: nat, p: nat, m: Relay)
    requires Valid(run) && StaysCoded(run, c) && r <= run.Last() && p in run.honest
    requires m in run.outs(r, p) && m.item.FragmentItem? && m.item.fragment.client == c.client
    ensures HasKey(c, run.states(r, p))
    ensures m.item.fragment.idx < run.sch.n && FragmentSigned(run.sch, c.key, m.item.fragment)
  {
    KeyIsAtMost(run, c, r, p);
    if r == 0 {
      assert WindowCoded(run, c, p);
      assert StartOk(run, p);
      RunOpsPosted(run.sch, c, p, run.ops(p));
    } else {
      var m0 := Forwarded(run, r, p, m);
      PhaseGrows(run, c, r, p);
      ReportIs(c, Before(run, r, p));
      ReportIs(c, run.states(r, p));
    }
  }

  lemma SameKey(run: Run, c: Coding, r: nat, p: nat, q: nat)
    requires KeysInStep(run, c.client) && r <= run.Last() && p in run.honest && q in run.honest
    requires HasKey(c, run.states(r, q))
    ensures HasKey(c, run.states(r, p))
  {
    assert SameReport(run, r, p, q, c.client);
    ReportIs(c, run.states(r, q));
    ReportIs(c, run.states(r, p));
  }

  lemma KeyStays(c: Coding, s: Server, t: Server)
    requires HasKey(c, s) && KeysGrow(c, s, t) && KeyAtMost(c, t)
    ensures ReportedKey(t.bulletins, c.client) == Some(c.key)
  {
    ReportIs(c, t);
  }

  /** By the next phase every honest server holds that key too. */
  lemma KeyArrives(run: Run, c: Coding, r: nat, p: nat, q: nat)
    requires Valid(run) && InStep(run, c) && r + 1 <= run.Last() && p in run.honest && q in run.honest
    requires HasKey(c, run.states(r, q))
    ensures ReportedKey(Before(run, r + 1, p).bulletins, c.client) == Some(c.key)
  {
    SameKey(run, c, r, p, q);
    KeyCarriesOver(run, c, r + 1, p);
  }

  lemma KeyCarriesOver(run: Run, c: Coding, r: nat, p: nat)
    requires Valid(run) && StaysCoded(run, c) && 1 <= r <= run.Last() && p in run.honest
    requires HasKey(c, run.states(r - 1, p))
    ensures ReportedKey(Before(run, r, p).bulletins, c.client) == Some(c.key)
  {
    PhaseGrows(run, c, r, p);
    KeyIsAtMost(run, c, r, p);
    KeyStays(c, run.states(r - 1, p), Before(run, r, p));
  }

  lemma BeforeInSync(run: Run, c: Coding, r: nat, p: nat)
    requires Valid(run) && StaysCoded(run, c) && 1 <= r <= run.Last() && p in run.honest
    ensures FragmentSync(run.sch, c, Before(run, r, p))
  {
    Step(run, r, p);
    FragmentsInSync(run, c, r - 1, p);
    SyncSame(run.sch, c, run.states(r - 1, p), Before(run, r, p));
  }

  lemma FragmentReaches(run: Run, c: Coding, r: nat, p: nat, q: nat, m: Relay)
    requires Valid(run) && InStep(run, c) && r + 1 <= run.Last() && p in run.honest && q in run.honest && p != q
    requires m in run.outs(r, q) && m.item.FragmentItem? && m.item.fragment.client == c.client
    ensures IdOf(m.item) in run.states(r + 1, p).accepted
  {
    Arrives(run, r, p, q, m);
    KeyReady(run, c, r, p, q, m);
    FragmentAbsorbed(run, c, r + 1, p, m);
  }

  lemma Arrives(run: Run, r: nat, p: nat, q: nat, m: Relay)
    requires Valid(run) && r + 1 <= run.Last() && p in run.honest && q in run.honest && p != q && m in run.outs(r, q)
    ensures m in run.ins(r + 1, p) && |Signers(run.sch, IdOf(m.item), m.chain)| >= r + 1
  {
    LongChain(run, r, q, m);
    assert DeliveryOk(run, r + 1, p, q);
  }

  lemma KeyReady(run: Run, c: Coding, r: nat, p: nat, q: nat, m: Relay)
    requires Valid(run) && InStep(run, c) && r + 1 <= run.Last() && p in run.honest && q in run.honest
    requires m in run.outs(r, q) && m.item.FragmentItem? && m.item.fragment.client == c.client
    ensures m.item.fragment.idx < run.sch.n && FragmentSigned(run.sch, c.key, m.item.fragment)
    ensures ReportedKey(Before(run, r + 1, p).bulletins, c.client) == Some(c.key)
  {
    SentUnderKey(run, c, r, q, m);
    KeyArrives(run, c, r, p, q);
  }

  lemma FragmentAbsorbed(run: Run, c: Coding, r: nat, p: nat, m: Relay)
    requires Valid(run) && StaysCoded(run, c) && 1 <= r <= run.Last() && p in run.honest && m in run.ins(r, p)
    requires m.item.FragmentItem? && m.item.fragment.client == c.client && m.item.fragment.idx < run.sch.n
    requires FragmentSigned(run.sch, c.key, m.item.fragment)
    requires ReportedKey(Before(run, r, p).bulletins, c.client) == Some(c.key)
    requires |Signers(run.sch, IdOf(m.item), m.chain)| >= r
    ensures IdOf(m.item) in run.states(r, p).accepted
  {
    BeforeInSync(run, c, r, p);
    assert AllCoded(run.sch, c, run.ins(r, p));
    AbsorbDeliversFragment(run.sch, c, Before(run, r, p), r, run.ins(r, p), m);
    StepIs(run, r, p);
  }

  lemma StepIs(run: Run, r: nat, p: nat)
    requires Valid(run) && 1 <= r <= run.Last() && p in run.honest
    ensures Absorb(run.sch, Before(run, r, p), r, run.ins(r, p)).0 == run.states(r, p)
  {
    assert StepOk(run, r, p);
  }

  lemma AbsorbDeliversFragment(sch: Scheme, c: Coding, s: Server, round: nat, incoming: seq<Relay>, m: Relay)
    requires FragmentSync(sch, c, s) && ReportedKey(s.bulletins, c.client) == Some(c.key) && AllCoded(sch, c, incoming)
    requires m in incoming && m.item.FragmentItem? && m.item.fragment.client == c.client && m.item.fragment.idx < sch.n
    requires FragmentSigned(sch, c.key, m.item.fragment)
    requires |Signers(sch, IdOf(m.item), m.chain)| >= round
    ensures IdOf(m.item) in Absorb(sch, s, round, incoming).0.accepted
  {
    OrderedCoded(sch, c, incoming);
    FragmentDelivered(sch, c, s, round, Picked(incoming, true) + Picked(incoming, false), m);
  }

  lemma FragmentCarried(run: Run, c: Coding, id: ItemId)
    requires Valid(run) && InStep(run, c) && id.FragmentId? && id.client == c.client
    ensures Carried(run, id)
  {
    forall r: nat, p, q ensures CarriedAt(run, id, r, p, q) { FragmentCarriedAt(run, c, id, r, p, q); }
  }

  lemma FragmentCarriedAt(run: Run, c: Coding, id: ItemId, r: nat, p: nat, q: nat)
    requires Valid(run) && InStep(run, c) && id.FragmentId? && id.client == c.client
    ensures CarriedAt(run, id, r, p, q)
  {
    if r + 1 <= run.Last() && p in run.honest && q in run.honest && Names(run.outs(r, q), id) {
      FragmentReachesEveryone(run, c, r, p, q, id);
    }
  }

  lemma FragmentReachesEveryone(run: Run, c: Coding, r: nat, p: nat, q: nat, id: ItemId)
    requires Valid(run) && InStep(run, c) && id.FragmentId? && id.client == c.client
    requires r + 1 <= run.Last() && p in run.honest && q in run.honest && Names(run.outs(r, q), id)
    ensures id in run.states(r + 1, p).accepted
  {
    if p == q {
      OwnReaches(run, r, p, id);
    } else {
      var m :| m in run.outs(r, q) && IdOf(m.item) == id;
      FragmentReaches(run, c, r, p, q, m);
    }
  }

  /** The coded pieces a server holds of a client. */
  function Pool(s: Server, client: nat): map<nat, Share> {
    if client in s.fragments then map i | i in s.fragments[client] :: s.fragments[client][i].data else map[]
  }

  lemma PoolContained(run: Run, c: Coding, p: nat, q: nat)
    requires Valid(run) && InStep(run, c) && p in run.honest && q in run.honest
    ensures var a, b := Pool(run.states(run.Last(), p), c.client), Pool(run.states(run.Last(), q), c.client);
            forall i :: i in a ==> i in b && a[i] == b[i]
  {
    var s, t := run.states(run.Last(), p), run.states(run.Last(), q);
    FragmentsInSync(run, c, run.Last(), p);
    FragmentsInSync(run, c, run.Last(), q);
    forall i | i in Pool(s, c.client) ensures i in Pool(t, c.client) && Pool(s, c.client)[i] == Pool(t, c.client)[i] {
      assert HoldsFragment(s, c.client, i) && FragmentHeld(run.sch, c, s, i);
      var id := FragmentId(c.client, i, c.coded(i));
      FragmentCarried(run, c, id);
      CarriedAgreement(run, id, p, q);
      assert FragmentHeld(run.sch, c, t, i);
    }
  }

  lemma CodedWindow(run: Run, c: Coding, p: nat)
    requires Valid(run) && Codes(run, c) && p in run.honest
    ensures WindowCoded(run, c, p)
  {
    KeyIsAtMost(run, c, 0, p);
    assert StartOk(run, p);
    RunOpsFragments(run.sch, c, p, run.ops(p));
  }

  lemma CodesStay(run: Run, c: Coding)
    requires Valid(run) && Codes(run, c)
    ensures StaysCoded(run, c)
  {
    forall p | p in run.honest ensures WindowCoded(run, c, p) { CodedWindow(run, c, p); }
  }

  /** A client whose boot key honest servers come to know in the same phase, and who has one
      signed fragment per index, has the same coded pieces at every honest server. */
  lemma PoolAgreement(run: Run, c: Coding, p: nat, q: nat)
    requires Valid(run) && OneCoding(run, c) && p in run.honest && q in run.honest
    ensures Pool(run.states(run.Last(), p), c.client) == Pool(run.states(run.Last(), q), c.client)
  {
    CodesStay(run, c);
    PoolContained(run, c, p, q);
    PoolContained(run, c, q, p);
  }
}
