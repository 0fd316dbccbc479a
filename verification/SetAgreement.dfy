/** The agreed set over a whole run. */
module SetAgreement {
  import opened Basics
  import opened ClientSetTypes
  import opened SetServers
  import opened ClientWindow
  import opened DolevStrong
  import opened AgreedPool
  import opened Finalize

  function Final(run: Run, p: nat): Server { run.states(run.Last(), p) }

  /** Honest servers end with the same bulletins, and every client that ends with one boot key
      came to be reported under it in the same phase everywhere, and has one signed fragment
      per index. */
  ghost predicate SameClients(run: Run, codings: nat -> Coding) {
    && (forall p, q :: p in run.honest && q in run.honest ==> Final(run, p).bulletins == Final(run, q).bulletins)
    && (forall p, c :: p in run.honest && ReportedKey(Final(run, p).bulletins, c).Some? ==>
          codings(c).client == c && OneCoding(run, codings(c)))
  }

  /** Every honest server finalizes over the same view. */
  lemma ViewAgreement(run: Run, codings: nat -> Coding, p: nat, q: nat)
    requires Valid(run) && OneRowEach(run)
    requires SameClients(run, codings) && p in run.honest && q in run.honest
    ensures ViewOf(Final(run, p)) == ViewOf(Final(run, q))
  {
    MatrixAgreement(run, p, q);
    var s, t := Final(run, p), Final(run, q);
    forall c | c in s.bulletins && |s.bulletins[c]| == 1 ensures Pool(s, c) == Pool(t, c) {
      assert ReportedKey(s.bulletins, c).Some?;
      PoolAgreement(run, codings(c), p, q);
    }
  }

  /** Set agreement: with one accepted row per lane, one signed fragment per index and boot keys
      that reach honest servers in step, the set, the excluded and the conflicted clients are the same at every
      honest server. */
  lemma SetsAgree(t: Tools, run: Run, codings: nat -> Coding, p: nat, q: nat)
    requires Valid(run) && OneRowEach(run)
    requires SameClients(run, codings) && p in run.honest && q in run.honest
    ensures var a, b := FinalizeRound(t, Final(run, p)), FinalizeRound(t, Final(run, q));
            a.included == b.included && a.excluded == b.excluded && a.conflicted == b.conflicted
  {
    ViewAgreement(run, codings, p, q);
    var d := Decide(t, ViewOf(Final(run, p)));
    ServeAllSet(t, Final(run, p), d, d.included);
    ServeAllSet(t, Final(run, q), d, d.included);
  }

  // ---------------------------------------------------------------- serving the agreed set

  ghost predicate HeldOk(sch: Scheme, s: Server) {
    forall c, h :: c in s.held && h in s.held[c] ==> HeldBundle(sch, s.id, c, s.held[c][h])
  }

  lemma {:induction false} WindowHeld(sch: Scheme, id: nat, ops: seq<ClientOp>)
    ensures HeldOk(sch, RunOps(sch, id, ops).0) && RunOps(sch, id, ops).0.id == id
    decreases |ops|
  {
    if ops != [] {
      var n := |ops| - 1;
      WindowHeld(sch, id, ops[..n]);
      var s := RunOps(sch, id, ops[..n]).0;
      match ops[n]
      case NoteOp(_, _) =>
      case ReceiveOp(b) => ReceiveHeld(sch, s, b);
      case SubmitOp(fs) => SubmitFacts(sch, s, fs);
      case OriginateOp =>
    }
  }

  lemma ReceiveHeld(sch: Scheme, s: Server, b: Bundle)
    requires HeldOk(sch, s)
    ensures HeldOk(sch, Receive(sch, s, b).0) && Receive(sch, s, b).0.id == s.id
  {
  }

  /** An honest server ends with its own row in the matrix, drawn from what it still holds. */
  lemma HonestOwnRow(run: Run, p: nat)
    requires Valid(run) && p in run.honest
    ensures OwnRow(run.sch, Final(run, p)) && Final(run, p).id == p
  {
    HonestRowEverywhere(run, p, p);
    SameServer(run, run.Last(), p);
    assert StartOk(run, p);
    WindowHeld(run.sch, p, run.ops(p));
  }

  /** Every honest lane outside the abstainers serves every member of the set, in order, each
      with a bundle that verifies for its lane under the client's one boot key. */
  lemma HonestLaneServes(t: Tools, run: Run, p: nat)
    requires t.sch == run.sch && Valid(run) && p in run.honest
    requires p !in Decide(t, ViewOf(Final(run, p))).abstaining
    ensures var s := Final(run, p);
            var d, out := Decide(t, ViewOf(s)), FinalizeRound(t, s);
            out.included == d.included && LaneClients(out.lane) == d.included
            && forall c :: c in d.included ==> Serves(t, s, d, c)
  {
    HonestOwnRow(run, p);
    CorrectLaneServesSet(t, Final(run, p));
  }

  /** An honest lane with no bundle for an included client is one that client was admitted
      without. */
  lemma MissingMeansShort(t: Tools, run: Run, p: nat, c: nat)
    requires t.sch == run.sch && Valid(run) && p in run.honest
    requires c in Decide(t, ViewOf(Final(run, p))).included
    requires Served(Final(run, p), Decide(t, ViewOf(Final(run, p))), c).None?
    ensures ShortOf(Decide(t, ViewOf(Final(run, p))), p, c)
  {
    HonestOwnRow(run, p);
    var s := Final(run, p);
    WhyIncluded(t, ViewOf(s), c);
    if !ShortOf(Decide(t, ViewOf(s)), p, c) {
      ServesUnlessShort(t, s, Decide(t, ViewOf(s)), c);
    }
  }
}
