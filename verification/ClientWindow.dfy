/** The client window: everything a server does before the first Dolev-Strong round. */
module ClientWindow {
  import opened Basics
  import opened ClientSetTypes
  import opened SetServers
  import opened AbsorbFacts

  datatype ClientOp =
    | NoteOp(client: nat, key: Bytes)
    | ReceiveOp(bundle: Bundle)
    | SubmitOp(fragments: seq<Fragment>)
    | OriginateOp

  function StepOp(sch: Scheme, s: Server, op: ClientOp): (Server, seq<Relay>) {
    match op
    case NoteOp(c, key) => (NoteBulletin(s, c, key), [])
    case ReceiveOp(b) => (Receive(sch, s, b).0, [])
    case SubmitOp(fs) => Submit(sch, s, fs)
    case OriginateOp => Originate(sch, s)
  }

  function RunOps(sch: Scheme, id: nat, ops: seq<ClientOp>): (Server, seq<Relay>)
    decreases |ops|
  {
    if ops == [] then (NewServer(id), [])
    else
      var (s, out) := RunOps(sch, id, ops[..|ops| - 1]);
      var (t, more) := StepOp(sch, s, ops[|ops| - 1]);
      (t, out + more)
  }

  // ---------------------------------------------------------------- what the window leaves

  /** A server's own signature opens every chain, over an item it accepted. */
  ghost predicate WindowRelay(sch: Scheme, s: Server, m: Relay) {
    && m == FirstRelay(sch, s.id, m.item)
    && (m.item.BatchItem? ==> s.relaying && m.item.batch == BatchOf(sch, s))
  }

  ghost predicate WindowInv(sch: Scheme, s: Server, out: seq<Relay>) {
    && (forall id :: id in s.accepted <==> Names(out, id))
    && (forall m :: m in out ==> WindowRelay(sch, s, m))
    && (s.relaying ==> s.batches == map[s.id := BatchOf(sch, s)] && IdOf(BatchItem(BatchOf(sch, s))) in s.accepted)
    && (!s.relaying ==> s.batches == map[])
  }

  lemma {:induction false} StoreFragmentsFacts(s: Server, vetted: seq<Fragment>)
    ensures var (t, novel) := StoreFragments(s, vetted);
            && SameClientSide(s, t) && t.batches == s.batches
            && (forall f :: f in novel ==> f in vetted)
            && (forall id :: id in t.accepted <==> id in s.accepted || exists f :: f in novel && IdOf(FragmentItem(f)) == id)
    decreases |vetted|
  {
    if vetted != [] {
      StoreFragmentsFacts(s, vetted[..|vetted| - 1]);
      var (s1, out1) := StoreFragments(s, vetted[..|vetted| - 1]);
      var f := vetted[|vetted| - 1];
      assert forall g :: g in out1 + [f] <==> g in out1 || g == f;
    }
  }

  lemma FirstRelaysNames(sch: Scheme, me: nat, items: seq<Item>, id: ItemId)
    ensures Names(FirstRelays(sch, me, items), id) <==> exists i :: 0 <= i < |items| && IdOf(items[i]) == id
  {
    var out := FirstRelays(sch, me, items);
    if i :| 0 <= i < |items| && IdOf(items[i]) == id {
      assert out[i] in out;
    }
    if Names(out, id) {
      var m :| m in out && IdOf(m.item) == id;
      var i :| 0 <= i < |out| && out[i] == m;
      assert IdOf(items[i]) == id;
    }
  }

  lemma SubmitFacts(sch: Scheme, s: Server, fs: seq<Fragment>)
    ensures var (t, out) := Submit(sch, s, fs);
            && SameClientSide(s, t) && t.batches == s.batches
            && (forall id :: id in t.accepted <==> id in s.accepted || Names(out, id))
            && (forall m :: m in out ==> m.item.FragmentItem? && m == FirstRelay(sch, s.id, m.item) && m.item.fragment in Vetted(sch, s, fs))
  {
    var vetted := Vetted(sch, s, fs);
    StoreFragmentsFacts(s, vetted);
    var (t, novel) := StoreFragments(s, vetted);
    var items := FragmentItems(novel);
    var out := FirstRelays(sch, s.id, items);
    forall id ensures id in t.accepted <==> id in s.accepted || Names(out, id) {
      FirstRelaysNames(sch, s.id, items, id);
      if f :| f in novel && IdOf(FragmentItem(f)) == id {
        var i :| 0 <= i < |novel| && novel[i] == f;
        assert IdOf(items[i]) == id;
      }
      if i :| 0 <= i < |items| && IdOf(items[i]) == id {
        assert novel[i] in novel;
      }
    }
  }

  ghost predicate OriginalRelay(sch: Scheme, s: Server, m: Relay) {
    && m == FirstRelay(sch, s.id, m.item)
    && (m.item.BatchItem? ==> m.item.batch == BatchOf(sch, s))
    && (m.item.FragmentItem? ==> Stored(s, m.item.fragment))
  }

  lemma OriginateFacts(sch: Scheme, s: Server)
    ensures var (t, out) := Originate(sch, s);
            && t.id == s.id && t.held == s.held && t.bulletins == s.bulletins && t.fragments == s.fragments
            && BatchOf(sch, t) == BatchOf(sch, s)
            && (forall id :: id in t.accepted <==> id in s.accepted || Names(out, id))
            && IdOf(BatchItem(BatchOf(sch, s))) in t.accepted
            && (forall m :: m in out ==> OriginalRelay(sch, s, m))
  {
    var items := OriginateItems(sch, s);
    var (t, out) := Originate(sch, s);
    forall id ensures id in t.accepted <==> id in s.accepted || Names(out, id) {
      FirstRelaysNames(sch, s.id, items, id);
    }
    assert items[0] == BatchItem(BatchOf(sch, s));
    forall m | m in out ensures OriginalRelay(sch, s, m) {
      var i :| 0 <= i < |out| && out[i] == m;
      if m.item.FragmentItem? {
        assert m.item == items[i] && i > 0;
        var fs := FragmentsOf(s.fragments, Sorted(s.fragments.Keys));
        assert FragmentItems(fs)[i - 1] == items[i];
        assert fs[i - 1] in fs;
      }
    }
  }

  ghost predicate Stored(s: Server, f: Fragment) {
    exists c, i :: HoldsFragment(s, c, i) && s.fragments[c][i] == f
  }

  lemma StepOpInv(sch: Scheme, s: Server, op: ClientOp, out: seq<Relay>)
    requires WindowInv(sch, s, out)
    ensures var (t, more) := StepOp(sch, s, op);
            t.id == s.id && WindowInv(sch, t, out + more) && (s.relaying || op.OriginateOp? ==> t.relaying)
  {
    var (t, more) := StepOp(sch, s, op);
    match op {
      case NoteOp(c, key) =>
        assert out + more == out;
        assert forall m :: WindowRelay(sch, s, m) ==> WindowRelay(sch, t, m);
      case ReceiveOp(b) =>
        assert out + more == out;
        if s.relaying {
          assert t == s;
        } else {
          assert forall m :: WindowRelay(sch, s, m) ==> WindowRelay(sch, t, m);
        }
      case SubmitOp(fs) => SubmitInv(sch, s, fs, out);
      case OriginateOp => OriginateInv(sch, s, out);
    }
  }

  lemma SubmitInv(sch: Scheme, s: Server, fs: seq<Fragment>, out: seq<Relay>)
    requires WindowInv(sch, s, out)
    ensures var (t, more) := Submit(sch, s, fs); SameClientSide(s, t) && WindowInv(sch, t, out + more)
  {
    SubmitFacts(sch, s, fs);
    var (t, more) := Submit(sch, s, fs);
    assert BatchOf(sch, t) == BatchOf(sch, s);
    OutputGrows(sch, s, t, out, more);
  }

  lemma OriginateInv(sch: Scheme, s: Server, out: seq<Relay>)
    requires WindowInv(sch, s, out)
    ensures var (t, more) := Originate(sch, s); t.id == s.id && t.relaying && WindowInv(sch, t, out + more)
  {
    OriginateFacts(sch, s);
    var (t, more) := Originate(sch, s);
    OutputGrows(sch, s, t, out, more);
  }

  lemma OutputGrows(sch: Scheme, s: Server, t: Server, out: seq<Relay>, more: seq<Relay>)
    requires forall id :: id in s.accepted <==> Names(out, id)
    requires forall m :: m in out ==> WindowRelay(sch, s, m)
    requires s.id == t.id && BatchOf(sch, t) == BatchOf(sch, s) && (s.relaying ==> t.relaying)
    requires forall id :: id in t.accepted <==> id in s.accepted || Names(more, id)
    requires forall m :: m in more ==> WindowRelay(sch, t, m)
    ensures forall id :: id in t.accepted <==> Names(out + more, id)
    ensures forall m :: m in out + more ==> WindowRelay(sch, t, m)
  {
    forall id ensures id in t.accepted <==> Names(out + more, id) {
      NamesAppend(out, more, id);
    }
    forall m | m in out + more ensures WindowRelay(sch, t, m) {
      assert m in out ==> WindowRelay(sch, s, m);
    }
  }

  lemma {:induction false} WindowHolds(sch: Scheme, id: nat, ops: seq<ClientOp>)
    ensures var (s, out) := RunOps(sch, id, ops);
            s.id == id && WindowInv(sch, s, out) && (OriginateOp in ops ==> s.relaying)
    decreases |ops|
  {
    if ops != [] {
      var n := |ops| - 1;
      WindowHolds(sch, id, ops[..n]);
      var (s, out) := RunOps(sch, id, ops[..n]);
      StepOpInv(sch, s, ops[n], out);
      assert ops == ops[..n] + [ops[n]];
    } else {
      assert forall i :: !Names([], i);
    }
  }
}
