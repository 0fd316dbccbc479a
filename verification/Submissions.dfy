/** When a submission leaves a server holding what it has accepted, fragment by fragment. */
module Submissions {
  import opened Basics
  import opened ClientSetTypes
  import opened SetServers
  import opened AbsorbFacts
  import opened ClientWindow
  import opened AgreedPool

  predicate At(f: Fragment, client: nat, i: nat) { f.client == client && f.idx == i }

  /** The first fragment of a list under an index. */
  function FirstAt(fs: seq<Fragment>, client: nat, i: nat): Option<Fragment> {
    if fs == [] then None
    else
      var before := FirstAt(fs[..|fs| - 1], client, i);
      if before.Some? then before else if At(fs[|fs| - 1], client, i) then Some(fs[|fs| - 1]) else None
  }

  /** The last fragment of a list under an index. */
  function LastAt(fs: seq<Fragment>, client: nat, i: nat): Option<Fragment> {
    if fs == [] then None
    else if At(fs[|fs| - 1], client, i) then Some(fs[|fs| - 1])
    else LastAt(fs[..|fs| - 1], client, i)
  }

  function Piece(f: Fragment): ItemId { IdOf(FragmentItem(f)) }

  lemma {:induction false} FirstIffLast(fs: seq<Fragment>, client: nat, i: nat)
    ensures FirstAt(fs, client, i).Some? <==> LastAt(fs, client, i).Some?
    ensures FirstAt(fs, client, i).Some? ==> At(FirstAt(fs, client, i).value, client, i) && At(LastAt(fs, client, i).value, client, i)
    ensures FirstAt(fs, client, i).Some? ==> FirstAt(fs, client, i).value in fs && LastAt(fs, client, i).value in fs
  {
    if fs != [] {
      FirstIffLast(fs[..|fs| - 1], client, i);
      assert forall f :: f in fs[..|fs| - 1] ==> f in fs;
      assert fs[|fs| - 1] in fs;
    }
  }

  lemma {:induction false} NoneAt(fs: seq<Fragment>, client: nat, i: nat)
    requires FirstAt(fs, client, i).None?
    ensures forall f :: f in fs ==> !At(f, client, i)
  {
    if fs != [] {
      NoneAt(fs[..|fs| - 1], client, i);
      assert forall f :: f in fs <==> f in fs[..|fs| - 1] || f == fs[|fs| - 1] by {
        assert fs == fs[..|fs| - 1] + [fs[|fs| - 1]];
      }
    }
  }

  // ---------------------------------------------------------------- storing in order

  /** Under an index not held before: the last fragment is what is stored. */
  lemma {:induction false} StoresLast(s: Server, fs: seq<Fragment>, client: nat, i: nat)
    requires !HoldsFragment(s, client, i)
    ensures var t := StoreFragments(s, fs).0;
            && (HoldsFragment(t, client, i) <==> LastAt(fs, client, i).Some?)
            && (HoldsFragment(t, client, i) ==> t.fragments[client][i] == LastAt(fs, client, i).value)
    decreases |fs|
  {
    if fs != [] {
      var n := |fs| - 1;
      StoresLast(s, fs[..n], client, i);
      StoredWhere(StoreFragments(s, fs[..n]).0, fs[n], client, i);
    }
  }

  /** One id of an index is accepted: one accepted before, or the first fragment's. */
  lemma {:induction false} AcceptsFirst(s: Server, fs: seq<Fragment>, client: nat, i: nat, d: Share)
    requires !HoldsFragment(s, client, i)
    ensures var id := FragmentId(client, i, d);
            id in StoreFragments(s, fs).0.accepted <==>
              id in s.accepted || (FirstAt(fs, client, i).Some? && Piece(FirstAt(fs, client, i).value) == id)
    decreases |fs|
  {
    if fs != [] {
      var n := |fs| - 1;
      AcceptsFirst(s, fs[..n], client, i, d);
      StoresLast(s, fs[..n], client, i);
      FirstIffLast(fs[..n], client, i);
      AcceptStep(s, StoreFragments(s, fs[..n]).0, fs, client, i, d);
    }
  }

  lemma AcceptStep(s: Server, mid: Server, fs: seq<Fragment>, client: nat, i: nat, d: Share)
    requires fs != []
    requires var init := fs[..|fs| - 1];
             && (HoldsFragment(mid, client, i) <==> FirstAt(init, client, i).Some?)
             && (FragmentId(client, i, d) in mid.accepted <==>
                   FragmentId(client, i, d) in s.accepted
                   || (FirstAt(init, client, i).Some? && Piece(FirstAt(init, client, i).value) == FragmentId(client, i, d)))
    ensures FragmentId(client, i, d) in StoreOne(mid, fs[|fs| - 1]).0.accepted <==>
              FragmentId(client, i, d) in s.accepted
              || (FirstAt(fs, client, i).Some? && Piece(FirstAt(fs, client, i).value) == FragmentId(client, i, d))
  {
  }

  // ---------------------------------------------------------------- the exact condition

  /** What the server newly holds under an index, it has accepted: before the call, or by forwarding it now. */
  ghost predicate BackedAt(s: Server, t: Server, out: seq<Relay>, client: nat, i: nat) {
    HoldsFragment(t, client, i) && !HoldsFragment(s, client, i) ==>
      Piece(t.fragments[client][i]) in s.accepted || Names(out, Piece(t.fragments[client][i]))
  }

  ghost predicate Backed(s: Server, t: Server, out: seq<Relay>) {
    forall client, i :: BackedAt(s, t, out, client, i)
  }

  /** The first and the last vetted fragment of an index agree, or the last one is no news. */
  ghost predicate OnePieceAt(s: Server, vetted: seq<Fragment>, client: nat, i: nat) {
    FirstAt(vetted, client, i).Some? && LastAt(vetted, client, i).Some? ==>
      FirstAt(vetted, client, i).value.data == LastAt(vetted, client, i).value.data
      || Piece(LastAt(vetted, client, i).value) in s.accepted
  }

  ghost predicate OnePiece(s: Server, vetted: seq<Fragment>) {
    forall client, i :: OnePieceAt(s, vetted, client, i)
  }

  lemma VettedNotHeld(sch: Scheme, s: Server, fs: seq<Fragment>, client: nat, i: nat)
    ensures FirstAt(Vetted(sch, s, fs), client, i).Some? ==> !HoldsFragment(s, client, i)
  {
    FirstIffLast(Vetted(sch, s, fs), client, i);
  }

  lemma BackedExactly(sch: Scheme, s: Server, fs: seq<Fragment>, client: nat, i: nat)
    ensures var (t, out) := Submit(sch, s, fs);
            BackedAt(s, t, out, client, i) <==> OnePieceAt(s, Vetted(sch, s, fs), client, i)
  {
    var vetted := Vetted(sch, s, fs);
    var (t, out) := Submit(sch, s, fs);
    SubmitFacts(sch, s, fs);
    VettedNotHeld(sch, s, fs, client, i);
    FirstIffLast(vetted, client, i);
    if !HoldsFragment(s, client, i) {
      StoresLast(s, vetted, client, i);
      if LastAt(vetted, client, i).Some? { AcceptsFirst(s, vetted, client, i, LastAt(vetted, client, i).value.data); }
    }
  }

  /**
   * Whatever is submitted, every fragment the server newly holds is one it forwarded or
   * had accepted, if and only if for each index the first and the last vetted fragment
   * carry the same data or the last one had been accepted already.
   */
  lemma SubmitBackedExactly(sch: Scheme, s: Server, fs: seq<Fragment>)
    ensures var (t, out) := Submit(sch, s, fs); Backed(s, t, out) <==> OnePiece(s, Vetted(sch, s, fs))
  {
    var vetted := Vetted(sch, s, fs);
    var (t, out) := Submit(sch, s, fs);
    forall client, i ensures BackedAt(s, t, out, client, i) <==> OnePieceAt(s, vetted, client, i) {
      BackedExactly(sch, s, fs, client, i);
    }
  }

  lemma {:induction false} VettedShorter(sch: Scheme, s: Server, fs: seq<Fragment>)
    ensures |Vetted(sch, s, fs)| <= |fs|
  {
    if fs != [] { VettedShorter(sch, s, fs[1..]); }
  }

  lemma OnlyOne(fs: seq<Fragment>, client: nat, i: nat)
    requires |fs| <= 1
    ensures FirstAt(fs, client, i) == LastAt(fs, client, i)
  {
    if fs != [] { assert |fs[..0]| == 0; }
  }

  /** A submission of one fragment, as every caller makes it, is always backed. */
  lemma SingleSubmitBacked(sch: Scheme, s: Server, fs: seq<Fragment>)
    requires |fs| <= 1
    ensures var (t, out) := Submit(sch, s, fs); Backed(s, t, out)
  {
    VettedShorter(sch, s, fs);
    forall client, i ensures OnePieceAt(s, Vetted(sch, s, fs), client, i) {
      OnlyOne(Vetted(sch, s, fs), client, i);
    }
    SubmitBackedExactly(sch, s, fs);
  }
}
