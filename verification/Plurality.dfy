/** The set a recipient anchors on: the one most servers published, with fixed tie-breaks. */
module Plurality {
  import opened Basics

  type ClientIds = seq<nat>

  function Votes(outputs: seq<ClientIds>, s: ClientIds): nat {
    if outputs == [] then 0 else Votes(outputs[..|outputs| - 1], s) + (if outputs[|outputs| - 1] == s then 1 else 0)
  }

  /** More votes, then more members, then lexicographically greater. */
  predicate Beats(outputs: seq<ClientIds>, a: ClientIds, b: ClientIds) {
    var x, y := Votes(outputs, a), Votes(outputs, b);
    x > y || (x == y && (|a| > |b| || (|a| == |b| && LexLeq(b, a))))
  }

  predicate Wins(outputs: seq<ClientIds>, s: ClientIds) {
    s in outputs && forall x :: x in outputs ==> Beats(outputs, s, x)
  }

  lemma {:induction false} Voted(outputs: seq<ClientIds>, s: ClientIds)
    ensures Votes(outputs, s) > 0 <==> s in outputs
  {
    if outputs != [] {
      var n := |outputs| - 1;
      Voted(outputs[..n], s);
      assert outputs == outputs[..n] + [outputs[n]];
    }
  }

  lemma BeatsTotal(outputs: seq<ClientIds>, a: ClientIds, b: ClientIds)
    ensures Beats(outputs, a, b) || Beats(outputs, b, a)
    ensures Beats(outputs, a, b) && Beats(outputs, b, a) ==> a == b
  {
    LexTotal(a, b);
    if LexLeq(a, b) && LexLeq(b, a) { LexAntisym(a, b); }
  }

  lemma BeatsTrans(outputs: seq<ClientIds>, a: ClientIds, b: ClientIds, c: ClientIds)
    requires Beats(outputs, a, b) && Beats(outputs, b, c)
    ensures Beats(outputs, a, c)
  {
    if LexLeq(c, b) && LexLeq(b, a) { LexTrans(c, b, a); }
  }

  method PluralitySet(outputs: seq<ClientIds>) returns (r: ClientIds)
    ensures outputs == [] ==> r == []
    ensures outputs != [] ==> Wins(outputs, r)
  {
    var counts: map<ClientIds, nat> := map[];
    var i := 0;
    while i < |outputs|
      invariant i <= |outputs|
      invariant forall s :: s in counts <==> s in outputs[..i]
      invariant forall s :: s in counts ==> counts[s] == Votes(outputs[..i], s)
    {
      Voted(outputs[..i], outputs[i]);
      assert outputs[..i + 1][..i] == outputs[..i];
      assert forall s :: s in outputs[..i + 1] <==> s in outputs[..i] || s == outputs[i];
      counts := counts[outputs[i] := (if outputs[i] in counts then counts[outputs[i]] else 0) + 1];
      i := i + 1;
    }
    assert outputs[..|outputs|] == outputs;
    assert outputs != [] ==> outputs[0] in counts;
    r := [];
    var best: nat := 0;
    var todo := counts.Keys;
    while todo != {}
      invariant todo <= counts.Keys
      invariant best == 0 ==> todo == counts.Keys && r == []
      invariant best > 0 ==> r in counts && best == counts[r] && forall x :: x in counts && x !in todo ==> Beats(outputs, r, x)
    {
      var s :| s in todo;
      Voted(outputs, s);
      if best > 0 {
        BeatsTotal(outputs, s, r);
        AllBeaten(outputs, s, r, counts.Keys - todo);
      }
      BeatsTotal(outputs, s, s);
      if counts[s] > best || (counts[s] == best && (|s| > |r| || (|s| == |r| && LexLeq(r, s)))) {
        r, best := s, counts[s];
      }
      todo := todo - {s};
    }
  }

  lemma AllBeaten(outputs: seq<ClientIds>, s: ClientIds, r: ClientIds, others: set<ClientIds>)
    requires forall x :: x in others ==> Beats(outputs, r, x)
    ensures Beats(outputs, s, r) ==> forall x :: x in others ==> Beats(outputs, s, x)
  {
    if Beats(outputs, s, r) {
      forall x | x in others ensures Beats(outputs, s, x) { BeatsTrans(outputs, s, r, x); }
    }
  }

  /** Recipients that saw the same posts, in whatever order, anchor on the same set. */
  lemma SamePostsSameAnchor(xs: seq<ClientIds>, ys: seq<ClientIds>, a: ClientIds, b: ClientIds)
    requires forall s: ClientIds :: Votes(xs, s) == Votes(ys, s)
    requires Wins(xs, a) && Wins(ys, b)
    ensures a == b
  {
    Voted(xs, a);
    Voted(ys, a);
    Voted(xs, b);
    Voted(ys, b);
    assert Beats(xs, a, b) && Beats(ys, b, a);
    BeatsTotal(xs, a, b);
  }

  lemma {:induction false} TwoSetsVotes(outputs: seq<ClientIds>, a: ClientIds, b: ClientIds)
    requires a != b
    ensures Votes(outputs, a) + Votes(outputs, b) <= |outputs|
  {
    if outputs != [] { TwoSetsVotes(outputs[..|outputs| - 1], a, b); }
  }

  /** A set published by more than half of the servers wins, whatever the others publish. */
  lemma MajorityWins(outputs: seq<ClientIds>, s: ClientIds, r: ClientIds)
    requires 2 * Votes(outputs, s) > |outputs| && Wins(outputs, r)
    ensures r == s
  {
    if r != s {
      TwoSetsVotes(outputs, r, s);
      Voted(outputs, s);
    }
  }
}
