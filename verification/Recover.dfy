/**
 * Decoding a settled round: the verifier is asked over one candidate set, culprits it
 * names are excluded, and it is asked again until it accepts or a threshold is lost.
 *
 * The upstream verifier is a function value.  Its weak contract is that an error
 * names entries it was given; its strong one, that it rejects exactly the false ones.
 */
module Recover {
  import opened Basics

  type Cid = nat
  type Plain = nat

  datatype Post = Post(server: nat, clients: seq<Cid>, share: nat)

  datatype Lane = Lane(node: nat, clients: seq<Cid>, sum: nat)

  datatype Verdict = Accept(plain: Plain) | BadServer(index: nat) | BadLanes(nodes: set<nat>) | Refuse

  datatype Verifier = Verifier(t: nat, k: nat, ask: (seq<Cid>, seq<Post>, seq<Lane>) -> Verdict)

  // ---------------------------------------------------------------- contracts of the verifier

  /** An error names an entry that is there. */
  ghost predicate NamesPresent(v: Verifier) {
    forall s: seq<Cid>, ps: seq<Post>, ls: seq<Lane> :: Points(v.ask(s, ps, ls), ps, ls)
  }

  predicate Points(d: Verdict, ps: seq<Post>, ls: seq<Lane>) {
    match d
    case BadServer(i) => i < |ps|
    case BadLanes(nodes) => nodes != {} && forall x :: x in nodes ==> exists i :: 0 <= i < |ls| && ls[i].node == x
    case _ => true
  }

  /** Which entries are true, and what the true sums add up to. */
  datatype Truth = Truth(post: Post -> bool, lane: Lane -> bool, total: seq<Cid> -> Plain)

  predicate AllTrue(w: Truth, ps: seq<Post>, ls: seq<Lane>) {
    (forall p <- ps :: w.post(p)) && forall l <- ls :: w.lane(l)
  }

  predicate Judges(w: Truth, d: Verdict, s: seq<Cid>, ps: seq<Post>, ls: seq<Lane>) {
    match d
    case Accept(plain) => AllTrue(w, ps, ls) && plain == w.total(s)
    case BadServer(i) => i < |ps| && !w.post(ps[i])
    case BadLanes(nodes) => nodes != {} && forall x :: x in nodes ==> exists i :: 0 <= i < |ls| && ls[i].node == x && !w.lane(ls[i])
    case Refuse => |ps| < 1 || |ls| < 1
  }

  /** Over enough entries of one set, the verifier accepts the true ones and points at a false one otherwise. */
  ghost predicate Ideal(v: Verifier, w: Truth): (r: bool)
    ensures r ==> NamesPresent(v)
  {
    assert (forall s: seq<Cid>, ps: seq<Post>, ls: seq<Lane> :: Judges(w, v.ask(s, ps, ls), s, ps, ls)) ==> NamesPresent(v) by {
      if forall s: seq<Cid>, ps: seq<Post>, ls: seq<Lane> :: Judges(w, v.ask(s, ps, ls), s, ps, ls) {
        forall s: seq<Cid>, ps: seq<Post>, ls: seq<Lane> ensures Points(v.ask(s, ps, ls), ps, ls) {
          assert Judges(w, v.ask(s, ps, ls), s, ps, ls);
        }
      }
    }
    v.t >= 1 && v.k >= 1 && forall s: seq<Cid>, ps: seq<Post>, ls: seq<Lane> :: Judges(w, v.ask(s, ps, ls), s, ps, ls)
  }

  // ---------------------------------------------------------------- the exclusion loop

  function PostsOver(ps: seq<Post>, s: seq<Cid>): (r: seq<Post>)
    ensures forall p :: p in r <==> p in ps && p.clients == s
  {
    Filter(ps, (p: Post) => p.clients == s)
  }

  function LanesOver(ls: seq<Lane>, s: seq<Cid>): (r: seq<Lane>)
    ensures forall l :: l in r <==> l in ls && l.clients == s
  {
    Filter(ls, (l: Lane) => l.clients == s)
  }

  function WithoutNodes(ls: seq<Lane>, nodes: set<nat>): (r: seq<Lane>)
    ensures forall l :: l in r <==> l in ls && l.node !in nodes
    ensures |r| <= |ls|
    ensures (exists i :: 0 <= i < |ls| && ls[i].node in nodes) ==> |r| < |ls|
  {
    if ls == [] then []
    else
      assert forall l :: l in ls <==> l == ls[0] || l in ls[1..];
      assert forall i :: 1 <= i < |ls| ==> ls[i] == ls[1..][i - 1];
      (if ls[0].node in nodes then [] else [ls[0]]) + WithoutNodes(ls[1..], nodes)
  }

  datatype Result = Result(plain: Option<Plain>, culprits: set<nat>)

  /** Ask, exclude, ask again. */
  function Exclude(v: Verifier, s: seq<Cid>, ps: seq<Post>, ls: seq<Lane>): Result
    requires NamesPresent(v)
    decreases |ps| + |ls|
  {
    if |ps| < v.t || |ls| < v.k then Result(None, {})
    else
      var d := v.ask(s, ps, ls);
      assert Points(d, ps, ls);
      match d
      case Accept(plain) => Result(Some(plain), {})
      case BadServer(i) => Exclude(v, s, ps[..i] + ps[i + 1..], ls)
      case BadLanes(nodes) =>
        var x :| x in nodes;
        var rest := Exclude(v, s, ps, WithoutNodes(ls, nodes));
        Result(rest.plain, nodes + rest.culprits)
      case Refuse => Result(None, {})
  }

  /** One decode attempt over `s`: the posts of every member must be at hand. */
  function RecoverOver(v: Verifier, known: set<Cid>, s: seq<Cid>, ps: seq<Post>, ls: seq<Lane>): Result
    requires NamesPresent(v)
  {
    if exists c :: c in s && c !in known then Result(None, {})
    else Exclude(v, s, PostsOver(ps, s), LanesOver(ls, s))
  }

  method RecoverRs(v: Verifier, known: set<Cid>, s: seq<Cid>, ps: seq<Post>, ls: seq<Lane>, culprits: set<nat>)
    returns (plain: Option<Plain>, named: set<nat>)
    requires NamesPresent(v)
    ensures plain == RecoverOver(v, known, s, ps, ls).plain
    ensures named == culprits + RecoverOver(v, known, s, ps, ls).culprits
  {
    named := culprits;
    if exists c :: c in s && c !in known {
      return None, named;
    }
    var servers, lanes := PostsOver(ps, s), LanesOver(ls, s);
    ghost var goal := Exclude(v, s, servers, lanes);
    while true
      invariant goal.plain == Exclude(v, s, servers, lanes).plain
      invariant culprits + goal.culprits == named + Exclude(v, s, servers, lanes).culprits
      decreases |servers| + |lanes|
    {
      if |servers| < v.t || |lanes| < v.k {
        return None, named;
      }
      var d := v.ask(s, servers, lanes);
      assert Points(d, servers, lanes);
      match d
      case Accept(p) => return Some(p), named;
      case BadServer(i) => servers := servers[..i] + servers[i + 1..];
      case BadLanes(nodes) =>
        var x :| x in nodes;
        named := named + nodes;
        lanes := WithoutNodes(lanes, nodes);
      case Refuse => return None, named;
    }
  }

  // ---------------------------------------------------------------- what an outcome means

  /** Part of the entries given, all over `s`, enough of them, accepted together. */
  ghost predicate AcceptedPart(v: Verifier, s: seq<Cid>, ps: seq<Post>, ls: seq<Lane>, plain: Plain, qs: seq<Post>, ms: seq<Lane>) {
    && |qs| >= v.t && |ms| >= v.k && v.ask(s, qs, ms) == Accept(plain)
    && (forall p :: p in qs ==> p in ps) && (forall l :: l in ms ==> l in ls)
  }

  lemma {:induction false} ExcludeSound(v: Verifier, s: seq<Cid>, ps: seq<Post>, ls: seq<Lane>)
    requires NamesPresent(v)
    ensures var r := Exclude(v, s, ps, ls);
      (r.plain.Some? ==> exists qs: seq<Post>, ms: seq<Lane> :: AcceptedPart(v, s, ps, ls, r.plain.value, qs, ms)
                           && forall l :: l in ms ==> l.node !in r.culprits)
      && forall x :: x in r.culprits ==> exists i :: 0 <= i < |ls| && ls[i].node == x
    decreases |ps| + |ls|
  {
    if |ps| >= v.t && |ls| >= v.k {
      var d := v.ask(s, ps, ls);
      assert Points(d, ps, ls);
      match d
      case Accept(plain) => assert AcceptedPart(v, s, ps, ls, plain, ps, ls);
      case BadServer(i) =>
        var rest := ps[..i] + ps[i + 1..];
        ExcludeSound(v, s, rest, ls);
        var r := Exclude(v, s, rest, ls);
        if r.plain.Some? {
          var qs: seq<Post>, ms: seq<Lane> :| AcceptedPart(v, s, rest, ls, r.plain.value, qs, ms) && forall l :: l in ms ==> l.node !in r.culprits;
          assert AcceptedPart(v, s, ps, ls, r.plain.value, qs, ms);
        }
      case BadLanes(nodes) =>
        var x :| x in nodes;
        var rest := WithoutNodes(ls, nodes);
        ExcludeSound(v, s, ps, rest);
        var r := Exclude(v, s, ps, rest);
        if r.plain.Some? {
          var qs: seq<Post>, ms: seq<Lane> :| AcceptedPart(v, s, ps, rest, r.plain.value, qs, ms) && forall l :: l in ms ==> l.node !in r.culprits;
          assert AcceptedPart(v, s, ps, ls, r.plain.value, qs, ms);
        }
        forall c | c in r.culprits ensures exists i :: 0 <= i < |ls| && ls[i].node == c {
          var i :| 0 <= i < |rest| && rest[i].node == c;
          assert rest[i] in ls;
        }
      case Refuse =>
    }
  }

  /**
   * A plaintext comes only from at least `t` posts and `k` lane sums, all over exactly
   * the candidate set, whose members' own posts are all held; only lanes over that
   * set, excluded on the way, are reported.
   */
  lemma RecoverSound(v: Verifier, known: set<Cid>, s: seq<Cid>, ps: seq<Post>, ls: seq<Lane>)
    requires NamesPresent(v)
    ensures var r := RecoverOver(v, known, s, ps, ls);
      (r.plain.Some? ==>
        (forall c :: c in s ==> c in known)
        && exists qs: seq<Post>, ms: seq<Lane> :: AcceptedPart(v, s, ps, ls, r.plain.value, qs, ms)
             && (forall p :: p in qs ==> p.clients == s)
             && forall l :: l in ms ==> l.clients == s && l.node !in r.culprits)
      && forall x :: x in r.culprits ==> exists l :: l in ls && l.clients == s && l.node == x
  {
    var os, ns := PostsOver(ps, s), LanesOver(ls, s);
    ExcludeSound(v, s, os, ns);
    var r := RecoverOver(v, known, s, ps, ls);
    if r.plain.Some? {
      var qs: seq<Post>, ms: seq<Lane> :| AcceptedPart(v, s, os, ns, r.plain.value, qs, ms) && forall l :: l in ms ==> l.node !in r.culprits;
      assert AcceptedPart(v, s, ps, ls, r.plain.value, qs, ms);
    }
    forall x | x in r.culprits ensures exists l :: l in ls && l.clients == s && l.node == x {
      var i :| 0 <= i < |ns| && ns[i].node == x;
      assert ns[i] in ns;
    }
  }

  // ---------------------------------------------------------------- when it succeeds

  function TruePosts(w: Truth, ps: seq<Post>): nat {
    if ps == [] then 0 else TruePosts(w, ps[1..]) + (if w.post(ps[0]) then 1 else 0)
  }

  function TrueLanes(w: Truth, ls: seq<Lane>): nat {
    if ls == [] then 0 else TrueLanes(w, ls[1..]) + (if w.lane(ls[0]) then 1 else 0)
  }

  predicate DistinctNodes(ls: seq<Lane>) {
    forall i, j :: 0 <= i < j < |ls| ==> ls[i].node != ls[j].node
  }

  lemma {:induction false} DropFalsePost(w: Truth, ps: seq<Post>, i: nat)
    requires i < |ps| && !w.post(ps[i])
    ensures TruePosts(w, ps[..i] + ps[i + 1..]) == TruePosts(w, ps)
  {
    var rest := ps[..i] + ps[i + 1..];
    if i == 0 {
      assert rest == ps[1..];
    } else {
      DropFalsePost(w, ps[1..], i - 1);
      assert rest[1..] == ps[1..][..i - 1] + ps[1..][i..];
    }
  }

  lemma {:induction false} DropFalseLanes(w: Truth, ls: seq<Lane>, nodes: set<nat>)
    requires forall l :: l in ls && l.node in nodes ==> !w.lane(l)
    ensures TrueLanes(w, WithoutNodes(ls, nodes)) == TrueLanes(w, ls)
  {
    if ls != [] {
      assert forall l :: l in ls[1..] ==> l in ls;
      DropFalseLanes(w, ls[1..], nodes);
      var rest := WithoutNodes(ls[1..], nodes);
      if ls[0].node in nodes {
        assert [] + rest == rest;
      } else {
        assert ([ls[0]] + rest)[1..] == rest;
      }
    }
  }

  lemma {:induction false} WithoutDistinct(ls: seq<Lane>, nodes: set<nat>)
    requires DistinctNodes(ls)
    ensures DistinctNodes(WithoutNodes(ls, nodes))
  {
    if ls != [] {
      WithoutDistinct(ls[1..], nodes);
      var rest := WithoutNodes(ls[1..], nodes);
      forall j | 0 <= j < |rest| ensures rest[j].node != ls[0].node {
        assert rest[j] in ls[1..];
      }
    }
  }

  lemma {:induction false} AtMostAll(w: Truth, ps: seq<Post>, ls: seq<Lane>)
    ensures TruePosts(w, ps) <= |ps| && TrueLanes(w, ls) <= |ls|
    ensures AllTrue(w, ps, ls) ==> TruePosts(w, ps) == |ps| && TrueLanes(w, ls) == |ls|
    decreases |ps| + |ls|
  {
    if ps != [] {
      AtMostAll(w, ps[1..], ls);
    } else if ls != [] {
      AtMostAll(w, ps, ls[1..]);
    }
  }

  predicate FalseLane(w: Truth, ls: seq<Lane>, x: nat) {
    exists i :: 0 <= i < |ls| && ls[i].node == x && !w.lane(ls[i])
  }

  lemma BadLanesAreFalse(w: Truth, ls: seq<Lane>, nodes: set<nat>)
    requires DistinctNodes(ls) && forall x :: x in nodes ==> FalseLane(w, ls, x)
    ensures forall l :: l in ls && l.node in nodes ==> !w.lane(l)
  {
    forall l | l in ls && l.node in nodes ensures !w.lane(l) {
      var i :| 0 <= i < |ls| && ls[i].node == l.node && !w.lane(ls[i]);
      var j :| 0 <= j < |ls| && ls[j] == l;
      assert i == j;
    }
  }

  /** With an ideal verifier the loop ends with exactly the true entries, and names only liars. */
  lemma {:induction false} ExcludeExact(v: Verifier, w: Truth, s: seq<Cid>, ps: seq<Post>, ls: seq<Lane>)
    requires Ideal(v, w) && DistinctNodes(ls)
    ensures var r := Exclude(v, s, ps, ls);
      r.plain == (if TruePosts(w, ps) >= v.t && TrueLanes(w, ls) >= v.k then Some(w.total(s)) else None)
      && (forall x :: x in r.culprits ==> FalseLane(w, ls, x))
      && (r.plain.Some? ==> forall x :: FalseLane(w, ls, x) ==> x in r.culprits)
    decreases |ps| + |ls|
  {
    AtMostAll(w, ps, ls);
    if |ps| >= v.t && |ls| >= v.k {
      var d := v.ask(s, ps, ls);
      assert Points(d, ps, ls) && Judges(w, d, s, ps, ls);
      match d
      case Accept(plain) =>
        assert forall i :: 0 <= i < |ls| ==> ls[i] in ls;
      case BadServer(i) =>
        DropFalsePost(w, ps, i);
        ExcludeExact(v, w, s, ps[..i] + ps[i + 1..], ls);
      case BadLanes(nodes) =>
        var x :| x in nodes;
        var rest := WithoutNodes(ls, nodes);
        BadLanesAreFalse(w, ls, nodes);
        DropFalseLanes(w, ls, nodes);
        WithoutDistinct(ls, nodes);
        ExcludeExact(v, w, s, ps, rest);
        StillFalse(w, ls, rest, nodes);
      case Refuse =>
    }
  }

  lemma StillFalse(w: Truth, ls: seq<Lane>, rest: seq<Lane>, nodes: set<nat>)
    requires forall l :: l in rest <==> l in ls && l.node !in nodes
    ensures forall x :: FalseLane(w, rest, x) ==> FalseLane(w, ls, x)
    ensures forall x :: FalseLane(w, ls, x) ==> x in nodes || FalseLane(w, rest, x)
  {
    forall x | FalseLane(w, rest, x) ensures FalseLane(w, ls, x) {
      var i :| 0 <= i < |rest| && rest[i].node == x && !w.lane(rest[i]);
      assert rest[i] in ls;
    }
    forall x | FalseLane(w, ls, x) && x !in nodes ensures FalseLane(w, rest, x) {
      var i :| 0 <= i < |ls| && ls[i].node == x && !w.lane(ls[i]);
      assert ls[i] in rest;
    }
  }

  lemma {:induction false} FilterDistinct(ls: seq<Lane>, s: seq<Cid>)
    requires DistinctNodes(ls)
    ensures DistinctNodes(LanesOver(ls, s))
  {
    if ls != [] {
      FilterDistinct(ls[1..], s);
      var rest := LanesOver(ls[1..], s);
      forall j | 0 <= j < |rest| ensures rest[j].node != ls[0].node {
        assert rest[j] in ls[1..];
      }
    }
  }

  /**
   * A round decodes over `s` exactly when every member's post is held and the true
   * posts and true lane sums over `s` meet their thresholds; the plaintext is then the
   * true total, whatever else was posted, and the lanes reported are the false ones.
   */
  lemma RecoverExact(v: Verifier, w: Truth, known: set<Cid>, s: seq<Cid>, ps: seq<Post>, ls: seq<Lane>)
    requires Ideal(v, w) && DistinctNodes(ls)
    ensures var r := RecoverOver(v, known, s, ps, ls);
      (r.plain.Some? <==>
        (forall c :: c in s ==> c in known)
        && TruePosts(w, PostsOver(ps, s)) >= v.t && TrueLanes(w, LanesOver(ls, s)) >= v.k)
      && (r.plain.Some? ==> r.plain.value == w.total(s))
      && (forall x :: x in r.culprits ==> FalseLane(w, LanesOver(ls, s), x))
      && (r.plain.Some? ==> forall x :: FalseLane(w, LanesOver(ls, s), x) ==> x in r.culprits)
  {
    FilterDistinct(ls, s);
    ExcludeExact(v, w, s, PostsOver(ps, s), LanesOver(ls, s));
  }

  // ---------------------------------------------------------------- the candidate sets

  /** Larger first, ties by the set itself. */
  predicate Ahead(a: seq<Cid>, b: seq<Cid>) {
    |a| > |b| || (|a| == |b| && LexLeq(a, b))
  }

  lemma AheadTotal(a: seq<Cid>, b: seq<Cid>)
    ensures Ahead(a, b) || Ahead(b, a)
    ensures Ahead(a, b) && Ahead(b, a) ==> a == b
  {
    LexTotal(a, b);
    if LexLeq(a, b) && LexLeq(b, a) { LexAntisym(a, b); }
  }

  lemma AheadTrans(a: seq<Cid>, b: seq<Cid>, c: seq<Cid>)
    requires Ahead(a, b) && Ahead(b, c)
    ensures Ahead(a, c)
  {
    if LexLeq(a, b) && LexLeq(b, c) { LexTrans(a, b, c); }
  }

  /** The candidates in order, each once. */
  predicate Ranked(r: seq<seq<Cid>>) {
    forall i, j :: 0 <= i < j < |r| ==> Ahead(r[i], r[j]) && r[i] != r[j]
  }

  function Normal(clients: seq<Cid>): seq<Cid> { Sorted(set c | c in clients) }

  function Insert(r: seq<seq<Cid>>, x: seq<Cid>): seq<seq<Cid>> {
    if r == [] then [x]
    else if r[0] == x then r
    else if Ahead(x, r[0]) then [x] + r
    else [r[0]] + Insert(r[1..], x)
  }

  lemma {:induction false} InsertRanked(r: seq<seq<Cid>>, x: seq<Cid>)
    requires Ranked(r)
    ensures Ranked(Insert(r, x))
    ensures forall y :: y in Insert(r, x) <==> y in r || y == x
  {
    if r != [] && r[0] != x {
      AheadTotal(x, r[0]);
      if Ahead(x, r[0]) {
        forall j | 0 <= j < |r| ensures Ahead(x, r[j]) && r[j] != x {
          if j > 0 { AheadTrans(x, r[0], r[j]); AheadTotal(r[0], r[j]); }
        }
      } else {
        InsertRanked(r[1..], x);
        var rest := Insert(r[1..], x);
        forall j | 0 <= j < |rest| ensures Ahead(r[0], rest[j]) && r[0] != rest[j] {
          assert rest[j] in rest;
        }
        assert forall y :: y in r <==> y == r[0] || y in r[1..];
      }
    }
  }

  /** Every distinct set the posts cover, largest first. */
  method CandidateSets(ps: seq<Post>) returns (r: seq<seq<Cid>>)
    ensures Ranked(r)
    ensures forall y :: y in r <==> exists p :: p in ps && y == Normal(p.clients)
  {
    r := [];
    var i := 0;
    while i < |ps|
      invariant i <= |ps| && Ranked(r)
      invariant forall y :: y in r <==> exists j :: 0 <= j < i && y == Normal(ps[j].clients)
    {
      InsertRanked(r, Normal(ps[i].clients));
      r := Insert(r, Normal(ps[i].clients));
      i := i + 1;
    }
  }

  /** The candidate order is a function of the posts' sets alone. */
  lemma {:induction false} RankedUnique(a: seq<seq<Cid>>, b: seq<seq<Cid>>)
    requires Ranked(a) && Ranked(b) && forall y :: y in a <==> y in b
    ensures a == b
  {
    if a == [] {
      HeadIn(b);
    } else {
      assert a[0] in b && b != [];
      assert b[0] in a;
      AheadTotal(a[0], b[0]);
      assert a[0] == b[0];
      forall y ensures y in a[1..] <==> y in b[1..] {
        if y in a[1..] { assert y in b && y != a[0]; }
        if y in b[1..] { assert y in a && y != b[0]; }
      }
      RankedUnique(a[1..], b[1..]);
    }
  }

  predicate Decodable(v: Verifier, w: Truth, known: set<Cid>, s: seq<Cid>, ps: seq<Post>, ls: seq<Lane>, cap: nat) {
    |s| <= cap && (forall c :: c in s ==> c in known)
    && TruePosts(w, PostsOver(ps, s)) >= v.t && TrueLanes(w, LanesOver(ls, s)) >= v.k
  }

  /** Tries the candidates in turn, up to the client cap, and keeps the first that decodes. */
  method DecodeRound(v: Verifier, ghost w: Truth, known: set<Cid>, candidates: seq<seq<Cid>>, ps: seq<Post>, ls: seq<Lane>, cap: nat)
    returns (plain: Option<Plain>, over: seq<Cid>, culprits: set<nat>)
    requires Ideal(v, w) && DistinctNodes(ls) && Ranked(candidates)
    ensures plain.Some? <==> exists s :: s in candidates && Decodable(v, w, known, s, ps, ls, cap)
    ensures plain.Some? ==>
      plain.value == w.total(over) && over in candidates && Decodable(v, w, known, over, ps, ls, cap)
      && forall s :: s in candidates && Decodable(v, w, known, s, ps, ls, cap) ==> s == over || Ahead(over, s)
    ensures forall x :: x in culprits ==> FalseLane(w, ls, x)
  {
    plain, over, culprits := None, [], {};
    var i := 0;
    while i < |candidates|
      invariant i <= |candidates|
      invariant forall j :: 0 <= j < i ==> !Decodable(v, w, known, candidates[j], ps, ls, cap)
      invariant forall x :: x in culprits ==> FalseLane(w, ls, x)
    {
      var s := candidates[i];
      if |s| <= cap {
        RecoverExact(v, w, known, s, ps, ls);
        StillFalseOver(w, ls, s);
        var p, named := RecoverRs(v, known, s, ps, ls, culprits);
        culprits := named;
        if p.Some? {
          assert Decodable(v, w, known, s, ps, ls, cap);
          return p, s, culprits;
        }
      }
      i := i + 1;
    }
  }

  lemma StillFalseOver(w: Truth, ls: seq<Lane>, s: seq<Cid>)
    ensures forall x :: FalseLane(w, LanesOver(ls, s), x) ==> FalseLane(w, ls, x)
  {
    forall x | FalseLane(w, LanesOver(ls, s), x) ensures FalseLane(w, ls, x) {
      var ns := LanesOver(ls, s);
      var i :| 0 <= i < |ns| && ns[i].node == x && !w.lane(ns[i]);
      assert ns[i] in ns;
    }
  }
}
