/** Fixing the set: a pure function of the agreed pool, and what each lane then serves. */
module Finalize {
  import opened Basics
  import opened ClientSetTypes
  import opened Codec
  import opened Repair
  import opened SetServers
  import opened AgreedPool

  /** Everything a decision may depend on: no server id, nothing only one server holds. */
  datatype View = View(
    matrix: map<nat, seq<Receipt>>,
    bulletins: map<nat, set<Bytes>>,
    pool: map<nat, map<nat, Share>>)

  function ViewOf(s: Server): View {
    View(Matrix(s), s.bulletins, map c | c in s.bulletins && |s.bulletins[c]| == 1 :: Pool(s, c))
  }

  /** The upstream pieces a round is run with. */
  datatype Tools = Tools(
    sch: Scheme, g: Geometry, e: Erasure,
    unseal: (nat, nat, Bytes) -> Option<Bytes>)

  // ---------------------------------------------------------------- the matrix

  predicate Reports(rs: seq<Receipt>, client: nat, key: Bytes) {
    exists i :: 0 <= i < |rs| && rs[i].client == client && rs[i].key == key
  }

  function CoveredFrom(matrix: map<nat, seq<Receipt>>, lanes: seq<nat>, client: nat, key: Bytes): (r: seq<nat>)
    requires forall l :: l in lanes ==> l in matrix
    ensures forall l :: l in r <==> l in lanes && Reports(matrix[l], client, key)
  {
    if lanes == [] then []
    else
      assert forall l :: l in lanes <==> l == lanes[0] || l in lanes[1..];
      (if Reports(matrix[lanes[0]], client, key) then [lanes[0]] else []) + CoveredFrom(matrix, lanes[1..], client, key)
  }

  /** Lanes that reported `client` under the key it posted, sorted. */
  function Covered(matrix: map<nat, seq<Receipt>>, client: nat, key: Bytes): (r: seq<nat>)
    ensures forall l :: l in r <==> l in matrix && Reports(matrix[l], client, key)
  {
    CoveredFrom(matrix, Sorted(matrix.Keys), client, key)
  }

  function ClientSetOf(matrix: map<nat, seq<Receipt>>): (r: set<nat>)
    ensures forall c :: c in r <==> exists l, i :: l in matrix && 0 <= i < |matrix[l]| && matrix[l][i].client == c
  {
    set l, i | l in matrix && 0 <= i < |matrix[l]| :: matrix[l][i].client
  }

  /** The clients named in any row, ascending. */
  function Clients(v: View): seq<nat> { Sorted(ClientSetOf(v.matrix)) }

  // ---------------------------------------------------------------- the decision

  datatype Decision = Decision(
    included: seq<nat>,
    excluded: seq<nat>,
    conflicted: seq<nat>,
    abstaining: set<nat>,
    repairs: map<nat, seq<Bundle>>,
    unrepaired: map<nat, seq<nat>>)

  const Undecided := Decision([], [], [], {}, map[], map[])

  function MissingLanes(t: Tools, v: View, client: nat, key: Bytes): seq<nat> {
    Missing(t.sch.n, Covered(v.matrix, client, key))
  }

  function RebuiltFor(t: Tools, v: View, client: nat, key: Bytes): Option<seq<Bundle>> {
    var pool := if client in v.pool then v.pool[client] else map[];
    Rebuild(t.sch, t.g, t.e, pool, client, key, Covered(v.matrix, client, key), MissingLanes(t, v, client, key))
  }

  /** How a client stands before the budget is asked. */
  datatype Standing =
    | Unkeyed(conflict: bool)
    | Whole
    | Repaired(bundles: seq<Bundle>)
    | Short(missing: seq<nat>)

  function StandingOf(t: Tools, v: View, client: nat): Standing {
    var posted := ReportedKey(v.bulletins, client);
    if posted.None? then Unkeyed(client in v.bulletins && |v.bulletins[client]| > 1)
    else
      var missing := MissingLanes(t, v, client, posted.value);
      if missing == [] then Whole
      else
        var rebuilt := RebuiltFor(t, v, client, posted.value);
        if rebuilt.Some? then Repaired(rebuilt.value) else Short(missing)
  }

  function JudgeBy(budget: nat, d: Decision, client: nat, st: Standing): Decision {
    match st
    case Unkeyed(conflict) =>
      d.(excluded := d.excluded + [client], conflicted := if conflict then d.conflicted + [client] else d.conflicted)
    case Whole => d.(included := d.included + [client])
    case Repaired(bs) => d.(included := d.included + [client], repairs := d.repairs[client := bs])
    case Short(missing) =>
      // Each missing lane is charged to the budget, once for all clients.
      var cost := d.abstaining + Members(missing);
      if |cost| <= budget then
        d.(included := d.included + [client], abstaining := cost, unrepaired := d.unrepaired[client := missing])
      else d.(excluded := d.excluded + [client])
  }

  function Judge(t: Tools, v: View, d: Decision, client: nat): Decision {
    JudgeBy(SatSub(t.sch.n, t.sch.k), d, client, StandingOf(t, v, client))
  }

  function JudgeAll(t: Tools, v: View, clients: seq<nat>): Decision
    decreases |clients|
  {
    if clients == [] then Undecided
    else Judge(t, v, JudgeAll(t, v, clients[..|clients| - 1]), clients[|clients| - 1])
  }

  function Decide(t: Tools, v: View): Decision { JudgeAll(t, v, Clients(v)) }

  // ---------------------------------------------------------------- serving it

  function FindReceipt(rs: seq<Receipt>, client: nat): Option<Receipt> {
    if rs == [] then None else if rs[0].client == client then Some(rs[0]) else FindReceipt(rs[1..], client)
  }

  /** The bundle this lane holds for `client`, matching the hash it reported. */
  function OwnBundleOf(s: Server, client: nat): Option<Bundle> {
    if s.id !in s.batches then None
    else
      var r := FindReceipt(s.batches[s.id].receipts, client);
      if r.None? || client !in s.held || r.value.bundleHash !in s.held[client] then None
      else Some(s.held[client][r.value.bundleHash])
  }

  function LaneBundle(bs: seq<Bundle>, lane: nat): Option<Bundle> {
    if bs == [] then None else if bs[0].lane == lane then Some(bs[0]) else LaneBundle(bs[1..], lane)
  }

  function RebuiltHere(s: Server, d: Decision, client: nat): Option<Bundle> {
    if client in d.repairs then LaneBundle(d.repairs[client], s.id) else None
  }

  function Served(s: Server, d: Decision, client: nat): Option<Bundle> {
    var mine := RebuiltHere(s, d, client);
    if mine.Some? then mine else OwnBundleOf(s, client)
  }

  datatype SetRound = SetRound(
    included: seq<nat>,
    openings: seq<(nat, Bytes)>,
    lane: seq<(nat, Share, Path)>,
    excluded: seq<nat>,
    conflicted: seq<nat>,
    repaired: seq<nat>)

  function ServeAll(t: Tools, s: Server, d: Decision, clients: seq<nat>): SetRound
    decreases |clients|
  {
    if clients == [] then SetRound([], [], [], d.excluded, d.conflicted, [])
    else
      var c := clients[|clients| - 1];
      var out := ServeAll(t, s, d, clients[..|clients| - 1]);
      var b := Served(s, d, c);
      var out1 := out.(included := out.included + [c],
                       repaired := if RebuiltHere(s, d, c).Some? then out.repaired + [c] else out.repaired);
      if b.None? then out1
      else
        var opening := t.unseal(c, s.id, b.value.envelope);
        out1.(openings := if opening.Some? then out1.openings + [(c, opening.value)] else out1.openings,
              lane := out1.lane + [(c, b.value.share, b.value.path)])
  }

  function FinalizeRound(t: Tools, s: Server): SetRound {
    var d := Decide(t, ViewOf(s));
    ServeAll(t, s, d, d.included)
  }

  // ---------------------------------------------------------------- the decision's properties

  type Standings = nat -> Standing

  /** The clients seen split in two, in id order; two bulletins is a conflict. */
  ghost predicate Partition(st: Standings, clients: seq<nat>, d: Decision) {
    && (forall c :: c in clients <==> c in d.included || c in d.excluded)
    && (forall c :: c in d.included ==> c !in d.excluded)
    && Ascending(d.included) && Ascending(d.excluded) && Ascending(d.conflicted)
    && (forall c :: c in d.conflicted <==> c in clients && st(c) == Unkeyed(true))
  }

  /** At most `budget` lanes sit out, each for some client left unrepaired. */
  ghost predicate Budget(budget: nat, d: Decision) {
    && |d.abstaining| <= budget
    && (forall l :: l in d.abstaining ==> ShortLane(d, l))
  }

  ghost predicate ShortLane(d: Decision, l: nat) {
    exists c :: c in d.unrepaired && l in d.unrepaired[c]
  }

  /** Why each client is in, or not: covered by every lane, rebuilt, or paid for. */
  ghost predicate Reasons(st: Standings, d: Decision) {
    && (forall c :: c in d.unrepaired ==> IncludedShort(st, d, c))
    && (forall c :: c in d.repairs <==> c in d.included && st(c).Repaired?)
    && (forall c :: c in d.repairs ==> st(c) == Repaired(d.repairs[c]))
    && (forall c :: c in d.included ==> !st(c).Unkeyed? && (st(c).Short? ==> c in d.unrepaired))
  }

  ghost predicate IncludedShort(st: Standings, d: Decision, c: nat)
    requires c in d.unrepaired
  {
    c in d.included && st(c) == Short(d.unrepaired[c]) && Members(d.unrepaired[c]) <= d.abstaining
  }

  lemma JudgePartition(st: Standings, budget: nat, clients: seq<nat>, d: Decision, c: nat)
    requires Partition(st, clients, d) && forall x :: x in clients ==> x < c
    ensures Partition(st, clients + [c], JudgeBy(budget, d, c, st(c)))
  {
    JudgedLists(budget, d, c, st(c));
    AppendAscending(clients, c);
    AppendAscending(d.included, c);
    AppendAscending(d.excluded, c);
    AppendAscending(d.conflicted, c);
  }

  /** One judgement puts its client at the end of exactly one list, and of the conflicts too if it has two keys. */
  lemma JudgedLists(budget: nat, d: Decision, c: nat, standing: Standing)
    ensures var t := JudgeBy(budget, d, c, standing);
            && ((t.included == d.included + [c] && t.excluded == d.excluded) || (t.included == d.included && t.excluded == d.excluded + [c]))
            && t.conflicted == if standing == Unkeyed(true) then d.conflicted + [c] else d.conflicted
  {
  }

  lemma AppendAscending(s: seq<nat>, c: nat)
    requires forall x :: x in s ==> x < c
    ensures Ascending(s) ==> Ascending(s + [c])
    ensures forall x :: x in s + [c] <==> x in s || x == c
  {
    assert forall i :: 0 <= i < |s| ==> s[i] in s;
  }

  lemma JudgeBudget(st: Standings, budget: nat, d: Decision, c: nat)
    requires Budget(budget, d) && c !in d.unrepaired
    ensures Budget(budget, JudgeBy(budget, d, c, st(c)))
  {
    var d' := JudgeBy(budget, d, c, st(c));
    forall l | l in d'.abstaining ensures ShortLane(d', l) {
      if l in d.abstaining {
        var x :| x in d.unrepaired && l in d.unrepaired[x];
        assert x in d'.unrepaired && l in d'.unrepaired[x];
      } else {
        assert c in d'.unrepaired && l in d'.unrepaired[c];
      }
    }
  }

  /** A judgement against what the smaller ids left of the budget. */
  ghost predicate Admitted(budget: nat, before: Decision, standing: Standing) {
    match standing
    case Unkeyed(_) => false
    case Short(missing) => |before.abstaining + Members(missing)| <= budget
    case _ => true
  }

  /** One judgement touches only its own client. */
  lemma JudgeIncludes(budget: nat, d: Decision, c: nat, standing: Standing, x: nat)
    ensures var d' := JudgeBy(budget, d, c, standing);
            && (x in d'.included <==> x in d.included || (x == c && Admitted(budget, d, standing)))
            && (x in d'.repairs <==> x in d.repairs || (x == c && standing.Repaired?))
            && (x in d'.unrepaired <==> x in d.unrepaired || (x == c && standing.Short? && Admitted(budget, d, standing)))
            && (x != c && x in d.repairs ==> d'.repairs[x] == d.repairs[x])
            && (x != c && x in d.unrepaired ==> d'.unrepaired[x] == d.unrepaired[x])
            && d.abstaining <= d'.abstaining
  {
    assert x in d.included + [c] <==> x in d.included || x == c;
  }

  lemma JudgeReasons(st: Standings, budget: nat, d: Decision, c: nat)
    requires Reasons(st, d) && c !in d.included
    ensures Reasons(st, JudgeBy(budget, d, c, st(c)))
  {
    var d' := JudgeBy(budget, d, c, st(c));
    forall x | x in d'.unrepaired ensures IncludedShort(st, d', x) {
      JudgeIncludes(budget, d, c, st(c), x);
      assert x in d.unrepaired ==> IncludedShort(st, d, x);
    }
    forall x
      ensures x in d'.repairs <==> x in d'.included && st(x).Repaired?
      ensures x in d'.repairs ==> st(x) == Repaired(d'.repairs[x])
      ensures x in d'.included ==> !st(x).Unkeyed? && (st(x).Short? ==> x in d'.unrepaired)
    {
      JudgeIncludes(budget, d, c, st(c), x);
    }
  }

  /** The decision over clients whose standings are given. */
  function JudgeAllBy(st: Standings, budget: nat, clients: seq<nat>): Decision
    decreases |clients|
  {
    if clients == [] then Undecided
    else JudgeBy(budget, JudgeAllBy(st, budget, clients[..|clients| - 1]), clients[|clients| - 1], st(clients[|clients| - 1]))
  }

  lemma {:induction false} JudgeAllIs(t: Tools, v: View, st: Standings, clients: seq<nat>)
    requires forall c :: st(c) == StandingOf(t, v, c)
    ensures JudgeAll(t, v, clients) == JudgeAllBy(st, SatSub(t.sch.n, t.sch.k), clients)
    decreases |clients|
  {
    if clients != [] { JudgeAllIs(t, v, st, clients[..|clients| - 1]); }
  }

  lemma {:induction false} JudgeAllKeeps(st: Standings, budget: nat, clients: seq<nat>)
    requires Ascending(clients)
    ensures var d := JudgeAllBy(st, budget, clients);
            Partition(st, clients, d) && Budget(budget, d) && Reasons(st, d)
    decreases |clients|
  {
    if clients != [] {
      var n := |clients| - 1;
      var (init, c) := (clients[..n], clients[n]);
      assert clients == init + [c];
      JudgeAllKeeps(st, budget, init);
      var d := JudgeAllBy(st, budget, init);
      assert c !in init;
      assert c in d.unrepaired ==> IncludedShort(st, d, c);
      JudgePartition(st, budget, init, d, c);
      JudgeBudget(st, budget, d, c);
      JudgeReasons(st, budget, d, c);
    }
  }

  function StandingsOf(t: Tools, v: View): Standings { (c: nat) => StandingOf(t, v, c) }

  /** The set, the excluded and the conflicted partition the reported clients; no more than
      `n - k` lanes abstain, and every lane an included client is short of is one of them. */
  lemma DecisionHolds(t: Tools, v: View)
    ensures var d, st := Decide(t, v), StandingsOf(t, v);
            Partition(st, Clients(v), d) && Budget(SatSub(t.sch.n, t.sch.k), d) && Reasons(st, d)
  {
    JudgeAllKeeps(StandingsOf(t, v), SatSub(t.sch.n, t.sch.k), Clients(v));
    JudgeAllIs(t, v, StandingsOf(t, v), Clients(v));
  }

  /** At least `k` lanes lie outside `abstaining`. */
  lemma EnoughLanes(t: Tools, v: View)
    requires 1 <= t.sch.k <= t.sch.n
    ensures |Range(t.sch.n) - Decide(t, v).abstaining| >= t.sch.k
  {
    DecisionHolds(t, v);
    Remainder(Range(t.sch.n), Decide(t, v).abstaining);
  }

  // ---------------------------------------------------------------- who is in

  lemma NotYet(t: Tools, v: View, clients: seq<nat>, c: nat)
    requires Ascending(clients + [c])
    ensures c !in JudgeAll(t, v, clients).repairs
  {
    var st := StandingsOf(t, v);
    JudgeAllIs(t, v, st, clients);
    OnlySeen(st, SatSub(t.sch.n, t.sch.k), clients, c);
    assert Ascending(clients) by { assert clients == (clients + [c])[..|clients|]; }
    JudgeAllKeeps(st, SatSub(t.sch.n, t.sch.k), clients);
  }

  lemma JudgeNext(t: Tools, v: View, clients: seq<nat>, i: nat)
    requires i < |clients| && Ascending(clients)
    ensures var d := JudgeAll(t, v, clients[..i]);
            && clients[i] !in d.repairs
            && JudgeAll(t, v, clients[..i + 1]) == JudgeBy(SatSub(t.sch.n, t.sch.k), d, clients[i], StandingOf(t, v, clients[i]))
  {
    assert clients[..i + 1][..i] == clients[..i] && clients[..i + 1] == clients[..i] + [clients[i]];
    NotYet(t, v, clients[..i], clients[i]);
  }

  /** The clients of smaller id. */
  function Prefix(clients: seq<nat>, c: nat): (r: seq<nat>)
    requires c in clients && Ascending(clients)
    ensures |r| < |clients| && clients[|r|] == c && r == clients[..|r|]
    decreases |clients|
  {
    var n := |clients| - 1;
    if clients[n] == c then clients[..n]
    else
      assert c in clients[..n];
      Prefix(clients[..n], c)
  }

  lemma {:induction false} MembershipBy(st: Standings, budget: nat, clients: seq<nat>, c: nat)
    requires Ascending(clients) && c in clients
    ensures c in JudgeAllBy(st, budget, clients).included
            <==> Admitted(budget, JudgeAllBy(st, budget, Prefix(clients, c)), st(c))
    decreases |clients|
  {
    var n := |clients| - 1;
    var init := clients[..n];
    var d := JudgeAllBy(st, budget, init);
    JudgeIncludes(budget, d, clients[n], st(clients[n]), c);
    assert clients == init + [clients[n]];
    if clients[n] == c {
      OnlySeen(st, budget, init, c);
      assert Prefix(clients, c) == init;
    } else {
      assert c in init;
      MembershipBy(st, budget, init, c);
    }
  }

  lemma BeforeLast(clients: seq<nat>, c: nat)
    requires Ascending(clients + [c])
    ensures Ascending(clients) && forall x :: x in clients ==> x < c
  {
    var all := clients + [c];
    assert all[|clients|] == c && forall i :: 0 <= i < |clients| ==> all[i] == clients[i];
  }

  lemma OnlySeen(st: Standings, budget: nat, clients: seq<nat>, c: nat)
    requires Ascending(clients + [c])
    ensures c !in JudgeAllBy(st, budget, clients).included
  {
    BeforeLast(clients, c);
    JudgeAllKeeps(st, budget, clients);
  }

  /** Exact membership: a reported client is in precisely when it has one boot key and is
      covered everywhere, or rebuilds, or its missing lanes still fit the budget. */
  lemma Membership(t: Tools, v: View, c: nat)
    requires c in Clients(v)
    ensures c in Decide(t, v).included <==>
            Admitted(SatSub(t.sch.n, t.sch.k), JudgeAll(t, v, Prefix(Clients(v), c)), StandingOf(t, v, c))
  {
    var st := StandingsOf(t, v);
    MembershipBy(st, SatSub(t.sch.n, t.sch.k), Clients(v), c);
    JudgeAllIs(t, v, st, Clients(v));
    JudgeAllIs(t, v, st, Prefix(Clients(v), c));
  }

  /** A client with one boot key that every lane reported is in, whatever the others did. */
  lemma FullyCoveredIsIn(t: Tools, v: View, c: nat, key: Bytes)
    requires t.sch.n > 0 && ReportedKey(v.bulletins, c) == Some(key)
    requires forall l: nat :: l < t.sch.n ==> l in v.matrix && Reports(v.matrix[l], c, key)
    ensures c in Decide(t, v).included
  {
    HeadIn(MissingLanes(t, v, c, key));
    assert StandingOf(t, v, c) == Whole;
    assert 0 in v.matrix && Reports(v.matrix[0], c, key);
    assert c in ClientSetOf(v.matrix);
    Membership(t, v, c);
  }

  // ---------------------------------------------------------------- what each lane serves

  /** A server's own row is drawn from what it holds, and what it holds is its lane's. */
  ghost predicate OwnRow(sch: Scheme, s: Server) {
    && s.id in s.batches && s.batches[s.id].receipts == Receipts(s.held)
    && (forall c, h :: c in s.held && h in s.held[c] ==> HeldBundle(sch, s.id, c, s.held[c][h]))
  }

  ghost predicate HeldBundle(sch: Scheme, lane: nat, c: nat, b: Bundle) {
    b.client == c && b.lane == lane && BundleValid(sch, b)
  }

  lemma {:induction false} ReceiptsAre(held: map<nat, map<Bytes, Bundle>>, clients: seq<nat>)
    requires forall c :: c in clients ==> c in held
    ensures forall r :: r in ReceiptsFor(held, clients) ==> ReceiptIs(held, r)
  {
    if clients != [] {
      assert clients[0] in clients;
      assert forall c :: c in clients[1..] ==> c in clients;
      ReceiptsAre(held, clients[1..]);
    }
  }

  ghost predicate ReceiptIs(held: map<nat, map<Bytes, Bundle>>, r: Receipt) {
    && r.client in held && held[r.client] != map[]
    && r.bundleHash == LexLeast(held[r.client].Keys)
    && r.key == held[r.client][r.bundleHash].pubkey
  }

  lemma {:induction false} FindFinds(rs: seq<Receipt>, client: nat)
    ensures (exists r :: r in rs && r.client == client) <==> FindReceipt(rs, client).Some?
    ensures FindReceipt(rs, client).Some? ==> FindReceipt(rs, client).value in rs && FindReceipt(rs, client).value.client == client
  {
    if rs != [] {
      FindFinds(rs[1..], client);
      assert forall r :: r in rs <==> r == rs[0] || r in rs[1..];
    }
  }

  lemma OneKeyEach(held: map<nat, map<Bytes, Bundle>>, r: Receipt, q: Receipt)
    requires ReceiptIs(held, r) && ReceiptIs(held, q) && r.client == q.client
    ensures r == q && r.bundleHash in held[r.client] && held[r.client][r.bundleHash].pubkey == r.key
  {
  }

  lemma RowFinds(held: map<nat, map<Bytes, Bundle>>, rs: seq<Receipt>, c: nat, key: Bytes)
    requires rs == Receipts(held) && Reports(rs, c, key)
    ensures var r := FindReceipt(rs, c);
            r.Some? && c in held && r.value.bundleHash in held[c] && held[c][r.value.bundleHash].pubkey == key
  {
    var i :| 0 <= i < |rs| && rs[i].client == c && rs[i].key == key;
    ReceiptsAre(held, Sorted(held.Keys));
    assert rs[i] in rs;
    FindFinds(rs, c);
    OneKeyEach(held, rs[i], FindReceipt(rs, c).value);
  }

  /** A server that reported a client under `key` holds its bundle under that key. */
  lemma OwnBundleServes(sch: Scheme, s: Server, c: nat, key: Bytes)
    requires OwnRow(sch, s) && Reports(s.batches[s.id].receipts, c, key)
    ensures var b := OwnBundleOf(s, c);
            b.Some? && b.value.pubkey == key && HeldBundle(sch, s.id, c, b.value)
  {
    RowFinds(s.held, s.batches[s.id].receipts, c, key);
  }

  lemma {:induction false} LaneBundleFinds(sch: Scheme, key: Bytes, bs: seq<Bundle>, lanes: seq<nat>, lane: nat)
    requires |bs| == |lanes| && forall i :: 0 <= i < |bs| ==> Acceptable(sch, key, lanes[i], bs[i])
    ensures LaneBundle(bs, lane).Some? <==> lane in lanes
    ensures LaneBundle(bs, lane).Some? ==> Acceptable(sch, key, lane, LaneBundle(bs, lane).value) && LaneBundle(bs, lane).value in bs
  {
    if bs != [] {
      assert Acceptable(sch, key, lanes[0], bs[0]);
      LaneBundleFinds(sch, key, bs[1..], lanes[1..], lane);
      assert lane in lanes <==> lane == lanes[0] || lane in lanes[1..];
    } else {
      assert lanes == [];
    }
  }

  lemma RepairServes(t: Tools, v: View, c: nat, key: Bytes, bs: seq<Bundle>, lane: nat)
    requires RebuiltFor(t, v, c, key) == Some(bs)
    ensures LaneBundle(bs, lane).Some? <==> lane in MissingLanes(t, v, c, key)
    ensures LaneBundle(bs, lane).Some? ==>
              LaneBundle(bs, lane).value.client == c && Acceptable(t.sch, key, lane, LaneBundle(bs, lane).value)
  {
    var pool := if c in v.pool then v.pool[c] else map[];
    var missing := MissingLanes(t, v, c, key);
    ParseSound(t.sch, t.g, c, key, DecodedBlob(t.sch, t.e, pool).value, missing);
    LaneBundleFinds(t.sch, key, bs, missing, lane);
  }

  /** This lane is one of those `c` was admitted without. */
  ghost predicate ShortOf(d: Decision, lane: nat, c: nat) {
    c in d.unrepaired && lane in d.unrepaired[c]
  }

  /** Why an included client is in, in terms of the matrix and the pieces. */
  ghost predicate Why(t: Tools, v: View, d: Decision, c: nat) {
    && ReportedKey(v.bulletins, c).Some?
    && var key := ReportedKey(v.bulletins, c).value;
    && (c in d.repairs ==> RebuiltFor(t, v, c, key) == Some(d.repairs[c]))
    && (c in d.unrepaired ==> c !in d.repairs && d.unrepaired[c] == MissingLanes(t, v, c, key)
                              && Members(d.unrepaired[c]) <= d.abstaining)
    && (c !in d.repairs && c !in d.unrepaired ==> MissingLanes(t, v, c, key) == [])
  }

  lemma StandingMeans(t: Tools, v: View, c: nat)
    ensures var st, posted := StandingOf(t, v, c), ReportedKey(v.bulletins, c);
            && (posted.Some? <==> !st.Unkeyed?)
            && (st.Whole? ==> MissingLanes(t, v, c, posted.value) == [])
            && (st.Repaired? ==> RebuiltFor(t, v, c, posted.value) == Some(st.bundles))
            && (st.Short? ==> st.missing == MissingLanes(t, v, c, posted.value))
  {
  }

  lemma WhyBy(t: Tools, v: View, st: Standings, d: Decision, c: nat)
    requires Reasons(st, d) && st(c) == StandingOf(t, v, c)
    requires c in d.included || c in d.unrepaired
    ensures c in d.included && Why(t, v, d, c)
  {
    StandingMeans(t, v, c);
    assert c in d.unrepaired ==> IncludedShort(st, d, c);
  }

  lemma WhyIncluded(t: Tools, v: View, c: nat)
    requires c in Decide(t, v).included || c in Decide(t, v).unrepaired
    ensures c in Decide(t, v).included && Why(t, v, Decide(t, v), c)
  {
    DecisionHolds(t, v);
    WhyBy(t, v, StandingsOf(t, v), Decide(t, v), c);
  }

  /** An honest lane not short of an included client serves its bundle: for this lane, valid,
      and under the one key the client posted. */
  lemma ServesUnlessShort(t: Tools, s: Server, d: Decision, c: nat)
    requires OwnRow(t.sch, s) && s.id < t.sch.n
    requires Why(t, ViewOf(s), d, c) && !ShortOf(d, s.id, c)
    ensures Serves(t, s, d, c)
  {
    var key := ReportedKey(s.bulletins, c).value;
    var missing := MissingLanes(t, ViewOf(s), c, key);
    if s.id in missing {
      assert c in d.repairs;
      RepairServes(t, ViewOf(s), c, key, d.repairs[c], s.id);
    } else {
      ServesOwn(t, s, d, c, key);
    }
  }

  lemma ServesOwn(t: Tools, s: Server, d: Decision, c: nat, key: Bytes)
    requires OwnRow(t.sch, s) && s.id < t.sch.n && Why(t, ViewOf(s), d, c)
    requires ReportedKey(s.bulletins, c) == Some(key) && s.id !in MissingLanes(t, ViewOf(s), c, key)
    ensures Serves(t, s, d, c)
  {
    RowReports(t, s, c, key);
    OwnBundleServes(t.sch, s, c, key);
    if c in d.repairs {
      RepairServes(t, ViewOf(s), c, key, d.repairs[c], s.id);
      assert RebuiltHere(s, d, c) == None;
    }
    assert Served(s, d, c) == OwnBundleOf(s, c);
  }

  lemma RowReports(t: Tools, s: Server, c: nat, key: Bytes)
    requires s.id < t.sch.n && s.id !in MissingLanes(t, ViewOf(s), c, key)
    ensures s.id in s.batches && Reports(s.batches[s.id].receipts, c, key)
  {
    assert s.id in Covered(Matrix(s), c, key);
  }

  /** The bundle this lane serves for `c` is `c`'s, for this lane, under its posted key. */
  ghost predicate Serves(t: Tools, s: Server, d: Decision, c: nat) {
    var b := Served(s, d, c);
    var key := ReportedKey(s.bulletins, c);
    b.Some? && key.Some? && b.value.client == c && Acceptable(t.sch, key.value, s.id, b.value)
  }

  lemma FoundReceipt(s: Server, sch: Scheme, c: nat)
    requires OwnRow(sch, s)
    ensures var rs := s.batches[s.id].receipts;
            && (OwnBundleOf(s, c).Some? <==> exists r :: r in rs && r.client == c)
            && (OwnBundleOf(s, c).Some? ==> Reports(rs, c, OwnBundleOf(s, c).value.pubkey))
  {
    var rs := s.batches[s.id].receipts;
    FindFinds(rs, c);
    ReceiptsAre(s.held, Sorted(s.held.Keys));
    var found := FindReceipt(rs, c);
    if found.Some? {
      assert ReceiptIs(s.held, found.value);
      var i :| 0 <= i < |rs| && rs[i] == found.value;
    }
  }

  /** A lane that is short of `c` abstains exactly when its own row does not name `c`. If the
      row names it - necessarily under a key the client did not post - the lane serves that
      bundle instead of sitting the round out. */
  lemma ShortLaneServes(t: Tools, s: Server, d: Decision, c: nat)
    requires OwnRow(t.sch, s) && s.id < t.sch.n
    requires Why(t, ViewOf(s), d, c) && ShortOf(d, s.id, c)
    ensures var b := Served(s, d, c);
            && (b.Some? <==> exists r :: r in s.batches[s.id].receipts && r.client == c)
            && (b.Some? ==> b.value.pubkey != ReportedKey(s.bulletins, c).value)
  {
    var v := ViewOf(s);
    var key := ReportedKey(v.bulletins, c).value;
    assert s.id !in Covered(v.matrix, c, key);
    assert s.id in v.matrix && v.matrix[s.id] == s.batches[s.id].receipts;
    FoundReceipt(s, t.sch, c);
  }

  function LaneClients(lane: seq<(nat, Share, Path)>): (r: seq<nat>)
    ensures |r| == |lane| && forall i :: 0 <= i < |r| ==> r[i] == lane[i].0
  {
    seq(|lane|, i requires 0 <= i < |lane| => lane[i].0)
  }

  lemma ServesOneMore(t: Tools, s: Server, d: Decision, clients: seq<nat>)
    requires clients != [] && Served(s, d, clients[|clients| - 1]).Some?
    ensures var n := |clients| - 1;
            var before, out := ServeAll(t, s, d, clients[..n]), ServeAll(t, s, d, clients);
            var b := Served(s, d, clients[n]).value;
            && out.included == before.included + [clients[n]]
            && out.lane == before.lane + [(clients[n], b.share, b.path)]
            && LaneClients(out.lane) == LaneClients(before.lane) + [clients[n]]
            && clients == clients[..n] + [clients[n]]
  {
  }

  lemma {:induction false} ServesAllInOrder(t: Tools, s: Server, d: Decision, clients: seq<nat>)
    requires forall c :: c in clients ==> Served(s, d, c).Some?
    ensures var out := ServeAll(t, s, d, clients);
            && out.included == clients && LaneClients(out.lane) == clients
            && forall i :: 0 <= i < |clients| ==>
                 var b := Served(s, d, clients[i]).value;
                 out.lane[i] == (clients[i], b.share, b.path)
    decreases |clients|
  {
    if clients != [] {
      var n := |clients| - 1;
      assert clients[n] in clients;
      ServesAllInOrder(t, s, d, clients[..n]);
      ServesOneMore(t, s, d, clients);
    }
  }

  lemma ServesNext(t: Tools, s: Server, d: Decision, clients: seq<nat>)
    requires clients != []
    ensures var before, out := ServeAll(t, s, d, clients[..|clients| - 1]), ServeAll(t, s, d, clients);
            && out.included == before.included + [clients[|clients| - 1]]
            && out.excluded == before.excluded && out.conflicted == before.conflicted
            && clients == clients[..|clients| - 1] + [clients[|clients| - 1]]
  {
  }

  lemma {:induction false} ServeAllSet(t: Tools, s: Server, d: Decision, clients: seq<nat>)
    ensures var out := ServeAll(t, s, d, clients);
            out.included == clients && out.excluded == d.excluded && out.conflicted == d.conflicted
    decreases |clients|
  {
    if clients != [] {
      ServeAllSet(t, s, d, clients[..|clients| - 1]);
      ServesNext(t, s, d, clients);
    }
  }

  /** An honest lane outside the abstainers fills its lane inbox for the whole set, in order. */
  lemma CorrectLaneServesSet(t: Tools, s: Server)
    requires OwnRow(t.sch, s) && s.id < t.sch.n && s.id !in Decide(t, ViewOf(s)).abstaining
    ensures var d, out := Decide(t, ViewOf(s)), FinalizeRound(t, s);
            && out.included == d.included && LaneClients(out.lane) == d.included
            && (forall c :: c in d.included ==> Serves(t, s, d, c))
            && (forall i :: 0 <= i < |out.lane| ==>
                  var b := Served(s, d, d.included[i]); b.Some? && out.lane[i] == (d.included[i], b.value.share, b.value.path))
  {
    var d := Decide(t, ViewOf(s));
    forall c | c in d.included ensures Serves(t, s, d, c) {
      WhyIncluded(t, ViewOf(s), c);
      ServesUnlessShort(t, s, d, c);
    }
    ServesAllInOrder(t, s, d, d.included);
  }
}
