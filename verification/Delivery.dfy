/**
 * Delivery of granted payloads: every client writes its grants into its own vector,
 * the relay sees only the sum, and cuts the granted ranges out of it.
 *
 * The homomorphic layer is the pointwise sum of the vectors.  The allocator keeps
 * granted slots disjoint, within the cap, and only for tags listed once.
 */
module Delivery {
  import opened Basics
  import opened ScheduledClients

  ghost predicate Allocates(z: Slots) {
    Answers(z) && forall es: seq<Entry>, cap: nat :: Sane(es, z.allocate(es, cap), cap)
  }

  predicate Live(es: seq<Entry>, offs: seq<Option<nat>>, i: nat) {
    i < |es| == |offs| && offs[i].Some? && es[i].size > 0
  }

  ghost predicate Sane(es: seq<Entry>, offs: seq<Option<nat>>, cap: nat) {
    && |offs| == |es|
    && (forall i :: 0 <= i < |es| && offs[i].Some? ==> offs[i].value + es[i].size <= cap)
    && (forall i, j :: 0 <= i < |es| && 0 <= j < |es| && i != j && offs[i].Some? ==> es[i].tag != es[j].tag)
    && forall i: nat, j: nat | Live(es, offs, i) && Live(es, offs, j) && i != j ::
         offs[i].value + es[i].size <= offs[j].value || offs[j].value + es[j].size <= offs[i].value
  }

  // ---------------------------------------------------------------- one client's vector

  function Due(gs: seq<Grant>, round: nat): seq<Grant> {
    if gs == [] then []
    else
      var rest := Due(gs[..|gs| - 1], round);
      if gs[|gs| - 1].target == round then rest + [gs[|gs| - 1]] else rest
  }

  lemma {:induction false} OnlyDueMatters(gs: seq<Grant>, round: nat, width: nat)
    ensures Place(gs, round, width).buf == Place(Due(gs, round), round, width).buf
  {
    if gs != [] {
      var n := |gs| - 1;
      OnlyDueMatters(gs[..n], round, width);
      if gs[n].target == round {
        var due := Due(gs[..n], round);
        assert (due + [gs[n]])[..|due + [gs[n]]| - 1] == due;
      }
    }
  }

  /** The vector of a client that reserved `mine` in a round whose public list is `es`. */
  function Vector(p: Params, es: seq<Entry>, mine: seq<Reservation>, target: nat): Bytes
    requires Answers(p.slots)
  {
    Place(Settle(es, p.slots.allocate(es, p.vectorBytes), target, mine).0, target, VectorBytes(p, es)).buf
  }

  /** The last of the client's reservations that reads entry `i` as its own. */
  function Claim(es: seq<Entry>, mine: seq<Reservation>, i: nat): Option<Bytes> {
    if mine == [] then None
    else if Position(es, mine[|mine| - 1]) == Some(i) then Some(mine[|mine| - 1].data)
    else Claim(es, mine[..|mine| - 1], i)
  }

  lemma {:induction false} PositionFits(es: seq<Entry>, r: Reservation)
    ensures var i := Position(es, r);
      (i.Some? ==> i.value < |es| && es[i.value] == Entry(r.tag, |r.data|))
      && (i.None? ==> Entry(r.tag, |r.data|) !in es)
  {
    if es != [] && es[0] != Entry(r.tag, |r.data|) {
      PositionFits(es[1..], r);
      assert forall e :: e in es <==> e == es[0] || e in es[1..];
    }
  }

  lemma ClaimSize(es: seq<Entry>, mine: seq<Reservation>, i: nat)
    requires Claim(es, mine, i).Some?
    ensures i < |es| && |Claim(es, mine, i).value| == es[i].size
  {
    if Position(es, mine[|mine| - 1]) == Some(i) {
      PositionFits(es, mine[|mine| - 1]);
    } else {
      ClaimSize(es, mine[..|mine| - 1], i);
    }
  }

  predicate InSlot(es: seq<Entry>, offs: seq<Option<nat>>, i: nat, x: nat) {
    Live(es, offs, i) && offs[i].value <= x < offs[i].value + es[i].size
  }

  function ByteOf(c: Option<Bytes>, k: nat): nat {
    if c.Some? && k < |c.value| then c.value[k] else 0
  }

  /** In a granted slot a client's vector carries its claim on that slot, and nothing otherwise. */
  lemma {:induction false} VectorByte(es: seq<Entry>, offs: seq<Option<nat>>, cap: nat, target: nat, width: nat,
                                      mine: seq<Reservation>, i: nat, x: nat)
    requires Sane(es, offs, cap) && InSlot(es, offs, i, x) && x < width
    ensures Place(Settle(es, offs, target, mine).0, target, width).buf[x] == ByteOf(Claim(es, mine, i), x - offs[i].value)
  {
    if mine != [] {
      var n := |mine| - 1;
      var r := mine[n];
      var before := Settle(es, offs, target, mine[..n]).0;
      VectorByte(es, offs, cap, target, width, mine[..n], i, x);
      PositionFits(es, r);
      var at := Placing(es, offs, r);
      if at.Some? {
        var g := Grant(target, at.value, r.data);
        assert (before + [g])[..|before + [g]| - 1] == before;
        var j := Position(es, r).value;
        assert Live(es, offs, i);
        assert j != i && es[j].size > 0 ==> Live(es, offs, j);
      }
    }
  }

  lemma {:induction false} UsedCovers(es: seq<Entry>, offs: seq<Option<nat>>, i: nat)
    requires |offs| == |es| && i < |es| && offs[i].Some?
    ensures offs[i].value + es[i].size <= Used(es, offs)
  {
    if i < |es| - 1 { UsedCovers(es[..|es| - 1], offs[..|es| - 1], i); }
  }

  lemma UpTo(x: nat, b: nat)
    requires b > 0
    ensures DivCeil(x, b) * b >= x
  {
    Quotient(x + b - 1, b, DivCeil(x, b) + 1);
    assert (DivCeil(x, b) + 1) * b == DivCeil(x, b) * b + b;
  }

  /** No granted slot is truncated: the round's width covers every one. */
  lemma WidthCovers(p: Params, es: seq<Entry>, i: nat)
    requires Answers(p.slots) && i < |es|
    ensures var offs := p.slots.allocate(es, p.vectorBytes);
      offs[i].Some? ==> offs[i].value + es[i].size <= VectorBytes(p, es)
  {
    var offs := p.slots.allocate(es, p.vectorBytes);
    assert |p.slots.allocate(es, p.vectorBytes)| == |es|;
    if offs[i].Some? { UsedCovers(es, offs, i); }
    UpTo(Used(es, offs), p.slots.bytesPerPoly);
  }

  // ---------------------------------------------------------------- the relay

  /** Position `x` of the sum of all vectors. */
  function SumAt(vectors: seq<Bytes>, x: nat): nat {
    if vectors == [] then 0
    else
      var v := vectors[|vectors| - 1];
      SumAt(vectors[..|vectors| - 1], x) + (if x < |v| then v[x] else 0)
  }

  /** The bytes cut out of the sum for slot `i`. */
  function Cut(es: seq<Entry>, offs: seq<Option<nat>>, vectors: seq<Bytes>, i: nat): seq<int>
    requires Live(es, offs, i)
  {
    seq(es[i].size, k requires 0 <= k < es[i].size => SumAt(vectors, offs[i].value + k))
  }

  predicate AllZero(s: seq<int>) { forall k :: 0 <= k < |s| ==> s[k] == 0 }

  /** The relay's output: the granted ranges in list order, all-zero ones dropped. */
  function Unpack(es: seq<Entry>, offs: seq<Option<nat>>, vectors: seq<Bytes>, n: nat): seq<seq<int>>
    requires n <= |es| == |offs|
  {
    if n == 0 then []
    else
      var before := Unpack(es, offs, vectors, n - 1);
      if Live(es, offs, n - 1) && !AllZero(Cut(es, offs, vectors, n - 1)) then before + [Cut(es, offs, vectors, n - 1)]
      else before
  }

  /** Which of the clients claims entry `i`, and with what. */
  function Claimed(es: seq<Entry>, clients: seq<seq<Reservation>>, i: nat): Option<Bytes> {
    if clients == [] then None
    else
      var last := Claim(es, clients[|clients| - 1], i);
      if last.Some? then last else Claimed(es, clients[..|clients| - 1], i)
  }

  /** The payloads granted a slot, in list order, those that read as zero left out. */
  function GrantedPayloads(es: seq<Entry>, offs: seq<Option<nat>>, clients: seq<seq<Reservation>>, n: nat): seq<seq<int>>
    requires n <= |es| == |offs|
  {
    if n == 0 then []
    else
      var before := GrantedPayloads(es, offs, clients, n - 1);
      var c := Claimed(es, clients, n - 1);
      if Live(es, offs, n - 1) && c.Some? && !AllZero(c.value) then before + [c.value] else before
  }

  /** No granted slot is claimed by two of these clients. */
  predicate Exclusive(es: seq<Entry>, offs: seq<Option<nat>>, clients: seq<seq<Reservation>>)
    requires |offs| == |es|
  {
    forall i, a, b :: 0 <= i < |es| && offs[i].Some? && 0 <= a < b < |clients| ==>
      Claim(es, clients[a], i).None? || Claim(es, clients[b], i).None?
  }

  ghost predicate ExclusiveUnder(p: Params, es: seq<Entry>, clients: seq<seq<Reservation>>) {
    Allocates(p.slots) && Sane(es, p.slots.allocate(es, p.vectorBytes), p.vectorBytes)
    && Exclusive(es, p.slots.allocate(es, p.vectorBytes), clients)
  }

  function Vectors(p: Params, es: seq<Entry>, clients: seq<seq<Reservation>>, target: nat): seq<Bytes>
    requires Answers(p.slots)
  {
    seq(|clients|, k requires 0 <= k < |clients| => Vector(p, es, clients[k], target))
  }

  lemma ExclusiveInit(es: seq<Entry>, offs: seq<Option<nat>>, clients: seq<seq<Reservation>>, i: nat)
    requires |offs| == |es| && Exclusive(es, offs, clients) && clients != [] && i < |es| && offs[i].Some?
    ensures Exclusive(es, offs, clients[..|clients| - 1])
    ensures Claim(es, clients[|clients| - 1], i).Some? ==> Claimed(es, clients[..|clients| - 1], i).None?
  {
    if Claim(es, clients[|clients| - 1], i).Some? {
      NoneClaim(es, clients[..|clients| - 1], i);
    }
  }

  lemma {:induction false} NoneClaim(es: seq<Entry>, clients: seq<seq<Reservation>>, i: nat)
    requires forall a :: 0 <= a < |clients| ==> Claim(es, clients[a], i).None?
    ensures Claimed(es, clients, i).None?
  {
    if clients != [] { NoneClaim(es, clients[..|clients| - 1], i); }
  }

  /** What all clients claim for byte `k` of entry `i`, added up. */
  function Total(es: seq<Entry>, clients: seq<seq<Reservation>>, i: nat, k: nat): nat {
    if clients == [] then 0
    else Total(es, clients[..|clients| - 1], i, k) + ByteOf(Claim(es, clients[|clients| - 1], i), k)
  }

  lemma LastByte(p: Params, es: seq<Entry>, mine: seq<Reservation>, target: nat, i: nat, x: nat)
    requires Allocates(p.slots) && InSlot(es, p.slots.allocate(es, p.vectorBytes), i, x)
    ensures var v := Vector(p, es, mine, target);
            x < |v| && v[x] == ByteOf(Claim(es, mine, i), x - p.slots.allocate(es, p.vectorBytes)[i].value)
  {
    var offs := p.slots.allocate(es, p.vectorBytes);
    assert Sane(es, offs, p.vectorBytes);
    WidthCovers(p, es, i);
    VectorByte(es, offs, p.vectorBytes, target, VectorBytes(p, es), mine, i, x);
  }

  /** In a granted slot the sum of all vectors is the sum of all claims on it, however many there are. */
  lemma {:induction false} SumIsTotal(p: Params, es: seq<Entry>, clients: seq<seq<Reservation>>, target: nat, i: nat, x: nat)
    requires Allocates(p.slots) && InSlot(es, p.slots.allocate(es, p.vectorBytes), i, x)
    ensures var offs := p.slots.allocate(es, p.vectorBytes);
      SumAt(Vectors(p, es, clients, target), x) == Total(es, clients, i, x - offs[i].value)
    decreases |clients|
  {
    if clients != [] {
      var n := |clients| - 1;
      SumIsTotal(p, es, clients[..n], target, i, x);
      assert Vectors(p, es, clients, target)[..n] == Vectors(p, es, clients[..n], target);
      LastByte(p, es, clients[n], target, i, x);
    }
  }

  lemma {:induction false} ExclusiveTotal(es: seq<Entry>, offs: seq<Option<nat>>, clients: seq<seq<Reservation>>, i: nat, k: nat)
    requires |offs| == |es| && Exclusive(es, offs, clients) && i < |es| && offs[i].Some?
    ensures Total(es, clients, i, k) == ByteOf(Claimed(es, clients, i), k)
  {
    if clients != [] {
      ExclusiveInit(es, offs, clients, i);
      ExclusiveTotal(es, offs, clients[..|clients| - 1], i, k);
    }
  }

  /** Under exclusive claims that sum is the one claim there is. */
  lemma SumByte(p: Params, es: seq<Entry>, clients: seq<seq<Reservation>>, target: nat, i: nat, x: nat)
    requires ExclusiveUnder(p, es, clients)
    requires var offs := p.slots.allocate(es, p.vectorBytes); InSlot(es, offs, i, x)
    ensures var offs := p.slots.allocate(es, p.vectorBytes);
      SumAt(Vectors(p, es, clients, target), x) == ByteOf(Claimed(es, clients, i), x - offs[i].value)
  {
    var offs := p.slots.allocate(es, p.vectorBytes);
    SumIsTotal(p, es, clients, target, i, x);
    ExclusiveTotal(es, offs, clients, i, x - offs[i].value);
  }

  lemma {:induction false} ClaimedSize(es: seq<Entry>, clients: seq<seq<Reservation>>, i: nat)
    requires Claimed(es, clients, i).Some?
    ensures i < |es| && |Claimed(es, clients, i).value| == es[i].size
  {
    var n := |clients| - 1;
    if Claim(es, clients[n], i).Some? { ClaimSize(es, clients[n], i); } else { ClaimedSize(es, clients[..n], i); }
  }

  lemma SlotCut(p: Params, es: seq<Entry>, clients: seq<seq<Reservation>>, target: nat, i: nat)
    requires ExclusiveUnder(p, es, clients)
    requires Live(es, p.slots.allocate(es, p.vectorBytes), i)
    ensures var cut := Cut(es, p.slots.allocate(es, p.vectorBytes), Vectors(p, es, clients, target), i);
      var c := Claimed(es, clients, i);
      if c.Some? then cut == c.value else AllZero(cut)
  {
    var offs := p.slots.allocate(es, p.vectorBytes);
    var cut := Cut(es, offs, Vectors(p, es, clients, target), i);
    var c := Claimed(es, clients, i);
    if c.Some? { ClaimedSize(es, clients, i); }
    forall k | 0 <= k < es[i].size ensures cut[k] == ByteOf(c, k) {
      SumByte(p, es, clients, target, i, offs[i].value + k);
    }
  }

  lemma {:induction false} UnpackUpTo(p: Params, es: seq<Entry>, clients: seq<seq<Reservation>>, target: nat, n: nat)
    requires ExclusiveUnder(p, es, clients) && n <= |es|
    ensures var offs := p.slots.allocate(es, p.vectorBytes);
      |offs| == |es| && Unpack(es, offs, Vectors(p, es, clients, target), n) == GrantedPayloads(es, offs, clients, n)
    decreases n
  {
    var offs := p.slots.allocate(es, p.vectorBytes);
    assert Sane(es, offs, p.vectorBytes);
    if n > 0 {
      UnpackUpTo(p, es, clients, target, n - 1);
      if Live(es, offs, n - 1) { SlotCut(p, es, clients, target, n - 1); }
    }
  }

  /** The sum of the clients' vectors unpacks to exactly their granted payloads that are not all zero. */
  lemma SumDelivers(p: Params, es: seq<Entry>, clients: seq<seq<Reservation>>, target: nat)
    requires ExclusiveUnder(p, es, clients)
    ensures var offs := p.slots.allocate(es, p.vectorBytes);
      |offs| == |es| && Unpack(es, offs, Vectors(p, es, clients, target), |es|) == GrantedPayloads(es, offs, clients, |es|)
  {
    UnpackUpTo(p, es, clients, target, |es|);
  }

  // ---------------------------------------------------------------- when claims are exclusive

  /** Entry `slot(a, j)` of the list is client `a`'s reservation `j`, and no entry is two clients'. */
  ghost predicate Lists(es: seq<Entry>, clients: seq<seq<Reservation>>, slot: (nat, nat) -> nat) {
    && (forall a, j :: 0 <= a < |clients| && 0 <= j < |clients[a]| ==>
          slot(a, j) < |es| && es[slot(a, j)] == Entry(clients[a][j].tag, |clients[a][j].data|))
    && forall a, j, b, k :: 0 <= a < b < |clients| && 0 <= j < |clients[a]| && 0 <= k < |clients[b]| ==> slot(a, j) != slot(b, k)
  }

  lemma {:induction false} ClaimOrigin(es: seq<Entry>, mine: seq<Reservation>, i: nat) returns (j: nat)
    requires Claim(es, mine, i).Some?
    ensures j < |mine| && Position(es, mine[j]) == Some(i) && mine[j].data == Claim(es, mine, i).value
  {
    j := |mine| - 1;
    if Position(es, mine[j]) != Some(i) { j := ClaimOrigin(es, mine[..j], i); }
  }

  /** A claim on a granted entry is on one's own listing of it. */
  lemma ClaimIsOwn(es: seq<Entry>, offs: seq<Option<nat>>, cap: nat, clients: seq<seq<Reservation>>, slot: (nat, nat) -> nat,
                   a: nat, i: nat) returns (j: nat)
    requires Sane(es, offs, cap) && Lists(es, clients, slot) && a < |clients| && i < |es| && offs[i].Some?
    requires Claim(es, clients[a], i).Some?
    ensures j < |clients[a]| && slot(a, j) == i
  {
    j := ClaimOrigin(es, clients[a], i);
    PositionFits(es, clients[a][j]);
    assert es[slot(a, j)].tag == es[i].tag;
  }

  /** When the list holds every client's reservations, no granted slot is claimed twice. */
  lemma ListedIsExclusive(es: seq<Entry>, offs: seq<Option<nat>>, cap: nat, clients: seq<seq<Reservation>>, slot: (nat, nat) -> nat)
    requires Sane(es, offs, cap) && Lists(es, clients, slot)
    ensures Exclusive(es, offs, clients)
  {
    forall i, a, b | 0 <= i < |es| && offs[i].Some? && 0 <= a < b < |clients|
      ensures Claim(es, clients[a], i).None? || Claim(es, clients[b], i).None?
    {
      if Claim(es, clients[a], i).Some? && Claim(es, clients[b], i).Some? {
        var j := ClaimIsOwn(es, offs, cap, clients, slot, a, i);
        var k := ClaimIsOwn(es, offs, cap, clients, slot, b, i);
      }
    }
  }

  /**
   * The list holds every delivering client's reservations, as when they were all in
   * the canonical set of the round it lists: their sum unpacks to exactly what they
   * were granted.
   */
  lemma ListedDelivers(p: Params, es: seq<Entry>, clients: seq<seq<Reservation>>, slot: (nat, nat) -> nat, target: nat)
    requires Allocates(p.slots) && Lists(es, clients, slot)
    ensures var offs := p.slots.allocate(es, p.vectorBytes);
      |offs| == |es| && Unpack(es, offs, Vectors(p, es, clients, target), |es|) == GrantedPayloads(es, offs, clients, |es|)
  {
    var offs := p.slots.allocate(es, p.vectorBytes);
    assert Sane(es, offs, p.vectorBytes);
    ListedIsExclusive(es, offs, p.vectorBytes, clients, slot);
    SumDelivers(p, es, clients, target);
  }

  // ---------------------------------------------------------------- contested slots

  /** A reservation claims a granted entry exactly when tag and length match it, listed by this client or not. */
  lemma {:induction false} ClaimExactly(es: seq<Entry>, offs: seq<Option<nat>>, cap: nat, mine: seq<Reservation>, i: nat)
    requires Sane(es, offs, cap) && i < |es| && offs[i].Some?
    ensures Claim(es, mine, i).Some? <==> exists j :: 0 <= j < |mine| && Matches(es, i, mine[j])
  {
    if mine != [] {
      var n := |mine| - 1;
      ClaimExactly(es, offs, cap, mine[..n], i);
      PositionOf(es, offs, cap, mine[n], i);
      if j :| 0 <= j < |mine| && Matches(es, i, mine[j]) {
        assert j < n ==> mine[..n][j] == mine[j];
      }
    }
  }

  predicate Matches(es: seq<Entry>, i: nat, r: Reservation)
    requires i < |es|
  {
    es[i] == Entry(r.tag, |r.data|)
  }

  lemma PositionOf(es: seq<Entry>, offs: seq<Option<nat>>, cap: nat, r: Reservation, i: nat)
    requires Sane(es, offs, cap) && i < |es| && offs[i].Some?
    ensures Position(es, r) == Some(i) <==> Matches(es, i, r)
  {
    PositionFits(es, r);
    if Matches(es, i, r) {
      assert es[i] in es;
      assert es[Position(es, r).value].tag == es[i].tag;
    }
  }

  /** What the clients other than `a` claim for byte `k` of entry `i`, added up. */
  function Others(es: seq<Entry>, clients: seq<seq<Reservation>>, a: nat, i: nat, k: nat): nat {
    if clients == [] then 0
    else
      var n := |clients| - 1;
      Others(es, clients[..n], a, i, k) + (if n == a then 0 else ByteOf(Claim(es, clients[n], i), k))
  }

  lemma {:induction false} TotalSplits(es: seq<Entry>, clients: seq<seq<Reservation>>, a: nat, i: nat, k: nat)
    ensures Total(es, clients, i, k)
      == Others(es, clients, a, i, k) + if a < |clients| then ByteOf(Claim(es, clients[a], i), k) else 0
  {
    if clients != [] { TotalSplits(es, clients[..|clients| - 1], a, i, k); }
  }

  ghost predicate Silent(es: seq<Entry>, clients: seq<seq<Reservation>>, a: nat, b: nat, i: nat, k: nat) {
    b < |clients| && b != a ==> ByteOf(Claim(es, clients[b], i), k) == 0
  }

  lemma {:induction false} OthersSilent(es: seq<Entry>, clients: seq<seq<Reservation>>, a: nat, i: nat, k: nat)
    ensures Others(es, clients, a, i, k) == 0 <==> forall b: nat :: Silent(es, clients, a, b, i, k)
  {
    if clients != [] {
      var n := |clients| - 1;
      OthersSilent(es, clients[..n], a, i, k);
      assert forall b: nat :: Silent(es, clients, a, b, i, k) ==> Silent(es, clients[..n], a, b, i, k);
      assert Silent(es, clients, a, n, i, k) <==> n == a || ByteOf(Claim(es, clients[n], i), k) == 0;
      assert forall b: nat :: b < n || b > n ==> (Silent(es, clients[..n], a, b, i, k) ==> Silent(es, clients, a, b, i, k));
    }
  }

  /** Client `b` writes nothing but zeros into slot `i`. */
  predicate Idle(es: seq<Entry>, mine: seq<Reservation>, i: nat) {
    Claim(es, mine, i).Some? ==> AllZero(Claim(es, mine, i).value)
  }

  predicate Uncontested(es: seq<Entry>, clients: seq<seq<Reservation>>, a: nat, i: nat) {
    forall b :: 0 <= b < |clients| && b != a ==> Idle(es, clients[b], i)
  }

  /** Byte `k` of the cut is client `a`'s and everyone else's on top. */
  lemma CutByte(p: Params, es: seq<Entry>, clients: seq<seq<Reservation>>, target: nat, a: nat, i: nat, k: nat)
    requires Allocates(p.slots) && Live(es, p.slots.allocate(es, p.vectorBytes), i)
    requires a < |clients| && Claim(es, clients[a], i).Some? && k < es[i].size
    ensures |Claim(es, clients[a], i).value| == es[i].size
    ensures Cut(es, p.slots.allocate(es, p.vectorBytes), Vectors(p, es, clients, target), i)[k]
      == Claim(es, clients[a], i).value[k] + Others(es, clients, a, i, k)
  {
    ClaimSize(es, clients[a], i);
    SumIsTotal(p, es, clients, target, i, p.slots.allocate(es, p.vectorBytes)[i].value + k);
    TotalSplits(es, clients, a, i, k);
  }

  /** No one but `a` adds anything to slot `i`. */
  ghost predicate Undisturbed(es: seq<Entry>, clients: seq<seq<Reservation>>, a: nat, i: nat)
    requires i < |es|
  {
    forall k :: 0 <= k < es[i].size ==> Others(es, clients, a, i, k) == 0
  }

  lemma OthersAreIdle(es: seq<Entry>, clients: seq<seq<Reservation>>, a: nat, i: nat)
    requires i < |es|
    ensures Uncontested(es, clients, a, i) <==> Undisturbed(es, clients, a, i)
  {
    if Uncontested(es, clients, a, i) {
      forall k | 0 <= k < es[i].size ensures Others(es, clients, a, i, k) == 0 { SilentWhenIdle(es, clients, a, i, k); }
    }
    if Undisturbed(es, clients, a, i) {
      forall b | 0 <= b < |clients| && b != a ensures Idle(es, clients[b], i) { IdleWhenSilent(es, clients, a, b, i); }
    }
  }

  lemma SilentWhenIdle(es: seq<Entry>, clients: seq<seq<Reservation>>, a: nat, i: nat, k: nat)
    requires Uncontested(es, clients, a, i)
    ensures Others(es, clients, a, i, k) == 0
  {
    forall b: nat ensures Silent(es, clients, a, b, i, k) {
      assert b < |clients| && b != a ==> Idle(es, clients[b], i);
    }
    OthersSilent(es, clients, a, i, k);
  }

  lemma IdleWhenSilent(es: seq<Entry>, clients: seq<seq<Reservation>>, a: nat, b: nat, i: nat)
    requires i < |es| && b < |clients| && b != a && Undisturbed(es, clients, a, i)
    ensures Idle(es, clients[b], i)
  {
    var c := Claim(es, clients[b], i);
    if c.Some? {
      ClaimSize(es, clients[b], i);
      forall k | 0 <= k < |c.value| ensures c.value[k] == 0 {
        OthersSilent(es, clients, a, i, k);
        assert Silent(es, clients, a, b, i, k);
      }
    }
  }

  /**
   * The relay cuts out a client's payload unharmed if and only if every other client's
   * claim on the slot, if it has one, is all zero.
   */
  lemma CutIsOwnExactly(p: Params, es: seq<Entry>, clients: seq<seq<Reservation>>, target: nat, a: nat, i: nat)
    requires Allocates(p.slots) && Live(es, p.slots.allocate(es, p.vectorBytes), i)
    requires a < |clients| && Claim(es, clients[a], i).Some?
    ensures Cut(es, p.slots.allocate(es, p.vectorBytes), Vectors(p, es, clients, target), i) == Claim(es, clients[a], i).value
      <==> Uncontested(es, clients, a, i)
  {
    var cut := Cut(es, p.slots.allocate(es, p.vectorBytes), Vectors(p, es, clients, target), i);
    var own := Claim(es, clients[a], i).value;
    ClaimSize(es, clients[a], i);
    forall k | 0 <= k < es[i].size ensures cut[k] == own[k] <==> Others(es, clients, a, i, k) == 0 {
      CutByte(p, es, clients, target, a, i, k);
    }
    OthersAreIdle(es, clients, a, i);
    SameCut(es, clients, a, i, cut, own);
  }

  lemma SameCut(es: seq<Entry>, clients: seq<seq<Reservation>>, a: nat, i: nat, cut: seq<int>, own: Bytes)
    requires i < |es| && |cut| == |own| == es[i].size
    requires forall k :: 0 <= k < es[i].size ==> (cut[k] == own[k] <==> Others(es, clients, a, i, k) == 0)
    ensures cut == own <==> Undisturbed(es, clients, a, i)
  {
    if cut == own {
      forall k | 0 <= k < es[i].size ensures Others(es, clients, a, i, k) == 0 { assert cut[k] == own[k]; }
    }
  }

  /**
   * The failing case: client `b` holds a reservation whose tag and length match the entry
   * client `a` claims (`b` may have been left out of the list), and its claim has a nonzero
   * byte. Then neither payload is what the relay cuts out, unless `a`'s is all zero.
   */
  lemma ContestedSlotCorrupts(p: Params, es: seq<Entry>, clients: seq<seq<Reservation>>, target: nat, a: nat, b: nat, i: nat,
                              r: Reservation)
    requires Allocates(p.slots) && Live(es, p.slots.allocate(es, p.vectorBytes), i)
    requires a < |clients| && b < |clients| && a != b && Claim(es, clients[a], i).Some?
    requires r in clients[b] && Matches(es, i, r)
    ensures Claim(es, clients[b], i).Some?
    ensures var cut := Cut(es, p.slots.allocate(es, p.vectorBytes), Vectors(p, es, clients, target), i);
      && (!AllZero(Claim(es, clients[b], i).value) ==> cut != Claim(es, clients[a], i).value)
      && (!AllZero(Claim(es, clients[a], i).value) ==> cut != Claim(es, clients[b], i).value)
  {
    var offs := p.slots.allocate(es, p.vectorBytes);
    assert Sane(es, offs, p.vectorBytes);
    ClaimExactly(es, offs, p.vectorBytes, clients[b], i);
    CutIsOwnExactly(p, es, clients, target, a, i);
    CutIsOwnExactly(p, es, clients, target, b, i);
  }

  // ---------------------------------------------------------------- from acceptance to delivery

  /** The client holds the round's list and exactly the grants it earned there. */
  predicate Promised(p: Params, c: Client, round: nat, es: seq<Entry>, mine: seq<Reservation>)
    requires Answers(p.slots)
  {
    && round in c.entries && c.entries[round] == es
    && round !in c.reserved
    && Due(c.granted, round + GAP) == Settle(es, p.slots.allocate(es, p.vectorBytes), round + GAP, mine).0
  }

  lemma {:induction false} DueConcat(a: seq<Grant>, b: seq<Grant>, round: nat)
    ensures Due(a + b, round) == Due(a, round) + Due(b, round)
  {
    if b == [] {
      assert a + b == a;
    } else {
      DueConcat(a, b[..|b| - 1], round);
      assert (a + b)[..|a + b| - 1] == a + b[..|b| - 1];
    }
  }

  lemma {:induction false} SettleDue(es: seq<Entry>, offs: seq<Option<nat>>, target: nat, mine: seq<Reservation>, round: nat)
    requires |offs| == |es|
    ensures Due(Settle(es, offs, target, mine).0, round) == if target == round then Settle(es, offs, target, mine).0 else []
  {
    if mine != [] {
      var n := |mine| - 1;
      SettleDue(es, offs, target, mine[..n], round);
      var before := Settle(es, offs, target, mine[..n]).0;
      var at := Placing(es, offs, mine[n]);
      if at.Some? {
        var g := Grant(target, at.value, mine[n].data);
        assert (before + [g])[..|before + [g]| - 1] == before;
      }
    }
  }

  lemma {:induction false} PlaceKeepsDue(gs: seq<Grant>, round: nat, width: nat, later: nat)
    requires later > round
    ensures Due(Place(gs, round, width).remaining, later) == Due(gs, later)
  {
    if gs != [] {
      var n := |gs| - 1;
      PlaceKeepsDue(gs[..n], round, width, later);
      var before := Place(gs[..n], round, width).remaining;
      if gs[n].target > round { assert (before + [gs[n]])[..|before + [gs[n]]| - 1] == before; }
    }
  }

  /** Accepting the round's list turns the round's reservations into grants for `GAP` rounds later. */
  lemma AcceptPromises(p: Params, c: Client, round: nat, es: seq<Entry>)
    requires Answers(p.slots) && round in c.reserved && InWindow(round, c.cur)
    requires Due(c.granted, round + GAP) == [] && (round in c.entries ==> c.entries[round] == es)
    ensures Promised(p, Accept(p, c, round, es, true), round, es, c.reserved[round])
  {
    var grants := Settle(es, p.slots.allocate(es, p.vectorBytes), round + GAP, c.reserved[round]).0;
    DueConcat(c.granted, grants, round + GAP);
    SettleDue(es, p.slots.allocate(es, p.vectorBytes), round + GAP, c.reserved[round], round + GAP);
  }

  /** Other rounds' lists leave a promise alone, and so does a second list for its own round. */
  lemma AcceptKeeps(p: Params, c: Client, round: nat, es: seq<Entry>, mine: seq<Reservation>, other: nat, es': seq<Entry>, signed: bool)
    requires Answers(p.slots) && Promised(p, c, round, es, mine)
    ensures Promised(p, Accept(p, c, other, es', signed), round, es, mine)
  {
    if signed && InWindow(other, c.cur) && other in c.reserved {
      var offs := p.slots.allocate(es', p.vectorBytes);
      DueConcat(c.granted, Settle(es', offs, other + GAP, c.reserved[other]).0, round + GAP);
      SettleDue(es', offs, other + GAP, c.reserved[other], round + GAP);
    }
  }

  lemma AdvanceKeeps(p: Params, c: Client, round: nat, es: seq<Entry>, mine: seq<Reservation>, now: nat)
    requires Answers(p.slots) && Promised(p, c, round, es, mine) && now <= round + ENTRIES_RETENTION
    ensures Promised(p, Advance(c, now), round, es, mine)
  {
  }

  lemma FinalizeKeeps(p: Params, c: Client, round: nat, es: seq<Entry>, mine: seq<Reservation>, now: nat, complete: bool, ch: Chance)
    requires Answers(p.slots) && Promised(p, c, round, es, mine) && now < round + GAP && now != round
    ensures Promised(p, Finalize(p, c, now, complete, ch).0, round, es, mine)
  {
    PlaceKeepsDue(c.granted, now, Width(p, c.entries, now), round + GAP);
  }

  /** The promise is honoured: the vector submitted `GAP` rounds later is the one the sum theorem speaks of. */
  lemma PromiseDelivered(p: Params, c: Client, round: nat, es: seq<Entry>, mine: seq<Reservation>, ch: Chance)
    requires Answers(p.slots) && Promised(p, c, round, es, mine)
    ensures Finalize(p, c, round + GAP, true, ch).1.vector == Vector(p, es, mine, round + GAP)
  {
    OnlyDueMatters(c.granted, round + GAP, Width(p, c.entries, round + GAP));
  }
}
