/** Blinding cancels in every combined round, and every round is combined at most once. */
module AdcnetRuns {
  import opened Basics
  import opened Adcnet

  // ---------------------------------------------------------------- the double sum

  /** `mask(k, j, x)`: what client `k` and relay `j` share for this round, at coordinate `x`. */
  type Masks = (Key, nat, nat) -> int

  /** A client's blinding: its masks with relays `0..n`. */
  function Blinding(m: Masks, k: Key, n: nat, x: nat): int {
    if n == 0 then 0 else Blinding(m, k, n - 1, x) + m(k, n - 1, x)
  }

  /** A relay's share: its masks with the set's members. */
  function Unblinding(m: Masks, ks: seq<Key>, j: nat, x: nat): int {
    if ks == [] then 0 else Unblinding(m, ks[..|ks| - 1], j, x) + m(ks[|ks| - 1], j, x)
  }

  function ByClient(m: Masks, ks: seq<Key>, n: nat, x: nat): int {
    if ks == [] then 0 else ByClient(m, ks[..|ks| - 1], n, x) + Blinding(m, ks[|ks| - 1], n, x)
  }

  function ByRelay(m: Masks, ks: seq<Key>, n: nat, x: nat): int {
    if n == 0 then 0 else ByRelay(m, ks, n - 1, x) + Unblinding(m, ks, n - 1, x)
  }

  lemma {:induction false} PeelClient(m: Masks, ks: seq<Key>, n: nat, x: nat)
    requires ks != []
    ensures ByRelay(m, ks, n, x) == ByRelay(m, ks[..|ks| - 1], n, x) + Blinding(m, ks[|ks| - 1], n, x)
  {
    if n > 0 { PeelClient(m, ks, n - 1, x); }
  }

  lemma {:induction false} NoClients(m: Masks, n: nat, x: nat)
    ensures ByRelay(m, [], n, x) == 0
  {
    if n > 0 { NoClients(m, n - 1, x); }
  }

  /** Summing the masks client by client or relay by relay is the same. */
  lemma {:induction false} Exchange(m: Masks, ks: seq<Key>, n: nat, x: nat)
    ensures ByClient(m, ks, n, x) == ByRelay(m, ks, n, x)
  {
    if ks == [] {
      NoClients(m, n, x);
    } else {
      Exchange(m, ks[..|ks| - 1], n, x);
      PeelClient(m, ks, n, x);
    }
  }

  function SumMessages(msg: (Key, nat) -> int, ks: seq<Key>, x: nat): int {
    if ks == [] then 0 else SumMessages(msg, ks[..|ks| - 1], x) + msg(ks[|ks| - 1], x)
  }

  // ---------------------------------------------------------------- residues

  predicate Same(a: int, b: int, order: nat)
    requires order > 0
  {
    a % order == b % order
  }

  lemma DivMod(a: int, b: nat)
    requires b > 0
    ensures a == (a / b) * b + a % b && 0 <= a % b < b
  {
  }

  lemma ModOfSum(r: int, q: int, b: nat)
    requires b > 0 && 0 <= r < b
    ensures (q * b + r) % b == r
  {
    var a := q * b + r;
    DivMod(a, b);
    var d := a / b;
    assert d < q ==> (d + 1) * b <= q * b;
    assert d > q ==> (q + 1) * b <= d * b;
  }

  lemma SameShift(a: int, b: int, q: int, order: nat)
    requires order > 0 && a == b + q * order
    ensures Same(a, b, order)
  {
    DivMod(b, order);
    assert a == (b / order + q) * order + b % order;
    ModOfSum(b % order, b / order + q, order);
  }

  lemma SameDiff(a: int, b: int, order: nat) returns (q: int)
    requires order > 0 && Same(a, b, order)
    ensures a == b + q * order
  {
    DivMod(a, order);
    DivMod(b, order);
    q := a / order - b / order;
    assert q * order == (a / order) * order - (b / order) * order;
  }

  lemma SameSum(a: int, b: int, a': int, b': int, order: nat)
    requires order > 0 && Same(a, a', order) && Same(b, b', order)
    ensures Same(a + b, a' + b', order) && Same(a - b, a' - b', order)
  {
    var p := SameDiff(a, a', order);
    var q := SameDiff(b, b', order);
    assert (p + q) * order == p * order + q * order && (p - q) * order == p * order - q * order;
    SameShift(a + b, a' + b', p + q, order);
    SameShift(a - b, a' - b', p - q, order);
  }

  // ---------------------------------------------------------------- cancellation

  /** The contribution filed for `k` is its message under its blinding, up to the field order. */
  predicate BlindedBy(c: Config, bucket: seq<Contribution>, m: Masks, msg: (Key, nat) -> int, k: Key, x: nat)
    requires c.order > 0
  {
    Same(FoundAt(bucket, k, x), msg(k, x) + Blinding(m, k, c.relays, x), c.order)
  }

  predicate SharedBy(c: Config, shares: map<nat, Vec>, m: Masks, ks: seq<Key>, j: nat, x: nat)
    requires c.order > 0
  {
    Same(ShareAt(shares, j, x), Unblinding(m, ks, j, x), c.order)
  }

  lemma {:induction false} ClientsSum(c: Config, bucket: seq<Contribution>, m: Masks, msg: (Key, nat) -> int, ks: seq<Key>, x: nat)
    requires c.order > 0 && forall i :: 0 <= i < |ks| ==> BlindedBy(c, bucket, m, msg, ks[i], x)
    ensures Same(SumClients(bucket, ks, x), SumMessages(msg, ks, x) + ByClient(m, ks, c.relays, x), c.order)
  {
    if ks != [] {
      var n := |ks| - 1;
      ClientsSum(c, bucket, m, msg, ks[..n], x);
      assert BlindedBy(c, bucket, m, msg, ks[n], x);
      SameSum(SumClients(bucket, ks[..n], x), FoundAt(bucket, ks[n], x),
              SumMessages(msg, ks[..n], x) + ByClient(m, ks[..n], c.relays, x), msg(ks[n], x) + Blinding(m, ks[n], c.relays, x), c.order);
    }
  }

  lemma {:induction false} SharesSum(c: Config, shares: map<nat, Vec>, m: Masks, ks: seq<Key>, n: nat, x: nat)
    requires c.order > 0 && forall j :: 0 <= j < n ==> SharedBy(c, shares, m, ks, j, x)
    ensures Same(SumShares(shares, n, x), ByRelay(m, ks, n, x), c.order)
  {
    if n > 0 {
      SharesSum(c, shares, m, ks, n - 1, x);
      assert SharedBy(c, shares, m, ks, n - 1, x);
      SameSum(SumShares(shares, n - 1, x), ShareAt(shares, n - 1, x), ByRelay(m, ks, n - 1, x), Unblinding(m, ks, n - 1, x), c.order);
    }
  }

  /** Shares are filed under roster slots only. */
  predicate Slotted(c: Config, l: Leader) {
    forall t, j :: t in l.shares && j in l.shares[t] ==> j < c.relays
  }

  lemma EverySlot(c: Config, l: Leader, t: nat)
    requires Slotted(c, l) && Combinable(c, l, t)
    ensures l.shares[t].Keys == Range(c.relays)
  {
    var slots := l.shares[t].Keys;
    SubsetSize(slots, Range(c.relays));
  }

  /** Members blind their messages with all relays, and every share filed unblinds the announced set. */
  ghost predicate WellBlinded(c: Config, l: Leader, t: nat, m: Masks, msg: (Key, nat) -> int)
    requires c.order > 0 && Combinable(c, l, t)
  {
    && (forall i, x :: 0 <= i < |l.sets[t]| && 0 <= x < c.width ==> BlindedBy(c, l.clients[t], m, msg, l.sets[t][i], x))
    && (forall j, x :: j in l.shares[t] && 0 <= x < c.width ==> SharedBy(c, l.shares[t], m, l.sets[t], j, x))
  }

  lemma CancelsAt(c: Config, l: Leader, t: nat, m: Masks, msg: (Key, nat) -> int, x: nat)
    requires c.order > 0 && Slotted(c, l) && Combinable(c, l, t) && WellBlinded(c, l, t, m, msg) && x < c.width
    ensures Combine(c, l, t)[x] == SumMessages(msg, l.sets[t], x) % c.order
  {
    EverySlot(c, l, t);
    var ks, shares := l.sets[t], l.shares[t];
    assert forall j :: 0 <= j < c.relays ==> j in shares;
    ClientsSum(c, l.clients[t], m, msg, ks, x);
    SharesSum(c, shares, m, ks, c.relays, x);
    Exchange(m, ks, c.relays, x);
    SameSum(SumClients(l.clients[t], ks, x), SumShares(shares, c.relays, x),
            SumMessages(msg, ks, x) + ByClient(m, ks, c.relays, x), ByRelay(m, ks, c.relays, x), c.order);
  }

  // ---------------------------------------------------------------- runs

  datatype Event =
    | Begins(round: nat)
    | Contributes(round: nat, x: Contribution, ok: bool, keyOk: bool)
    | Shares(round: nat, slot: Option<nat>, v: Vec)
    | Ends(own: nat -> Option<Vec>, accept: nat -> bool)

  /** The leader, every set it has announced, and every round it has combined. */
  datatype Ledger = Ledger(l: Leader, announced: map<nat, seq<Key>>, done: set<nat>)

  const Opening: Ledger := Ledger(NewLeader, map[], {})

  function Step(c: Config, h: Ledger, e: Event): Ledger {
    match e
    case Begins(round) => h.(l := Begin(h.l, round))
    case Contributes(round, x, ok, keyOk) => h.(l := TakeClient(c, h.l, round, x, ok, keyOk))
    case Shares(round, slot, v) => h.(l := TakeShare(c, h.l, round, slot, v))
    case Ends(own, accept) =>
      var (l, done) := End(c, h.l, h.l.cur, own, accept);
      Ledger(l, h.announced + l.sets, h.done + done)
  }

  function Run(c: Config, events: seq<Event>): Ledger {
    if events == [] then Opening else Step(c, Run(c, events[..|events| - 1]), events[|events| - 1])
  }

  /** Rounds begin in order and end while they are current. */
  predicate Ordered(c: Config, events: seq<Event>) {
    events == [] || (Ordered(c, events[..|events| - 1])
                     && (events[|events| - 1].Begins? ==> events[|events| - 1].round >= Run(c, events[..|events| - 1]).l.cur))
  }

  predicate OnePerSigner(bucket: seq<Contribution>) {
    forall i, j :: 0 <= i < j < |bucket| ==> bucket[i].signer != bucket[j].signer
  }

  /** What is announced stays announced and unchanged, until its round has passed. */
  predicate SetsStand(h: Ledger) {
    && (forall t :: t in h.l.sets ==> t in h.announced && h.announced[t] == h.l.sets[t] && t <= h.l.cur)
    && (forall t :: t in h.announced && t !in h.l.sets ==> t < h.l.cur)
  }

  /** A combined round is still marked, or is past and has no contributions left to combine. */
  predicate DoneStays(h: Ledger) {
    forall t :: t in h.done ==> (t in h.l.combined || t < h.l.cur) && (t !in h.l.combined ==> t !in h.l.clients)
  }

  ghost predicate Filed(l: Leader) {
    && (forall t :: t in l.clients ==> OnePerSigner(l.clients[t]))
    && (forall t :: t in l.sets ==> Ascending(l.sets[t]))
    && (forall t :: t in l.sets && t !in l.combined ==> t in l.clients && AllFound(l.clients[t], l.sets[t]))
  }

  ghost predicate Inv(c: Config, h: Ledger) {
    Slotted(c, h.l) && SetsStand(h) && DoneStays(h) && Filed(h.l)
  }

  lemma {:induction false} FindHolds(bucket: seq<Contribution>, k: Key)
    ensures Find(bucket, k).Some? <==> Holds(bucket, k)
  {
    if bucket != [] {
      FindHolds(bucket[1..], k);
      if Holds(bucket, k) && bucket[0].signer != k {
        var i :| 0 <= i < |bucket| && bucket[i].signer == k;
        assert bucket[1..][i - 1].signer == k;
      }
      if Holds(bucket[1..], k) {
        var i :| 0 <= i < |bucket| - 1 && bucket[1..][i].signer == k;
        assert bucket[i + 1].signer == k;
      }
    }
  }

  lemma FoundGrows(bucket: seq<Contribution>, x: Contribution, ks: seq<Key>)
    requires AllFound(bucket, ks)
    ensures AllFound(bucket + [x], ks)
  {
    forall i | 0 <= i < |ks| ensures Find(bucket + [x], ks[i]).Some? {
      FindHolds(bucket, ks[i]);
      FindHolds(bucket + [x], ks[i]);
      var j :| 0 <= j < |bucket| && bucket[j].signer == ks[i];
      assert (bucket + [x])[j].signer == ks[i];
    }
  }

  lemma BeginKeeps(c: Config, h: Ledger, round: nat)
    requires Inv(c, h) && round >= h.l.cur
    ensures Inv(c, Step(c, h, Begins(round)))
  {
  }

  lemma ContributeKeeps(c: Config, h: Ledger, round: nat, x: Contribution, ok: bool, keyOk: bool)
    requires Inv(c, h)
    ensures Inv(c, Step(c, h, Contributes(round, x, ok, keyOk)))
  {
    var t := TakeClient(c, h.l, round, x, ok, keyOk);
    if t != h.l {
      var bucket := BucketAt(h.l, round);
      if round in h.l.sets && round !in h.l.combined { FoundGrows(bucket, x, h.l.sets[round]); }
      assert OnePerSigner(bucket + [x]);
      assert Filed(t);
    }
  }

  lemma ShareKeeps(c: Config, h: Ledger, round: nat, slot: Option<nat>, v: Vec)
    requires Inv(c, h)
    ensures Inv(c, Step(c, h, Shares(round, slot, v)))
  {
  }

  lemma AnnounceKeeps(c: Config, h: Ledger)
    requires Inv(c, h)
    ensures Inv(c, h.(l := Announce(h.l, h.l.cur), announced := h.announced + Announce(h.l, h.l.cur).sets))
  {
    var l, r := h.l, h.l.cur;
    var a := Announce(l, r);
    if a != l && r !in l.sets {
      forall i | 0 <= i < |SetFor(l, r)| ensures Find(BucketAt(l, r), SetFor(l, r)[i]).Some? {
        FindHolds(BucketAt(l, r), SetFor(l, r)[i]);
        assert SetFor(l, r)[i] in SetFor(l, r);
        assert SetFor(l, r)[i] in Signers(BucketAt(l, r));
      }
      assert Filed(a);
    }
  }

  lemma ShareOwnKeeps(c: Config, h: Ledger, own: nat -> Option<Vec>)
    requires Inv(c, h) && c.me < c.relays
    ensures Inv(c, h.(l := ShareOwn(c, h.l, own)))
  {
  }

  lemma FinishKeeps(c: Config, h: Ledger, accept: nat -> bool)
    requires Inv(c, h)
    ensures var done := CombinedNow(c, h.l, accept);
      Inv(c, h.(l := Finish(h.l, done), done := h.done + done)) && done !! h.done
  {
  }

  lemma EndKeeps(c: Config, h: Ledger, own: nat -> Option<Vec>, accept: nat -> bool)
    requires Inv(c, h) && c.me < c.relays
    ensures Inv(c, Step(c, h, Ends(own, accept)))
    ensures End(c, h.l, h.l.cur, own, accept).1 !! h.done
    ensures Inv(c, h.(l := BeforeCombine(c, h.l, h.l.cur, own), announced := h.announced + BeforeCombine(c, h.l, h.l.cur, own).sets))
  {
    var a := h.(l := Announce(h.l, h.l.cur), announced := h.announced + Announce(h.l, h.l.cur).sets);
    AnnounceKeeps(c, h);
    var s := a.(l := ShareOwn(c, a.l, own));
    ShareOwnKeeps(c, a, own);
    FinishKeeps(c, s, accept);
    assert End(c, h.l, h.l.cur, own, accept).0.sets == s.l.sets;
  }

  lemma {:induction false} RunKeeps(c: Config, events: seq<Event>)
    requires Ordered(c, events) && c.me < c.relays
    ensures Inv(c, Run(c, events))
  {
    if events != [] {
      RunKeeps(c, events[..|events| - 1]);
      var h := Run(c, events[..|events| - 1]);
      match events[|events| - 1]
      case Begins(round) => BeginKeeps(c, h, round);
      case Contributes(round, x, ok, keyOk) => ContributeKeeps(c, h, round, x, ok, keyOk);
      case Shares(round, slot, v) => ShareKeeps(c, h, round, slot, v);
      case Ends(own, accept) => EndKeeps(c, h, own, accept);
    }
  }

  // ---------------------------------------------------------------- honest clients and relays

  /** What members and relays share in each round, and what members send in it. */
  datatype World = World(masks: nat -> Masks, messages: nat -> (Key, nat) -> int)

  /** The client blinds its message of round `t` with every relay. */
  ghost predicate ClientOk(c: Config, t: nat, x: Contribution, w: World)
    requires c.order > 0
  {
    forall i :: 0 <= i < c.width ==>
      Same(At(x.blinded, i), w.messages(t)(x.signer, i) + Blinding(w.masks(t), x.signer, c.relays, i), c.order)
  }

  /** Relay `j` unblinds the members `ks` of round `t`. */
  ghost predicate RelayOk(c: Config, t: nat, ks: seq<Key>, j: nat, v: Vec, w: World)
    requires c.order > 0
  {
    forall i :: 0 <= i < c.width ==> Same(At(v, i), Unblinding(w.masks(t), ks, j, i), c.order)
  }

  /** Clients blind; relays, the leader's own included, share over the set announced for the round. */
  ghost predicate Honest(c: Config, h: Ledger, e: Event, w: World)
    requires c.order > 0
  {
    match e
    case Begins(_) => true
    case Contributes(t, x, ok, _) => ok ==> ClientOk(c, t, x, w)
    case Shares(t, slot, v) => slot.Some? && slot.value < c.relays ==> t in h.announced && RelayOk(c, t, h.announced[t], slot.value, v, w)
    case Ends(own, _) =>
      var sets := Announce(h.l, h.l.cur).sets;
      forall t :: t in sets && own(t).Some? ==> RelayOk(c, t, sets[t], c.me, own(t).value, w)
  }

  ghost predicate HonestRun(c: Config, events: seq<Event>, w: World)
    requires c.order > 0
  {
    events == [] || (HonestRun(c, events[..|events| - 1], w) && Honest(c, Run(c, events[..|events| - 1]), events[|events| - 1], w))
  }

  /** All that is filed was honestly made, and every share over the one set of its round. */
  ghost predicate Kept(c: Config, h: Ledger, w: World)
    requires c.order > 0
  {
    && (forall t, i :: t in h.l.clients && 0 <= i < |h.l.clients[t]| ==> ClientOk(c, t, h.l.clients[t][i], w))
    && (forall t, j :: t in h.l.shares && j in h.l.shares[t] ==> ShareKept(c, h, t, j, w))
  }

  ghost predicate ShareKept(c: Config, h: Ledger, t: nat, j: nat, w: World)
    requires c.order > 0 && t in h.l.shares && j in h.l.shares[t]
  {
    t in h.announced && RelayOk(c, t, h.announced[t], j, h.l.shares[t][j], w)
  }

  lemma BeginKept(c: Config, h: Ledger, round: nat, w: World)
    requires c.order > 0 && Kept(c, h, w)
    ensures Kept(c, Step(c, h, Begins(round)), w)
  {
    var u := Step(c, h, Begins(round));
    forall t, j | t in u.l.shares && j in u.l.shares[t] ensures ShareKept(c, u, t, j, w) {
      assert ShareKept(c, h, t, j, w);
    }
  }

  lemma ContributeKept(c: Config, h: Ledger, t: nat, x: Contribution, ok: bool, keyOk: bool, w: World)
    requires c.order > 0 && Kept(c, h, w) && Honest(c, h, Contributes(t, x, ok, keyOk), w)
    ensures Kept(c, Step(c, h, Contributes(t, x, ok, keyOk)), w)
  {
    var u := Step(c, h, Contributes(t, x, ok, keyOk));
    forall r, j | r in u.l.shares && j in u.l.shares[r] ensures ShareKept(c, u, r, j, w) {
      assert ShareKept(c, h, r, j, w);
    }
  }

  lemma ShareIsKept(c: Config, h: Ledger, t: nat, slot: Option<nat>, v: Vec, w: World)
    requires c.order > 0 && Kept(c, h, w) && Honest(c, h, Shares(t, slot, v), w)
    ensures Kept(c, Step(c, h, Shares(t, slot, v)), w)
  {
    var u := Step(c, h, Shares(t, slot, v));
    forall r, j | r in u.l.shares && j in u.l.shares[r] ensures ShareKept(c, u, r, j, w) {
      if r in h.l.shares && j in h.l.shares[r] { assert ShareKept(c, h, r, j, w); }
    }
  }

  /** Announcing changes no set announced before, so earlier shares stay good. */
  lemma AnnounceKept(c: Config, h: Ledger, w: World)
    requires c.order > 0 && Kept(c, h, w) && SetsStand(h)
    ensures var l := Announce(h.l, h.l.cur); Kept(c, h.(l := l, announced := h.announced + l.sets), w)
  {
    var l := Announce(h.l, h.l.cur);
    var u := h.(l := l, announced := h.announced + l.sets);
    forall r, j | r in u.l.shares && j in u.l.shares[r] ensures ShareKept(c, u, r, j, w) {
      assert ShareKept(c, h, r, j, w);
      assert u.announced[r] == h.announced[r];
    }
  }

  lemma OwnKept(c: Config, h: Ledger, own: nat -> Option<Vec>, w: World)
    requires c.order > 0 && Kept(c, h, w) && SetsStand(h)
    requires forall t :: t in h.l.sets && own(t).Some? ==> RelayOk(c, t, h.l.sets[t], c.me, own(t).value, w)
    ensures Kept(c, h.(l := ShareOwn(c, h.l, own)), w)
  {
    var u := h.(l := ShareOwn(c, h.l, own));
    forall r, j | r in u.l.shares && j in u.l.shares[r] ensures ShareKept(c, u, r, j, w) {
      if r in h.l.shares && j in h.l.shares[r] { assert ShareKept(c, h, r, j, w); }
    }
  }

  lemma BeforeCombineKept(c: Config, h: Ledger, own: nat -> Option<Vec>, accept: nat -> bool, w: World)
    requires c.order > 0 && c.me < c.relays && Inv(c, h) && Kept(c, h, w) && Honest(c, h, Ends(own, accept), w)
    ensures var l := BeforeCombine(c, h.l, h.l.cur, own); Kept(c, h.(l := l, announced := h.announced + l.sets), w)
  {
    AnnounceKeeps(c, h);
    AnnounceKept(c, h, w);
    var a := h.(l := Announce(h.l, h.l.cur), announced := h.announced + Announce(h.l, h.l.cur).sets);
    OwnKept(c, a, own, w);
  }

  lemma FinishKept(c: Config, h: Ledger, done: set<nat>, marks: set<nat>, w: World)
    requires c.order > 0 && Kept(c, h, w)
    ensures Kept(c, h.(l := Finish(h.l, done), done := marks), w)
  {
    var u := h.(l := Finish(h.l, done), done := marks);
    forall r, j | r in u.l.shares && j in u.l.shares[r] ensures ShareKept(c, u, r, j, w) {
      assert ShareKept(c, h, r, j, w);
    }
  }

  lemma EndKept(c: Config, h: Ledger, own: nat -> Option<Vec>, accept: nat -> bool, w: World)
    requires c.order > 0 && c.me < c.relays && Inv(c, h) && Kept(c, h, w) && Honest(c, h, Ends(own, accept), w)
    ensures Kept(c, Step(c, h, Ends(own, accept)), w)
  {
    BeforeCombineKept(c, h, own, accept, w);
    var l := BeforeCombine(c, h.l, h.l.cur, own);
    var done := CombinedNow(c, l, accept);
    FinishKept(c, h.(l := l, announced := h.announced + l.sets), done, h.done + done, w);
  }

  lemma StepKept(c: Config, h: Ledger, e: Event, w: World)
    requires c.order > 0 && c.me < c.relays && Inv(c, h) && Kept(c, h, w) && Honest(c, h, e, w)
    ensures Kept(c, Step(c, h, e), w)
  {
    match e
    case Begins(round) => BeginKept(c, h, round, w);
    case Contributes(t, x, ok, keyOk) => ContributeKept(c, h, t, x, ok, keyOk, w);
    case Shares(t, slot, v) => ShareIsKept(c, h, t, slot, v, w);
    case Ends(own, accept) => EndKept(c, h, own, accept, w);
  }

  lemma {:induction false} RunKept(c: Config, events: seq<Event>, w: World)
    requires c.order > 0 && Ordered(c, events) && c.me < c.relays && HonestRun(c, events, w)
    ensures Kept(c, Run(c, events), w)
  {
    if events != [] {
      RunKeeps(c, events[..|events| - 1]);
      RunKept(c, events[..|events| - 1], w);
      StepKept(c, Run(c, events[..|events| - 1]), events[|events| - 1], w);
    }
  }

  lemma {:induction false} FindIs(bucket: seq<Contribution>, k: Key) returns (i: nat)
    requires Find(bucket, k).Some?
    ensures i < |bucket| && bucket[i].signer == k && Find(bucket, k) == Some(bucket[i].blinded)
  {
    if bucket[0].signer == k { i := 0; } else { i := FindIs(bucket[1..], k); i := i + 1; }
  }

  lemma KeptClient(c: Config, h: Ledger, t: nat, k: Key, x: nat, w: World)
    requires c.order > 0 && Kept(c, h, w) && t in h.l.clients && Find(h.l.clients[t], k).Some? && x < c.width
    ensures BlindedBy(c, h.l.clients[t], w.masks(t), w.messages(t), k, x)
  {
    var i := FindIs(h.l.clients[t], k);
    assert ClientOk(c, t, h.l.clients[t][i], w);
  }

  lemma KeptIsBlinded(c: Config, h: Ledger, t: nat, w: World)
    requires c.order > 0 && Kept(c, h, w) && Combinable(c, h.l, t) && t in h.announced && h.announced[t] == h.l.sets[t]
    ensures WellBlinded(c, h.l, t, w.masks(t), w.messages(t))
  {
    forall i, x | 0 <= i < |h.l.sets[t]| && 0 <= x < c.width
      ensures BlindedBy(c, h.l.clients[t], w.masks(t), w.messages(t), h.l.sets[t][i], x)
    {
      KeptClient(c, h, t, h.l.sets[t][i], x, w);
    }
    forall j, x | j in h.l.shares[t] && 0 <= x < c.width ensures SharedBy(c, h.l.shares[t], w.masks(t), h.l.sets[t], j, x) {
      assert ShareKept(c, h, t, j, w);
    }
  }

  // ---------------------------------------------------------------- main results

  /** Where the round is about to be combined. */
  function AtCombine(c: Config, h: Ledger, own: nat -> Option<Vec>): Leader { BeforeCombine(c, h.l, h.l.cur, own) }

  /**
   * In every run of honest clients and relays, a round the leader combines yields the sum of
   * the announced members' messages, each member once: the masks cancel.
   */
  lemma CombinedIsTheSum(c: Config, events: seq<Event>, own: nat -> Option<Vec>, accept: nat -> bool, t: nat, w: World, x: nat)
    requires Ordered(c, events) && c.me < c.relays && c.order > 0 && x < c.width
    requires HonestRun(c, events, w) && Honest(c, Run(c, events), Ends(own, accept), w)
    requires t in CombinedNow(c, AtCombine(c, Run(c, events), own), accept)
    ensures var l := AtCombine(c, Run(c, events), own);
      Combine(c, l, t)[x] == SumMessages(w.messages(t), l.sets[t], x) % c.order && Ascending(l.sets[t])
  {
    RunKeeps(c, events);
    EndKeeps(c, Run(c, events), own, accept);
    RunKept(c, events, w);
    BeforeCombineKept(c, Run(c, events), own, accept, w);
    var h := Run(c, events);
    var l := AtCombine(c, h, own);
    KeptIsBlinded(c, h.(l := l, announced := h.announced + l.sets), t, w);
    CancelsAt(c, l, t, w.masks(t), w.messages(t), x);
  }

  /** No round is combined twice, although the marks of old rounds are pruned. */
  lemma CombinedOnce(c: Config, events: seq<Event>, own: nat -> Option<Vec>, accept: nat -> bool)
    requires Ordered(c, events) && c.me < c.relays
    ensures CombinedNow(c, AtCombine(c, Run(c, events), own), accept) !! Run(c, events).done
  {
    RunKeeps(c, events);
    EndKeeps(c, Run(c, events), own, accept);
  }

  /** A round's client set is announced once: what relays share over is what the leader combines over. */
  lemma OneSetPerRound(c: Config, events: seq<Event>, own: nat -> Option<Vec>, t: nat)
    requires Ordered(c, events) && c.me < c.relays && t in Run(c, events).announced
    ensures var l := AtCombine(c, Run(c, events), own);
      t in l.sets ==> l.sets[t] == Run(c, events).announced[t]
  {
    RunKeeps(c, events);
  }

  /** An announced round never wants for a member's contribution: only missing shares or the floor hold it back. */
  lemma MembersNeverMissing(c: Config, events: seq<Event>, own: nat -> Option<Vec>, t: nat)
    requires Ordered(c, events) && c.me < c.relays
    ensures var l := AtCombine(c, Run(c, events), own);
      Combinable(c, l, t) <==>
        t in l.sets && t !in l.combined && |l.sets[t]| >= c.minClients
        && t in l.shares && l.shares[t].Keys == Range(c.relays)
  {
    RunKeeps(c, events);
    EndKeeps(c, Run(c, events), own, x => false);
    var l := AtCombine(c, Run(c, events), own);
    if Combinable(c, l, t) { EverySlot(c, l, t); }
  }
}
