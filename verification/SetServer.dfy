/** One server's round state and the steps that change it: the specification functions the
    methods of `SetServer` are proved against. */
module SetServers {
  import opened Basics
  import opened ClientSetTypes

  const MAX_BUNDLES := 4

  datatype Server = Server(
    id: nat,
    relaying: bool,
    accepted: set<ItemId>,
    held: map<nat, map<Bytes, Bundle>>,
    batches: map<nat, Batch>,
    fragments: map<nat, map<nat, Fragment>>,
    bulletins: map<nat, set<Bytes>>)

  function NewServer(id: nat): Server {
    Server(id, false, {}, map[], map[], map[], map[])
  }

  // ---------------------------------------------------------------- client-direct input

  function NoteBulletin(s: Server, client: nat, key: Bytes): Server {
    var seen := if client in s.bulletins then s.bulletins[client] else {};
    s.(bulletins := s.bulletins[client := seen + {key}])
  }

  /** The one boot key `client` posted; two are a reboot, none is a stranger. */
  function ReportedKey(bulletins: map<nat, set<Bytes>>, client: nat): Option<Bytes> {
    if client in bulletins && |bulletins[client]| == 1 then Some(TheElement(bulletins[client])) else None
  }

  function Receive(sch: Scheme, s: Server, b: Bundle): (Server, bool) {
    if s.relaying || b.lane != s.id || !BundleValid(sch, b) then (s, false)
    else
      var hash := sch.bundleHash(b);
      var held := if b.client in s.held then s.held[b.client] else map[];
      if |held| >= MAX_BUNDLES && hash !in held then (s, false)
      else (s.(held := s.held[b.client := held[hash := b]]), true)
  }

  function ReceiptsFor(held: map<nat, map<Bytes, Bundle>>, clients: seq<nat>): seq<Receipt>
    requires forall c :: c in clients ==> c in held
  {
    if clients == [] then []
    else
      var bundles := held[clients[0]];
      var rest := ReceiptsFor(held, clients[1..]);
      if bundles == map[] then rest
      else
        var hash := LexLeast(bundles.Keys);
        [Receipt(clients[0], bundles[hash].pubkey, hash)] + rest
  }

  /** This lane's row: for each client in id order, the first bundle held. */
  function Receipts(held: map<nat, map<Bytes, Bundle>>): seq<Receipt> {
    ReceiptsFor(held, Sorted(held.Keys))
  }

  function BatchOf(sch: Scheme, s: Server): Batch {
    var receipts := Receipts(s.held);
    Batch(s.id, receipts, sch.serverSign(s.id, BatchMsg(s.id, receipts)))
  }

  // ---------------------------------------------------------------- accepting items

  function AcceptBatch(sch: Scheme, s: Server, b: Batch): (Server, bool) {
    if !BatchValid(sch, b) then (s, false)
    else if b.server in s.batches then (s, true)
    else (s.(batches := s.batches[b.server := b]), true)
  }

  predicate HoldsFragment(s: Server, client: nat, idx: nat) {
    client in s.fragments && idx in s.fragments[client]
  }

  /** A fragment this server would store: an index of its own lanes not yet held, signed
      under the key the client posted. */
  predicate Storable(sch: Scheme, s: Server, f: Fragment) {
    && f.idx < sch.n
    && !HoldsFragment(s, f.client, f.idx)
    && ReportedKey(s.bulletins, f.client).Some?
    && FragmentSigned(sch, ReportedKey(s.bulletins, f.client).value, f)
  }

  function PutFragment(s: Server, f: Fragment): Server {
    var held := if f.client in s.fragments then s.fragments[f.client] else map[];
    s.(fragments := s.fragments[f.client := held[f.idx := f]])
  }

  /** Stores a vetted fragment; `true` when it is news to this server. A fragment under an
      index already taken still overwrites the stored copy. */
  function StoreOne(s: Server, f: Fragment): (Server, bool) {
    var id := IdOf(FragmentItem(f));
    var novel := !HoldsFragment(s, f.client, f.idx) && id !in s.accepted;
    var s1 := PutFragment(s, f);
    (if novel then s1.(accepted := s1.accepted + {id}) else s1, novel)
  }

  /** Stores vetted fragments in order; returns the new ones. */
  function StoreFragments(s: Server, vetted: seq<Fragment>): (Server, seq<Fragment>)
    decreases |vetted|
  {
    if vetted == [] then (s, [])
    else
      var n := |vetted| - 1;
      var (s1, out1) := StoreFragments(s, vetted[..n]);
      var (s2, novel) := StoreOne(s1, vetted[n]);
      (s2, if novel then out1 + [vetted[n]] else out1)
  }

  function Vetted(sch: Scheme, s: Server, fs: seq<Fragment>): (r: seq<Fragment>)
    ensures forall f :: f in r <==> f in fs && Storable(sch, s, f)
  {
    if fs == [] then []
    else
      assert forall f :: f in fs <==> f == fs[0] || f in fs[1..];
      (if Storable(sch, s, fs[0]) then [fs[0]] else []) + Vetted(sch, s, fs[1..])
  }

  function AcceptFragments(sch: Scheme, s: Server, fs: seq<Fragment>): (Server, seq<Fragment>) {
    StoreFragments(s, Vetted(sch, s, fs))
  }

  // ---------------------------------------------------------------- signing and forwarding

  function ChainEntry(sch: Scheme, id: nat, item: ItemId): (nat, Bytes) {
    (id, sch.serverSign(id, RelayMsg(item)))
  }

  function FirstRelay(sch: Scheme, id: nat, item: Item): Relay {
    Relay(item, [ChainEntry(sch, id, IdOf(item))])
  }

  function FirstRelays(sch: Scheme, id: nat, items: seq<Item>): (r: seq<Relay>)
    ensures |r| == |items|
    ensures forall i :: 0 <= i < |items| ==> r[i] == FirstRelay(sch, id, items[i])
  {
    seq(|items|, i requires 0 <= i < |items| => FirstRelay(sch, id, items[i]))
  }

  function FragmentItems(fs: seq<Fragment>): (r: seq<Item>)
    ensures |r| == |fs|
    ensures forall i :: 0 <= i < |fs| ==> r[i] == FragmentItem(fs[i])
  {
    seq(|fs|, i requires 0 <= i < |fs| => FragmentItem(fs[i]))
  }

  function Submit(sch: Scheme, s: Server, fs: seq<Fragment>): (Server, seq<Relay>) {
    var (s', novel) := AcceptFragments(sch, s, fs);
    (s', FirstRelays(sch, s.id, FragmentItems(novel)))
  }

  function FragmentsOfClient(held: map<nat, Fragment>, idxs: seq<nat>): (r: seq<Fragment>)
    requires forall i :: i in idxs ==> i in held
    ensures forall f :: f in r <==> exists i :: i in idxs && held[i] == f
  {
    if idxs == [] then []
    else
      assert forall i :: i in idxs <==> i == idxs[0] || i in idxs[1..];
      [held[idxs[0]]] + FragmentsOfClient(held, idxs[1..])
  }

  function FragmentsOf(fragments: map<nat, map<nat, Fragment>>, clients: seq<nat>): (r: seq<Fragment>)
    requires forall c :: c in clients ==> c in fragments
    ensures forall f :: f in r <==> exists c, i :: c in clients && i in fragments[c] && fragments[c][i] == f
  {
    if clients == [] then []
    else
      var c := clients[0];
      assert forall x :: x in clients <==> x == c || x in clients[1..];
      FragmentsOfClient(fragments[c], Sorted(fragments[c].Keys)) + FragmentsOf(fragments, clients[1..])
  }

  /** Items in the order `originate` lists them: its own row, then every stored fragment. */
  function OriginateItems(sch: Scheme, s: Server): seq<Item> {
    [BatchItem(BatchOf(sch, s))] + FragmentItems(FragmentsOf(s.fragments, Sorted(s.fragments.Keys)))
  }

  function Ids(items: seq<Item>): (r: set<ItemId>)
    ensures forall i :: 0 <= i < |items| ==> IdOf(items[i]) in r
    ensures forall id :: id in r ==> exists i :: 0 <= i < |items| && id == IdOf(items[i])
  {
    if items == [] then {} else Ids(items[..|items| - 1]) + {IdOf(items[|items| - 1])}
  }

  function Originate(sch: Scheme, s: Server): (Server, seq<Relay>) {
    var items := OriginateItems(sch, s);
    (s.(relaying := true,
        batches := s.batches[s.id := BatchOf(sch, s)],
        accepted := s.accepted + Ids(items)),
     FirstRelays(sch, s.id, items))
  }

  /** The servers whose valid signature on `id` a chain holds. */
  function Signers(sch: Scheme, id: ItemId, chain: seq<(nat, Bytes)>): set<nat> {
    set e | e in chain && e.0 < sch.n && sch.serverVerify(e.0, RelayMsg(id), e.1) :: e.0
  }

  function WithoutSelf(chain: seq<(nat, Bytes)>, me: nat): (r: seq<(nat, Bytes)>)
    ensures forall e :: e in r <==> e in chain && e.0 != me
  {
    if chain == [] then []
    else
      assert forall e :: e in chain <==> e == chain[0] || e in chain[1..];
      (if chain[0].0 != me then [chain[0]] else []) + WithoutSelf(chain[1..], me)
  }

  function Extend(sch: Scheme, me: nat, r: Relay): Relay {
    Relay(r.item, WithoutSelf(r.chain, me) + [ChainEntry(sch, me, IdOf(r.item))])
  }

  /** Accepting an item whose chain is long enough; rejection changes nothing. */
  function Take(sch: Scheme, s: Server, item: Item): Server {
    match item
    case BatchItem(b) =>
      var (s', ok) := AcceptBatch(sch, s, b);
      if ok then s'.(accepted := s'.accepted + {IdOf(item)}) else s'
    case FragmentItem(f) => AcceptFragments(sch, s, [f]).0
  }

  function AbsorbOne(sch: Scheme, s: Server, round: nat, r: Relay): (Server, seq<Relay>) {
    var id := IdOf(r.item);
    if id in s.accepted || |Signers(sch, id, r.chain)| < round then (s, [])
    else
      var s' := Take(sch, s, r.item);
      (s', if id in s'.accepted then [Extend(sch, s.id, r)] else [])
  }

  function AbsorbAll(sch: Scheme, s: Server, round: nat, rs: seq<Relay>): (Server, seq<Relay>)
    decreases |rs|
  {
    if rs == [] then (s, [])
    else
      var (s1, out1) := AbsorbAll(sch, s, round, rs[..|rs| - 1]);
      var (s2, out2) := AbsorbOne(sch, s1, round, rs[|rs| - 1]);
      (s2, out1 + out2)
  }

  function Picked(rs: seq<Relay>, batches: bool): (r: seq<Relay>)
    ensures forall x :: x in r <==> x in rs && x.item.BatchItem? == batches
  {
    if rs == [] then []
    else
      assert forall x :: x in rs <==> x == rs[0] || x in rs[1..];
      (if rs[0].item.BatchItem? == batches then [rs[0]] else []) + Picked(rs[1..], batches)
  }

  /** One Dolev-Strong round: receipt batches ahead of fragments. */
  function Absorb(sch: Scheme, s: Server, round: nat, incoming: seq<Relay>): (Server, seq<Relay>) {
    AbsorbAll(sch, s, round, Picked(incoming, true) + Picked(incoming, false))
  }
}
