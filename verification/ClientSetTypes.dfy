/** The entities of consensus client-set selection, and what they are signed under. */
module ClientSetTypes {
  import opened Basics

  /** A ring element, as its vector of NTT slots. */
  datatype Poly = Poly(slots: seq<nat>)

  type Share = seq<Poly>

  /** One lane's opening of a client's share commitment. */
  datatype Path = Path(laneIndex: nat, digits: Bytes)

  /** What client `client` sends lane `lane`. */
  datatype Bundle = Bundle(
    client: nat, lane: nat, share: Share, path: Path, envelope: Bytes, pubkey: Bytes, sig: Bytes)

  /** A lane's record that it holds `client`'s bundle, under boot key `key`. */
  datatype Receipt = Receipt(client: nat, key: Bytes, bundleHash: Bytes)

  datatype Batch = Batch(server: nat, receipts: seq<Receipt>, sig: Bytes)

  datatype Fragment = Fragment(client: nat, idx: nat, data: Share, sig: Bytes)

  datatype Item = BatchItem(batch: Batch) | FragmentItem(fragment: Fragment)

  /** An item with its Dolev-Strong signature chain. */
  datatype Relay = Relay(item: Item, chain: seq<(nat, Bytes)>)

  /** What an item's hash binds: everything but its signature. SHA-256 is injective here. */
  datatype ItemId =
    | BatchId(server: nat, receipts: seq<Receipt>)
    | FragmentId(client: nat, idx: nat, data: Share)

  function IdOf(item: Item): ItemId {
    match item
    case BatchItem(b) => BatchId(b.server, b.receipts)
    case FragmentItem(f) => FragmentId(f.client, f.idx, f.data)
  }

  /** The signed statements; the four domain strings make them distinct. */
  datatype Msg =
    | BundleMsg(client: nat, lane: nat, share: Share, path: Path, envelope: Bytes)
    | BatchMsg(server: nat, receipts: seq<Receipt>)
    | FragmentMsg(client: nat, idx: nat, data: Share)
    | RelayMsg(id: ItemId)

  /** The round's geometry (`n` lanes, any `k` of which decode) and its signature scheme.
      Servers are named by lane; client keys are byte strings that may fail to parse. */
  datatype Scheme = Scheme(
    n: nat, k: nat,
    serverSign: (nat, Msg) -> Bytes,
    serverVerify: (nat, Msg, Bytes) -> bool,
    clientSign: (Bytes, Msg) -> Bytes,
    clientVerify: (Bytes, Msg, Bytes) -> bool,
    bundleHash: Bundle -> Bytes)

  ghost predicate Sound(sch: Scheme) {
    && 1 <= sch.k <= sch.n
    && (forall j: nat, m: Msg :: sch.serverVerify(j, m, sch.serverSign(j, m)))
  }

  function RelayRounds(sch: Scheme): nat {
    SatSub(sch.n, sch.k) + 1
  }

  predicate BundleValid(sch: Scheme, b: Bundle) {
    && b.lane < sch.n
    && b.path.laneIndex == b.lane
    && sch.clientVerify(b.pubkey, BundleMsg(b.client, b.lane, b.share, b.path, b.envelope), b.sig)
  }

  predicate BatchValid(sch: Scheme, b: Batch) {
    b.server < sch.n && sch.serverVerify(b.server, BatchMsg(b.server, b.receipts), b.sig)
  }

  predicate FragmentSigned(sch: Scheme, key: Bytes, f: Fragment) {
    sch.clientVerify(key, FragmentMsg(f.client, f.idx, f.data), f.sig)
  }
}
