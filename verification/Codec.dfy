/** The wire forms of bundles, receipt batches, fragments and relays. */
module Codec {
  import opened Basics
  import opened ClientSetTypes

  const U32 := 0x1_0000_0000
  const HASH_LEN := 32

  // ---------------------------------------------------------------- integers

  /** The low `w` bytes of `v`, least significant first. */
  function LE(v: nat, w: nat): (b: Bytes)
    ensures |b| == w
    decreases w, v
  {
    if w == 0 then [] else [v % 256] + LE(v / 256, w - 1)
  }

  function FromLE(b: Bytes): nat {
    if b == [] then 0 else b[0] + 256 * FromLE(b[1..])
  }

  function Pow256(w: nat): nat {
    if w == 0 then 1 else 256 * Pow256(w - 1)
  }

  lemma {:induction false} FromLEBound(b: Bytes)
    ensures FromLE(b) < Pow256(|b|)
  {
    if b != [] { FromLEBound(b[1..]); }
  }

  lemma {:induction false} LEFromLE(b: Bytes)
    ensures LE(FromLE(b), |b|) == b
  {
    if b != [] {
      LEFromLE(b[1..]);
      assert FromLE(b) % 256 == b[0] && FromLE(b) / 256 == FromLE(b[1..]);
      assert b == [b[0]] + b[1..];
    }
  }

  lemma {:induction false} FromLELE(v: nat, w: nat)
    requires v < Pow256(w)
    ensures FromLE(LE(v, w)) == v
    decreases w
  {
    if w > 0 {
      FromLELE(v / 256, w - 1);
      assert LE(v, w)[1..] == LE(v / 256, w - 1);
    }
  }

  lemma Word32()
    ensures Pow256(4) == U32
  {
    assert Pow256(1) == 256 && Pow256(2) == 65536 && Pow256(3) == 16777216;
  }

  /** A `u32` on the wire. */
  function Word(v: nat): Bytes { LE(v, 4) }

  lemma WordOf(v: nat)
    requires v < U32
    ensures FromLE(Word(v)) == v
  {
    Word32();
    FromLELE(v, 4);
  }

  lemma WordBack(b: Bytes)
    requires |b| == 4
    ensures FromLE(b) < U32 && Word(FromLE(b)) == b
  {
    Word32();
    FromLEBound(b);
    LEFromLE(b);
  }

  // ---------------------------------------------------------------- what the upstream crate packs

  /** Fixed field widths, and the upstream packings of ring elements and opening paths. */
  datatype Geometry = Geometry(
    pubkeyLen: nat, sigLen: nat, polyLen: nat, blockLen: nat, pathLen: nat,
    packPoly: Poly -> Bytes,
    unpackPoly: Bytes -> Option<Poly>,
    packPath: Path -> Option<Bytes>,
    unpackPath: (nat, Bytes) -> Option<Path>)

  /** A ring element the packing represents. */
  ghost predicate PolyFits(g: Geometry, p: Poly) {
    |g.packPoly(p)| == g.polyLen && g.unpackPoly(g.packPoly(p)) == Some(p)
  }

  ghost predicate PolyCanonical(g: Geometry, b: Bytes) {
    g.unpackPoly(b).Some? ==> |b| == g.polyLen && g.packPoly(g.unpackPoly(b).value) == b
  }

  ghost predicate PathFits(g: Geometry, p: Path) {
    g.packPath(p).Some? ==>
      |g.packPath(p).value| == g.pathLen && g.unpackPath(p.laneIndex, g.packPath(p).value) == Some(p)
  }

  /** The upstream contract: packings are fixed-width and canonical. */
  ghost predicate Packs(g: Geometry) {
    && g.polyLen > 0
    && (forall b: Bytes :: PolyCanonical(g, b))
    && (forall p: Path :: PathFits(g, p))
  }

  function PackShare(g: Geometry, s: Share): Bytes {
    if s == [] then [] else g.packPoly(s[0]) + PackShare(g, s[1..])
  }

  function UnpackShare(g: Geometry, b: Bytes, n: nat): Option<Share>
    decreases n
  {
    if n == 0 then (if b == [] then Some([]) else None)
    else if |b| < g.polyLen then None
    else
      var head := g.unpackPoly(b[..g.polyLen]);
      var rest := UnpackShare(g, b[g.polyLen..], n - 1);
      if head.Some? && rest.Some? then Some([head.value] + rest.value) else None
  }

  ghost predicate ShareFits(g: Geometry, s: Share) {
    forall i :: 0 <= i < |s| ==> PolyFits(g, s[i])
  }

  lemma PackShareCons(g: Geometry, s: Share)
    requires s != [] && PolyFits(g, s[0])
    requires UnpackShare(g, PackShare(g, s[1..]), |s| - 1) == Some(s[1..])
    ensures UnpackShare(g, PackShare(g, s), |s|) == Some(s)
  {
    var b := PackShare(g, s);
    assert b[..g.polyLen] == g.packPoly(s[0]);
    assert b[g.polyLen..] == PackShare(g, s[1..]);
    assert [s[0]] + s[1..] == s;
  }

  lemma {:induction false} PackShareUnpack(g: Geometry, s: Share)
    requires Packs(g) && ShareFits(g, s)
    ensures |PackShare(g, s)| == |s| * g.polyLen
    ensures UnpackShare(g, PackShare(g, s), |s|) == Some(s)
  {
    if s != [] {
      PackShareUnpack(g, s[1..]);
      assert PolyFits(g, s[0]);
      MulStep(|s| - 1, |s|, g.polyLen);
      PackShareCons(g, s);
    }
  }

  lemma {:induction false} UnpackSharePack(g: Geometry, b: Bytes, n: nat)
    requires Packs(g) && UnpackShare(g, b, n).Some?
    ensures var s := UnpackShare(g, b, n).value;
            |s| == n && ShareFits(g, s) && PackShare(g, s) == b
    decreases n
  {
    if n > 0 {
      UnpackSharePack(g, b[g.polyLen..], n - 1);
      assert PolyCanonical(g, b[..g.polyLen]);
      var s := UnpackShare(g, b, n).value;
      var rest := UnpackShare(g, b[g.polyLen..], n - 1).value;
      assert s[1..] == rest;
      assert PolyFits(g, s[0]);
      forall i | 0 <= i < |s| ensures PolyFits(g, s[i]) {
        if i > 0 { assert s[i] == rest[i - 1]; }
      }
      assert b == b[..g.polyLen] + b[g.polyLen..];
    }
  }

  /** `bytes.get(at..at + len)`, when it is there. */
  lemma Cut(a: Bytes, b: Bytes, rest: Bytes)
    ensures (a + b + rest)[|a|..|a| + |b|] == b
    ensures (a + b + rest)[|a| + |b|..] == rest
  {
  }

  // ---------------------------------------------------------------- receipts and batches

  ghost predicate ReceiptFits(g: Geometry, r: Receipt) {
    r.client < U32 && |r.key| == g.pubkeyLen && |r.bundleHash| == HASH_LEN
  }

  function ReceiptLen(g: Geometry): nat { 4 + g.pubkeyLen + HASH_LEN }

  function PackReceipt(r: Receipt): Bytes {
    Word(r.client) + r.key + r.bundleHash
  }

  function UnpackReceipt(g: Geometry, b: Bytes): Receipt
    requires |b| == ReceiptLen(g)
  {
    Receipt(FromLE(b[..4]), b[4..4 + g.pubkeyLen], b[4 + g.pubkeyLen..])
  }

  lemma ReceiptRoundTrip(g: Geometry, b: Bytes)
    requires |b| == ReceiptLen(g)
    ensures ReceiptFits(g, UnpackReceipt(g, b)) && PackReceipt(UnpackReceipt(g, b)) == b
  {
    WordBack(b[..4]);
  }

  lemma PackReceiptInjective(g: Geometry, r: Receipt, q: Receipt)
    requires ReceiptFits(g, r) && ReceiptFits(g, q) && PackReceipt(r) == PackReceipt(q)
    ensures r == q
  {
    var b := PackReceipt(r);
    WordOf(r.client);
    WordOf(q.client);
    assert b[..4] == Word(r.client) && PackReceipt(q)[..4] == Word(q.client);
    assert b[4..4 + g.pubkeyLen] == r.key && PackReceipt(q)[4..4 + g.pubkeyLen] == q.key;
    assert b[4 + g.pubkeyLen..] == r.bundleHash && PackReceipt(q)[4 + g.pubkeyLen..] == q.bundleHash;
  }

  function PackReceipts(rs: seq<Receipt>): Bytes {
    if rs == [] then [] else PackReceipts(rs[..|rs| - 1]) + PackReceipt(rs[|rs| - 1])
  }

  ghost predicate ReceiptsFit(g: Geometry, rs: seq<Receipt>) {
    forall i :: 0 <= i < |rs| ==> ReceiptFits(g, rs[i])
  }

  lemma OneReceiptLen(g: Geometry, r: Receipt)
    requires ReceiptFits(g, r)
    ensures |PackReceipt(r)| == ReceiptLen(g)
  {
  }

  lemma PackReceiptsAppend(rs: seq<Receipt>, r: Receipt)
    ensures PackReceipts(rs + [r]) == PackReceipts(rs) + PackReceipt(r)
  {
    assert (rs + [r])[..|rs + [r]| - 1] == rs;
  }

  /** The cell at `at` read as one more receipt. */
  lemma NextReceipt(g: Geometry, bytes: Bytes, start: nat, at: nat, rs: seq<Receipt>)
    requires start <= at && at + ReceiptLen(g) <= |bytes| && ReceiptsFit(g, rs) && bytes[start..at] == PackReceipts(rs)
    ensures var more := rs + [UnpackReceipt(g, bytes[at..at + ReceiptLen(g)])];
            ReceiptsFit(g, more) && bytes[start..at + ReceiptLen(g)] == PackReceipts(more)
  {
    var cell := bytes[at..at + ReceiptLen(g)];
    ReceiptRoundTrip(g, cell);
    PackReceiptsAppend(rs, UnpackReceipt(g, cell));
    Adjoin(bytes, start, at, at + ReceiptLen(g));
  }

  lemma Adjoin(s: Bytes, a: nat, b: nat, c: nat)
    requires a <= b <= c <= |s|
    ensures s[a..b] + s[b..c] == s[a..c]
  {
  }

  lemma {:induction false} ReceiptsLen(g: Geometry, rs: seq<Receipt>)
    requires ReceiptsFit(g, rs)
    ensures |PackReceipts(rs)| == |rs| * ReceiptLen(g)
  {
    if rs != [] {
      ReceiptsLen(g, rs[..|rs| - 1]);
      OneReceiptLen(g, rs[|rs| - 1]);
      MulStep(|rs| - 1, |rs|, ReceiptLen(g));
    }
  }

  lemma SplitEqual(a: Bytes, b: Bytes, c: Bytes, d: Bytes)
    requires a + b == c + d && |a| == |c|
    ensures a == c && b == d
  {
    assert a == (a + b)[..|a|] && c == (c + d)[..|c|];
    assert b == (a + b)[|a|..] && d == (c + d)[|c|..];
  }

  lemma {:induction false} PackReceiptsInjective(g: Geometry, rs: seq<Receipt>, qs: seq<Receipt>)
    requires ReceiptsFit(g, rs) && ReceiptsFit(g, qs) && |rs| == |qs| && PackReceipts(rs) == PackReceipts(qs)
    ensures rs == qs
  {
    if rs != [] {
      var n := |rs| - 1;
      ReceiptsLen(g, rs[..n]);
      ReceiptsLen(g, qs[..n]);
      SplitEqual(PackReceipts(rs[..n]), PackReceipt(rs[n]), PackReceipts(qs[..n]), PackReceipt(qs[n]));
      PackReceiptInjective(g, rs[n], qs[n]);
      PackReceiptsInjective(g, rs[..n], qs[..n]);
      assert rs == rs[..n] + [rs[n]] && qs == qs[..n] + [qs[n]];
    }
  }

  ghost predicate BatchFits(g: Geometry, b: Batch) {
    b.server < U32 && |b.sig| == g.sigLen && |b.receipts| < U32 && ReceiptsFit(g, b.receipts)
  }

  function BatchHead(b: Batch): Bytes { Word(b.server) + b.sig + Word(|b.receipts|) }

  function PackBatch(b: Batch): Bytes { BatchHead(b) + PackReceipts(b.receipts) }

  lemma PackedBatch(g: Geometry, b: Batch)
    requires BatchFits(g, b)
    ensures |PackBatch(b)| == 8 + g.sigLen + |b.receipts| * ReceiptLen(g)
    ensures FromLE(PackBatch(b)[..4]) == b.server && PackBatch(b)[4..4 + g.sigLen] == b.sig
    ensures FromLE(PackBatch(b)[4 + g.sigLen..8 + g.sigLen]) == |b.receipts|
    ensures PackBatch(b)[8 + g.sigLen..] == PackReceipts(b.receipts)
  {
    ReceiptsLen(g, b.receipts);
    var tail := PackReceipts(b.receipts);
    WordOf(b.server);
    WordOf(|b.receipts|);
    Fields(Word(b.server), b.sig, Word(|b.receipts|), tail);
  }

  lemma Fields(a: Bytes, b: Bytes, c: Bytes, d: Bytes)
    ensures var s := a + b + c + d;
            && s[..|a|] == a && s[|a|..|a| + |b|] == b
            && s[|a| + |b|..|a| + |b| + |c|] == c && s[|a| + |b| + |c|..] == d
  {
  }

  lemma PackBatchInjective(g: Geometry, a: Batch, b: Batch)
    requires BatchFits(g, a) && BatchFits(g, b) && PackBatch(a) == PackBatch(b)
    ensures a == b
  {
    PackedBatch(g, a);
    PackedBatch(g, b);
    PackReceiptsInjective(g, a.receipts, b.receipts);
  }

  /** Reads `n` receipts starting at `at`. */
  method UnpackReceipts(g: Geometry, bytes: Bytes, start: nat, n: nat) returns (receipts: seq<Receipt>, at: nat)
    requires start + n * ReceiptLen(g) <= |bytes|
    ensures |receipts| == n && ReceiptsFit(g, receipts)
    ensures at == start + n * ReceiptLen(g) && bytes[start..at] == PackReceipts(receipts)
  {
    receipts, at := [], start;
    TotalIs(ReceiptLen(g), n);
    var i := 0;
    while i < n
      invariant 0 <= i <= n && |receipts| == i && ReceiptsFit(g, receipts)
      invariant start <= at == start + Total(ReceiptLen(g), i) <= |bytes|
      invariant bytes[start..at] == PackReceipts(receipts)
    {
      TotalGrows(ReceiptLen(g), i, n);
      NextReceipt(g, bytes, start, at, receipts);
      receipts := receipts + [UnpackReceipt(g, bytes[at..at + ReceiptLen(g)])];
      at := at + ReceiptLen(g);
      i := i + 1;
    }
  }

  /** Reads a batch off exactly `bytes`; the count is bounded by the bytes present. */
  method UnpackBatch(g: Geometry, bytes: Bytes) returns (r: Option<Batch>)
    ensures r.Some? ==> BatchFits(g, r.value) && PackBatch(r.value) == bytes
    ensures forall b :: BatchFits(g, b) && PackBatch(b) == bytes ==> r == Some(b)
  {
    forall b | BatchFits(g, b) && PackBatch(b) == bytes
      ensures |bytes| == 8 + g.sigLen + |b.receipts| * ReceiptLen(g)
      ensures FromLE(bytes[4 + g.sigLen..8 + g.sigLen]) == |b.receipts|
    {
      PackedBatch(g, b);
    }
    var at := 4 + g.sigLen;
    if |bytes| < at + 4 { return None; }
    var server, sig, n := FromLE(bytes[..4]), bytes[4..at], FromLE(bytes[at..at + 4]);
    DivBound(n, |bytes| - (at + 4), ReceiptLen(g));
    if n > (|bytes| - (at + 4)) / ReceiptLen(g) { return None; }
    var receipts, end := UnpackReceipts(g, bytes, at + 4, n);
    if end != |bytes| { return None; }
    var b := Batch(server, receipts, sig);
    UnpackedBatch(g, bytes, b);
    return Some(b);
  }

  lemma BatchJoins(g: Geometry, bytes: Bytes, b: Batch)
    requires |bytes| >= 8 + g.sigLen && ReceiptsFit(g, b.receipts)
    requires b.server == FromLE(bytes[..4]) && b.sig == bytes[4..4 + g.sigLen]
    requires |b.receipts| == FromLE(bytes[4 + g.sigLen..8 + g.sigLen]) && PackReceipts(b.receipts) == bytes[8 + g.sigLen..]
    ensures BatchFits(g, b) && PackBatch(b) == bytes
  {
    WordBack(bytes[..4]);
    WordBack(bytes[4 + g.sigLen..8 + g.sigLen]);
    FourJoin(bytes, 4, 4 + g.sigLen, 8 + g.sigLen);
  }

  lemma UnpackedBatch(g: Geometry, bytes: Bytes, b: Batch)
    requires |bytes| >= 8 + g.sigLen && ReceiptsFit(g, b.receipts)
    requires b.server == FromLE(bytes[..4]) && b.sig == bytes[4..4 + g.sigLen]
    requires |b.receipts| == FromLE(bytes[4 + g.sigLen..8 + g.sigLen]) && PackReceipts(b.receipts) == bytes[8 + g.sigLen..]
    ensures BatchFits(g, b) && PackBatch(b) == bytes
    ensures forall c :: BatchFits(g, c) && PackBatch(c) == bytes ==> c == b
  {
    BatchJoins(g, bytes, b);
    forall c | BatchFits(g, c) && PackBatch(c) == bytes ensures c == b {
      PackBatchInjective(g, c, b);
    }
  }

  // ---------------------------------------------------------------- fragments

  ghost predicate FragmentFits(g: Geometry, f: Fragment) {
    f.client < U32 && f.idx < U32 && |f.data| < U32 && ShareFits(g, f.data) && |f.sig| == g.sigLen
  }

  function PackFragment(g: Geometry, f: Fragment): Bytes {
    Word(f.client) + Word(f.idx) + Word(|f.data|) + PackShare(g, f.data) + f.sig
  }

  /** All of `bytes` is one fragment, or there is none; no more elements are read than fit. */
  function UnpackFragment(g: Geometry, bytes: Bytes): (r: Option<Fragment>)
    requires g.polyLen > 0
  {
    if |bytes| < 12 then None
    else
      var polys := FromLE(bytes[8..12]);
      var body := 12 + polys * g.polyLen;
      if polys > (|bytes| - 12) / g.polyLen || |bytes| != body + g.sigLen then None
      else
        var data := UnpackShare(g, bytes[12..body], polys);
        if data.None? then None
        else Some(Fragment(FromLE(bytes[..4]), FromLE(bytes[4..8]), data.value, bytes[body..]))
  }

  lemma FiveFields(a: Bytes, b: Bytes, c: Bytes, d: Bytes, e: Bytes)
    ensures var s := a + b + c + d + e;
            var i2, i3 := |a| + |b|, |a| + |b| + |c|;
            var i4 := i3 + |d|;
            && |s| == i4 + |e|
            && s[..|a|] == a && s[|a|..i2] == b && s[i2..i3] == c && s[i3..i4] == d && s[i4..] == e
  {
  }

  lemma FiveJoin(s: Bytes, i1: nat, i2: nat, i3: nat, i4: nat)
    requires i1 <= i2 <= i3 <= i4 <= |s|
    ensures s[..i1] + s[i1..i2] + s[i2..i3] + s[i3..i4] + s[i4..] == s
  {
  }

  lemma FragmentPacked(g: Geometry, f: Fragment)
    requires Packs(g) && FragmentFits(g, f)
    ensures UnpackFragment(g, PackFragment(g, f)) == Some(f)
  {
    var share := PackShare(g, f.data);
    PackShareUnpack(g, f.data);
    WordOf(f.client);
    WordOf(f.idx);
    WordOf(|f.data|);
    FiveFields(Word(f.client), Word(f.idx), Word(|f.data|), share, f.sig);
    DivBound(|f.data|, |share| + |f.sig|, g.polyLen);
    FragmentReads(g, PackFragment(g, f), |f.data|, 12 + |share|);
  }

  /** `UnpackFragment` once its count field has been read as `polys`. */
  lemma FragmentReads(g: Geometry, bytes: Bytes, polys: nat, body: nat)
    requires g.polyLen > 0 && 12 <= |bytes| && FromLE(bytes[8..12]) == polys && body == 12 + polys * g.polyLen
    requires |bytes| == body + g.sigLen
    ensures var data := UnpackShare(g, bytes[12..body], polys);
            UnpackFragment(g, bytes) ==
              if data.None? then None
              else Some(Fragment(FromLE(bytes[..4]), FromLE(bytes[4..8]), data.value, bytes[body..]))
  {
    DivBound(polys, |bytes| - 12, g.polyLen);
  }

  lemma FragmentUnpacked(g: Geometry, bytes: Bytes)
    requires Packs(g) && UnpackFragment(g, bytes).Some?
    ensures var f := UnpackFragment(g, bytes).value;
            FragmentFits(g, f) && PackFragment(g, f) == bytes
  {
    var polys := FromLE(bytes[8..12]);
    var body := 12 + polys * g.polyLen;
    FragmentReads(g, bytes, polys, body);
    UnpackSharePack(g, bytes[12..body], polys);
    WordBack(bytes[..4]);
    WordBack(bytes[4..8]);
    WordBack(bytes[8..12]);
    FiveJoin(bytes, 4, 8, 12, body);
  }

  // ---------------------------------------------------------------- relays

  function PackItem(g: Geometry, item: Item): Bytes {
    match item
    case BatchItem(b) => PackBatch(b)
    case FragmentItem(f) => PackFragment(g, f)
  }

  ghost predicate ItemFits(g: Geometry, item: Item) {
    match item
    case BatchItem(b) => BatchFits(g, b)
    case FragmentItem(f) => FragmentFits(g, f)
  }

  function Tag(item: Item): Byte { if item.BatchItem? then 0 else 1 }

  ghost predicate LinkFits(g: Geometry, e: (nat, Bytes)) { e.0 < U32 && |e.1| == g.sigLen }

  function LinkLen(g: Geometry): nat { 4 + g.sigLen }

  ghost predicate ChainFits(g: Geometry, chain: seq<(nat, Bytes)>) {
    forall i :: 0 <= i < |chain| ==> LinkFits(g, chain[i])
  }

  function PackChain(chain: seq<(nat, Bytes)>): Bytes {
    if chain == [] then []
    else PackChain(chain[..|chain| - 1]) + (Word(chain[|chain| - 1].0) + chain[|chain| - 1].1)
  }

  lemma {:induction false} ChainLength(g: Geometry, chain: seq<(nat, Bytes)>)
    requires ChainFits(g, chain)
    ensures |PackChain(chain)| == |chain| * LinkLen(g)
  {
    if chain != [] {
      assert LinkFits(g, chain[|chain| - 1]);
      ChainLength(g, chain[..|chain| - 1]);
      MulStep(|chain| - 1, |chain|, LinkLen(g));
    }
  }

  lemma {:induction false} PackChainInjective(g: Geometry, a: seq<(nat, Bytes)>, b: seq<(nat, Bytes)>)
    requires ChainFits(g, a) && ChainFits(g, b) && |a| == |b| && PackChain(a) == PackChain(b)
    ensures a == b
  {
    if a != [] {
      var n := |a| - 1;
      ChainLength(g, a[..n]);
      ChainLength(g, b[..n]);
      SplitEqual(PackChain(a[..n]), Word(a[n].0) + a[n].1, PackChain(b[..n]), Word(b[n].0) + b[n].1);
      SplitEqual(Word(a[n].0), a[n].1, Word(b[n].0), b[n].1);
      assert LinkFits(g, a[n]) && LinkFits(g, b[n]);
      WordOf(a[n].0);
      WordOf(b[n].0);
      PackChainInjective(g, a[..n], b[..n]);
      assert a == a[..n] + [a[n]] && b == b[..n] + [b[n]];
    }
  }

  ghost predicate RelayFits(g: Geometry, r: Relay) {
    ItemFits(g, r.item) && |PackItem(g, r.item)| < U32 && |r.chain| < U32 && ChainFits(g, r.chain)
  }

  function PackLinks(chain: seq<(nat, Bytes)>): Bytes { Word(|chain|) + PackChain(chain) }

  function PackRelay(g: Geometry, r: Relay): Bytes {
    var item := PackItem(g, r.item);
    [Tag(r.item)] + Word(|item|) + item + PackLinks(r.chain)
  }

  lemma PackedRelay(g: Geometry, r: Relay)
    requires RelayFits(g, r)
    ensures Framed(g, PackRelay(g, r), r)
  {
    WordOf(|PackItem(g, r.item)|);
    Fields([Tag(r.item)], Word(|PackItem(g, r.item)|), PackItem(g, r.item), PackLinks(r.chain));
    assert PackRelay(g, r)[..1] == [Tag(r.item)];
  }

  /** The frame of a packed relay: tag, length, item, links. */
  ghost predicate Framed(g: Geometry, bytes: Bytes, x: Relay) {
    && |bytes| >= 5
    && var len := FromLE(bytes[1..5]);
    && |bytes| >= 5 + len && bytes[0] == Tag(x.item)
    && bytes[5..5 + len] == PackItem(g, x.item) && bytes[5 + len..] == PackLinks(x.chain)
  }

  lemma PackLinksInjective(g: Geometry, a: seq<(nat, Bytes)>, b: seq<(nat, Bytes)>)
    requires ChainFits(g, a) && ChainFits(g, b) && |a| < U32 && |b| < U32 && PackLinks(a) == PackLinks(b)
    ensures a == b
  {
    SplitEqual(Word(|a|), PackChain(a), Word(|b|), PackChain(b));
    WordOf(|a|);
    WordOf(|b|);
    PackChainInjective(g, a, b);
  }

  lemma PackChainAppend(c: seq<(nat, Bytes)>, e: (nat, Bytes))
    ensures PackChain(c + [e]) == PackChain(c) + (Word(e.0) + e.1)
  {
    assert (c + [e])[..|c + [e]| - 1] == c;
  }

  /** The cell at `at` read as one more link. */
  lemma NextLink(g: Geometry, bytes: Bytes, start: nat, at: nat, c: seq<(nat, Bytes)>)
    requires start <= at && at + LinkLen(g) <= |bytes| && ChainFits(g, c) && bytes[start..at] == PackChain(c)
    ensures var more := c + [UnpackLink(g, bytes[at..at + LinkLen(g)])];
            ChainFits(g, more) && bytes[start..at + LinkLen(g)] == PackChain(more)
  {
    var cell := bytes[at..at + LinkLen(g)];
    LinkRoundTrip(g, cell);
    PackChainAppend(c, UnpackLink(g, cell));
    Adjoin(bytes, start, at, at + LinkLen(g));
  }

  method UnpackChain(g: Geometry, bytes: Bytes, start: nat, n: nat) returns (chain: seq<(nat, Bytes)>, at: nat)
    requires start + n * LinkLen(g) <= |bytes|
    ensures |chain| == n && ChainFits(g, chain)
    ensures at == start + n * LinkLen(g) && bytes[start..at] == PackChain(chain)
  {
    chain, at := [], start;
    TotalIs(LinkLen(g), n);
    var i := 0;
    while i < n
      invariant 0 <= i <= n && |chain| == i && ChainFits(g, chain)
      invariant start <= at == start + Total(LinkLen(g), i) <= |bytes|
      invariant bytes[start..at] == PackChain(chain)
    {
      TotalGrows(LinkLen(g), i, n);
      NextLink(g, bytes, start, at, chain);
      chain := chain + [UnpackLink(g, bytes[at..at + LinkLen(g)])];
      at := at + LinkLen(g);
      i := i + 1;
    }
  }

  function UnpackLink(g: Geometry, b: Bytes): (nat, Bytes)
    requires |b| == LinkLen(g)
  {
    (FromLE(b[..4]), b[4..])
  }

  lemma LinkRoundTrip(g: Geometry, b: Bytes)
    requires |b| == LinkLen(g)
    ensures var e := UnpackLink(g, b);
            LinkFits(g, e) && Word(e.0) + e.1 == b
  {
    WordBack(b[..4]);
    assert b[..4] + b[4..] == b;
  }

  ghost predicate LinksFit(g: Geometry, c: seq<(nat, Bytes)>) { ChainFits(g, c) && |c| < U32 }

  /** A counted chain filling `bytes`; the count is bounded by the bytes present. */
  method UnpackLinks(g: Geometry, bytes: Bytes) returns (r: Option<seq<(nat, Bytes)>>)
    ensures r.Some? ==> LinksFit(g, r.value) && PackLinks(r.value) == bytes
    ensures forall c :: LinksFit(g, c) && PackLinks(c) == bytes ==> r == Some(c)
  {
    forall c | LinksFit(g, c) && PackLinks(c) == bytes ensures Counted(g, bytes, c) {
      LinksCounted(g, c);
    }
    if |bytes| < 4 { return None; }
    var n := FromLE(bytes[..4]);
    DivBound(n, |bytes| - 4, LinkLen(g));
    if n > (|bytes| - 4) / LinkLen(g) { return None; }
    var chain, end := UnpackChain(g, bytes, 4, n);
    if end != |bytes| { return None; }
    LinksUnique(g, bytes, chain);
    return Some(chain);
  }

  ghost predicate Counted(g: Geometry, bytes: Bytes, c: seq<(nat, Bytes)>) {
    |bytes| >= 4 && FromLE(bytes[..4]) == |c| && |bytes| == 4 + |c| * LinkLen(g)
  }

  lemma LinksCounted(g: Geometry, c: seq<(nat, Bytes)>)
    requires LinksFit(g, c)
    ensures Counted(g, PackLinks(c), c)
  {
    WordOf(|c|);
    ChainLength(g, c);
    assert PackLinks(c)[..4] == Word(|c|);
  }

  lemma LinksUnique(g: Geometry, bytes: Bytes, chain: seq<(nat, Bytes)>)
    requires |bytes| >= 4 && ChainFits(g, chain) && |chain| == FromLE(bytes[..4]) && bytes[4..] == PackChain(chain)
    ensures LinksFit(g, chain) && PackLinks(chain) == bytes
    ensures forall c :: LinksFit(g, c) && PackLinks(c) == bytes ==> c == chain
  {
    WordBack(bytes[..4]);
    assert bytes[..4] + bytes[4..] == bytes;
    forall c | LinksFit(g, c) && PackLinks(c) == bytes ensures c == chain {
      PackLinksInjective(g, c, chain);
    }
  }

  method UnpackItem(g: Geometry, tag: Byte, body: Bytes) returns (r: Option<Item>)
    requires Packs(g)
    ensures r.Some? ==> ItemFits(g, r.value) && PackItem(g, r.value) == body && Tag(r.value) == tag
    ensures forall x :: ItemFits(g, x) && PackItem(g, x) == body && Tag(x) == tag ==> r == Some(x)
  {
    if tag == 0 {
      var b := UnpackBatch(g, body);
      return if b.Some? then Some(BatchItem(b.value)) else None;
    } else if tag == 1 {
      var f := UnpackFragment(g, body);
      forall x | ItemFits(g, x) && PackItem(g, x) == body && Tag(x) == 1 ensures f.Some? && x == FragmentItem(f.value) {
        FragmentPacked(g, x.fragment);
      }
      if f.Some? { FragmentUnpacked(g, body); }
      return if f.Some? then Some(FragmentItem(f.value)) else None;
    } else {
      return None;
    }
  }

  /** Reads a relay off exactly `bytes`: it succeeds on the packings of relays and nothing
      else, and gives back the relay that was packed. */
  method UnpackRelay(g: Geometry, bytes: Bytes) returns (r: Option<Relay>)
    requires Packs(g)
    ensures r.Some? ==> RelayFits(g, r.value) && PackRelay(g, r.value) == bytes
    ensures forall x :: RelayFits(g, x) && PackRelay(g, x) == bytes ==> r == Some(x)
  {
    forall x | RelayFits(g, x) && PackRelay(g, x) == bytes ensures Framed(g, bytes, x) {
      PackedRelay(g, x);
    }
    if |bytes| < 5 { return None; }
    var len := FromLE(bytes[1..5]);
    if |bytes| < 5 + len { return None; }
    var item := UnpackItem(g, bytes[0], bytes[5..5 + len]);
    if item.None? { return None; }
    var chain := UnpackLinks(g, bytes[5 + len..]);
    if chain.None? { return None; }
    Frame(g, bytes, Relay(item.value, chain.value));
    return Some(Relay(item.value, chain.value));
  }

  lemma Frame(g: Geometry, bytes: Bytes, r: Relay)
    requires Framed(g, bytes, r) && ItemFits(g, r.item) && LinksFit(g, r.chain)
    ensures RelayFits(g, r) && PackRelay(g, r) == bytes
  {
    FrameJoins(bytes, Tag(r.item), PackItem(g, r.item), PackLinks(r.chain));
  }

  lemma FrameJoins(bytes: Bytes, tag: Byte, item: Bytes, links: Bytes)
    requires |bytes| >= 5 && |bytes| >= 5 + FromLE(bytes[1..5]) && bytes[0] == tag
    requires bytes[5..5 + FromLE(bytes[1..5])] == item && bytes[5 + FromLE(bytes[1..5])..] == links
    ensures |item| < U32 && [tag] + Word(|item|) + item + links == bytes
  {
    WordBack(bytes[1..5]);
    FourJoin(bytes, 1, 5, 5 + |item|);
    assert bytes[..1] == [tag];
  }

  lemma FourJoin(s: Bytes, i1: nat, i2: nat, i3: nat)
    requires i1 <= i2 <= i3 <= |s|
    ensures s[..i1] + s[i1..i2] + s[i2..i3] + s[i3..] == s
  {
  }

  // ---------------------------------------------------------------- bundles

  ghost predicate BundleFits(g: Geometry, b: Bundle) {
    && b.client < U32 && b.lane < U32 && b.path.laneIndex == b.lane
    && |b.share| == g.blockLen && ShareFits(g, b.share)
    && g.packPath(b.path).Some? && |b.envelope| < U32
    && |b.pubkey| == g.pubkeyLen && |b.sig| == g.sigLen
  }

  function PackBundle(g: Geometry, b: Bundle): Option<Bytes> {
    var path := g.packPath(b.path);
    if path.None? then None
    else Some(Word(b.lane) + PackShare(g, b.share) + path.value + Word(|b.envelope|) + b.envelope + b.pubkey + b.sig)
  }

  /** The bundle a byte string starts with, and how much of it that takes. */
  function UnpackBundle(g: Geometry, client: nat, bytes: Bytes): Option<(Bundle, nat)> {
    var shareEnd := 4 + g.blockLen * g.polyLen;
    var pathEnd := shareEnd + g.pathLen;
    if |bytes| < pathEnd + 4 then None
    else UnpackTail(g, client, bytes, shareEnd, pathEnd, pathEnd + 4 + FromLE(bytes[pathEnd..pathEnd + 4]))
  }

  function UnpackTail(g: Geometry, client: nat, bytes: Bytes, shareEnd: nat, pathEnd: nat, envEnd: nat): Option<(Bundle, nat)>
    requires 4 <= shareEnd <= pathEnd && pathEnd + 4 <= envEnd && pathEnd + 4 <= |bytes|
  {
    var lane := FromLE(bytes[..4]);
    var share := UnpackShare(g, bytes[4..shareEnd], g.blockLen);
    var path := g.unpackPath(lane, bytes[shareEnd..pathEnd]);
    var end := envEnd + g.pubkeyLen + g.sigLen;
    if share.None? || path.None? || |bytes| < end then None
    else
      Some((Bundle(client, lane, share.value, path.value, bytes[pathEnd + 4..envEnd],
                   bytes[envEnd..envEnd + g.pubkeyLen], bytes[envEnd + g.pubkeyLen..end]), end))
  }

  /** Seven fields in a row, then anything. */
  lemma SevenFields(a: Bytes, b: Bytes, c: Bytes, d: Bytes, e: Bytes, f: Bytes, h: Bytes, rest: Bytes)
    ensures var s := (a + b + c + d + e + f + h) + rest;
            var i2, i3 := |a| + |b|, |a| + |b| + |c|;
            var i4 := i3 + |d|;
            var i5 := i4 + |e|;
            var i6 := i5 + |f|;
            && |s| >= i6 + |h|
            && s[..|a|] == a && s[|a|..i2] == b && s[i2..i3] == c && s[i3..i4] == d
            && s[i4..i5] == e && s[i5..i6] == f && s[i6..i6 + |h|] == h
  {
  }

  lemma {:induction false} ShareLen(g: Geometry, s: Share)
    requires ShareFits(g, s)
    ensures |PackShare(g, s)| == |s| * g.polyLen
  {
    if s != [] {
      assert PolyFits(g, s[0]);
      ShareLen(g, s[1..]);
      MulStep(|s| - 1, |s|, g.polyLen);
    }
  }

  /** Where the fields of `b`'s packing sit in `bytes`. */
  ghost predicate BundleAt(g: Geometry, b: Bundle, bytes: Bytes, shareEnd: nat, pathEnd: nat)
    requires g.packPath(b.path).Some?
  {
    var envEnd := pathEnd + 4 + |b.envelope|;
    var keyEnd := envEnd + |b.pubkey|;
    && 4 <= shareEnd <= pathEnd && keyEnd + |b.sig| <= |bytes|
    && FromLE(bytes[..4]) == b.lane
    && bytes[4..shareEnd] == PackShare(g, b.share)
    && bytes[shareEnd..pathEnd] == g.packPath(b.path).value
    && FromLE(bytes[pathEnd..pathEnd + 4]) == |b.envelope|
    && bytes[pathEnd + 4..envEnd] == b.envelope
    && bytes[envEnd..keyEnd] == b.pubkey
    && bytes[keyEnd..keyEnd + |b.sig|] == b.sig
  }

  lemma PackedBundle(g: Geometry, b: Bundle, rest: Bytes)
    requires b.lane < U32 && |b.envelope| < U32 && g.packPath(b.path).Some?
    ensures var shareEnd := 4 + |PackShare(g, b.share)|;
            BundleAt(g, b, PackBundle(g, b).value + rest, shareEnd, shareEnd + |g.packPath(b.path).value|)
  {
    WordOf(b.lane);
    WordOf(|b.envelope|);
    SevenFields(Word(b.lane), PackShare(g, b.share), g.packPath(b.path).value, Word(|b.envelope|),
                b.envelope, b.pubkey, b.sig, rest);
  }

  lemma ReadAt(g: Geometry, b: Bundle, bytes: Bytes, shareEnd: nat, pathEnd: nat)
    requires Packs(g) && BundleFits(g, b) && BundleAt(g, b, bytes, shareEnd, pathEnd)
    ensures UnpackTail(g, b.client, bytes, shareEnd, pathEnd, pathEnd + 4 + |b.envelope|)
            == Some((b, pathEnd + 4 + |b.envelope| + |b.pubkey| + |b.sig|))
  {
    PackShareUnpack(g, b.share);
    assert PathFits(g, b.path);
  }

  lemma BundleLength(g: Geometry, b: Bundle)
    requires Packs(g) && BundleFits(g, b)
    ensures |PackBundle(g, b).value| == 8 + |PackShare(g, b.share)| + g.pathLen + |b.envelope| + |b.pubkey| + |b.sig|
    ensures |PackShare(g, b.share)| == g.blockLen * g.polyLen
  {
    ShareLen(g, b.share);
    assert PathFits(g, b.path);
  }

  lemma ReadBundle(g: Geometry, b: Bundle, bytes: Bytes, shareEnd: nat)
    requires Packs(g) && BundleFits(g, b) && shareEnd == 4 + g.blockLen * g.polyLen
    requires BundleAt(g, b, bytes, shareEnd, shareEnd + g.pathLen)
    ensures UnpackBundle(g, b.client, bytes) == Some((b, shareEnd + g.pathLen + 4 + |b.envelope| + |b.pubkey| + |b.sig|))
  {
    ReadAt(g, b, bytes, shareEnd, shareEnd + g.pathLen);
  }

  /** Self-delimiting: whatever follows a packed bundle, it reads back and stops at its end. */
  lemma BundleRoundTrip(g: Geometry, b: Bundle, rest: Bytes)
    requires Packs(g) && BundleFits(g, b)
    ensures UnpackBundle(g, b.client, PackBundle(g, b).value + rest) == Some((b, |PackBundle(g, b).value|))
  {
    BundleLength(g, b);
    PackedBundle(g, b, rest);
    ReadBundle(g, b, PackBundle(g, b).value + rest, 4 + |PackShare(g, b.share)|);
  }

  lemma DivBound(n: nat, space: nat, len: nat)
    requires len > 0
    ensures n > space / len ==> n * len > space
    ensures n <= space / len ==> n * len <= space
  {
    if n > space / len {
      assert n >= space / len + 1;
      assert n * len >= (space / len + 1) * len;
    } else {
      assert n * len <= (space / len) * len;
    }
  }

  lemma MulStep(i: nat, n: nat, len: nat)
    requires i < n
    ensures (i + 1) * len == i * len + len
    ensures (i + 1) * len <= n * len
  {
  }

  /** `count * dim`, one element at a time. */
  function Total(dim: nat, count: nat): nat {
    if count == 0 then 0 else dim + Total(dim, count - 1)
  }

  lemma {:induction false} TotalIs(dim: nat, count: nat)
    ensures Total(dim, count) == count * dim
  {
    if count > 0 {
      TotalIs(dim, count - 1);
      MulStep(count - 1, count, dim);
    }
  }

  lemma {:induction false} TotalGrows(dim: nat, i: nat, n: nat)
    requires i < n
    ensures Total(dim, i + 1) == Total(dim, i) + dim <= Total(dim, n)
    decreases n
  {
    if i + 1 < n { TotalGrows(dim, i, n - 1); }
  }
}
