/** The coded detour: a client erasure-codes the bundles of the lanes that never acked, and
    servers rebuild them from any `n - k` pieces. */
module Repair {
  import opened Basics
  import opened ClientSetTypes
  import opened Codec

  const BYTES_PER_COEFF := 5

  /** Where a slot's bytes start. */
  function ByteOf(slot: nat): nat { slot * 5 }

  // ---------------------------------------------------------------- blobs as ring elements

  /** The erasure code and ring of the upstream crate: `dim` slots an element. */
  datatype Erasure = Erasure(
    dim: nat,
    encode: (nat, nat, seq<Poly>) -> seq<Share>,
    reconstruct: (nat, nat, nat, seq<(nat, Share)>) -> Option<seq<Poly>>)

  function Chunk(blob: Bytes, j: nat): Bytes {
    var at := ByteOf(j);
    if at >= |blob| then [] else blob[at..Min(at + BYTES_PER_COEFF, |blob|)]
  }

  /** Slot `j` of a blob: its next five bytes, zero-extended. */
  function SlotAt(blob: Bytes, j: nat): nat { FromLE(Chunk(blob, j)) }

  function SlotRun(blob: Bytes, base: nat, m: nat): seq<nat> {
    seq<nat>(m, i requires 0 <= i < m => SlotAt(blob, base + i))
  }

  /** `count` elements of `dim` slots each, from slot `base` on. */
  function PolyRun(dim: nat, blob: Bytes, base: nat, count: nat): seq<Poly>
    decreases count
  {
    if count == 0 then []
    else [Poly(SlotRun(blob, base, dim))] + PolyRun(dim, blob, base + dim, count - 1)
  }

  function PolyCount(dim: nat, len: nat): nat
    requires dim > 0
  {
    DivCeil(Max(DivCeil(len, BYTES_PER_COEFF), 1), dim)
  }

  function BlobToPolys(dim: nat, blob: Bytes): seq<Poly>
    requires dim > 0
  {
    PolyRun(dim, blob, 0, PolyCount(dim, |blob|))
  }

  /** The low five bytes of each of the first `n` slots, in order. */
  function SlotBytesTo(slots: seq<nat>, n: nat): Bytes
    requires n <= |slots|
    decreases n
  {
    if n == 0 then [] else SlotBytesTo(slots, n - 1) + LE(slots[n - 1], BYTES_PER_COEFF)
  }

  function SlotBytes(slots: seq<nat>): Bytes { SlotBytesTo(slots, |slots|) }

  /** Every slot's low five bytes, in order. */
  function PolysToBlob(polys: seq<Poly>): Bytes {
    if polys == [] then [] else SlotBytes(polys[0].slots) + PolysToBlob(polys[1..])
  }

  method DecodeSlots(slots: seq<nat>) returns (out: Bytes)
    ensures out == SlotBytes(slots)
  {
    out := [];
    var i := 0;
    while i < |slots|
      invariant 0 <= i <= |slots|
      invariant out == SlotBytesTo(slots, i)
    {
      out := out + LE(slots[i], BYTES_PER_COEFF);
      i := i + 1;
    }
  }

  lemma BlobNext(polys: seq<Poly>, p: nat, out: Bytes)
    requires p < |polys|
    ensures out + PolysToBlob(polys[p..]) == (out + SlotBytes(polys[p].slots)) + PolysToBlob(polys[p + 1..])
  {
    assert polys[p..][1..] == polys[p + 1..];
  }

  method DecodeBlob(polys: seq<Poly>) returns (out: Bytes)
    ensures out == PolysToBlob(polys)
  {
    out := [];
    var p := 0;
    assert polys[0..] == polys;
    while p < |polys|
      invariant 0 <= p <= |polys|
      invariant out + PolysToBlob(polys[p..]) == PolysToBlob(polys)
    {
      var more := DecodeSlots(polys[p].slots);
      BlobNext(polys, p, out);
      out := out + more;
      p := p + 1;
    }
    assert polys[p..] == [] && out + [] == out;
  }

  /** Byte `t` of a blob extended with zeros. */
  function Padded(blob: Bytes, t: nat): Byte { if t < |blob| then blob[t] else 0 }

  /** Bytes `base..base + len` of a blob extended with zeros. */
  function PaddedFrom(blob: Bytes, base: nat, len: nat): (r: Bytes)
    ensures |r| == len
    decreases len, base
  {
    if len == 0 then [] else PaddedFrom(blob, base, len - 1) + [Padded(blob, base + len - 1)]
  }

  lemma {:induction false} PaddedAt(blob: Bytes, base: nat, len: nat)
    ensures forall t :: 0 <= t < len ==> PaddedFrom(blob, base, len)[t] == Padded(blob, base + t)
    decreases len
  {
    if len > 0 { PaddedAt(blob, base, len - 1); }
  }

  lemma {:induction false} PaddedSplit(blob: Bytes, base: nat, a: nat, b: nat)
    ensures PaddedFrom(blob, base, a) + PaddedFrom(blob, base + a, b) == PaddedFrom(blob, base, a + b)
    decreases b
  {
    if b == 0 {
      assert PaddedFrom(blob, base, a) + [] == PaddedFrom(blob, base, a);
    } else {
      PaddedSplit(blob, base, a, b - 1);
      assert PaddedFrom(blob, base, a) + PaddedFrom(blob, base + a, b)
          == (PaddedFrom(blob, base, a) + PaddedFrom(blob, base + a, b - 1)) + [Padded(blob, base + a + b - 1)];
    }
  }

  lemma {:induction false} LEZero(w: nat)
    ensures forall t :: 0 <= t < w ==> LE(0, w)[t] == 0
    decreases w
  {
    if w > 0 { LEZero(w - 1); }
  }

  lemma {:induction false} LEPads(b: Bytes, w: nat)
    requires |b| <= w
    ensures forall t :: 0 <= t < w ==> LE(FromLE(b), w)[t] == Padded(b, t)
    decreases w
  {
    if b == [] {
      LEZero(w);
    } else {
      LEPads(b[1..], w - 1);
      assert FromLE(b) % 256 == b[0] && FromLE(b) / 256 == FromLE(b[1..]);
      forall t | 0 <= t < w ensures LE(FromLE(b), w)[t] == Padded(b, t) {
        if t > 0 { assert LE(FromLE(b), w)[t] == LE(FromLE(b[1..]), w - 1)[t - 1]; }
      }
    }
  }

  lemma SlotBack(blob: Bytes, j: nat)
    ensures LE(SlotAt(blob, j), BYTES_PER_COEFF) == PaddedFrom(blob, ByteOf(j), BYTES_PER_COEFF)
  {
    var c := Chunk(blob, j);
    LEPads(c, BYTES_PER_COEFF);
    PaddedAt(blob, ByteOf(j), BYTES_PER_COEFF);
    forall t | 0 <= t < BYTES_PER_COEFF ensures Padded(c, t) == Padded(blob, ByteOf(j) + t) {
    }
  }

  lemma {:induction false} PowMonotone(a: nat, b: nat)
    requires a <= b
    ensures Pow256(a) <= Pow256(b)
    decreases b
  {
    if a < b { PowMonotone(a, b - 1); }
  }

  /** One more slot: the bytes from `base` grow by the slot's own five. */
  lemma OneSlotMore(blob: Bytes, base: nat, len: nat, mid: nat, total: nat, bytes: Bytes, cell: Bytes)
    requires mid == base + len && total == len + BYTES_PER_COEFF
    requires bytes == PaddedFrom(blob, base, len) && cell == PaddedFrom(blob, mid, BYTES_PER_COEFF)
    ensures bytes + cell == PaddedFrom(blob, base, total)
  {
    PaddedJoin(blob, base, len, mid, BYTES_PER_COEFF, total);
  }

  /** `v` decodes to the five bytes of slot `j`. */
  ghost predicate CellOk(blob: Bytes, j: nat, v: nat) {
    LE(v, BYTES_PER_COEFF) == PaddedFrom(blob, ByteOf(j), BYTES_PER_COEFF)
  }

  lemma {:induction false} CellsDecode(blob: Bytes, base: nat, slots: seq<nat>, n: nat)
    requires n <= |slots| && forall i :: 0 <= i < |slots| ==> CellOk(blob, base + i, slots[i])
    ensures SlotBytesTo(slots, n) == PaddedFrom(blob, ByteOf(base), ByteOf(n))
    decreases n
  {
    if n > 0 {
      CellsDecode(blob, base, slots, n - 1);
      assert CellOk(blob, base + (n - 1), slots[n - 1]);
      OneSlotMore(blob, ByteOf(base), ByteOf(n - 1), ByteOf(base + (n - 1)), ByteOf(n), SlotBytesTo(slots, n - 1), LE(slots[n - 1], BYTES_PER_COEFF));
    }
  }

  lemma SlotRunBytes(blob: Bytes, base: nat, m: nat)
    ensures SlotBytes(SlotRun(blob, base, m)) == PaddedFrom(blob, ByteOf(base), ByteOf(m))
  {
    var run := SlotRun(blob, base, m);
    forall i | 0 <= i < |run| ensures CellOk(blob, base + i, run[i]) { SlotBack(blob, base + i); }
    CellsDecode(blob, base, run, m);
  }

  lemma {:induction false} PolyRunLength(dim: nat, blob: Bytes, base: nat, count: nat)
    ensures |PolyRun(dim, blob, base, count)| == count
    decreases count
  {
    if count > 0 { PolyRunLength(dim, blob, base + dim, count - 1); }
  }

  /** `bytes` is what `slots` slots from slot `base` on decode to. */
  ghost predicate SlotsOf(blob: Bytes, base: nat, slots: nat, bytes: Bytes) {
    bytes == PaddedFrom(blob, ByteOf(base), ByteOf(slots))
  }

  lemma {:induction false} PolyRunBytes(dim: nat, blob: Bytes, base: nat, count: nat)
    ensures SlotsOf(blob, base, Total(dim, count), PolysToBlob(PolyRun(dim, blob, base, count)))
    decreases count
  {
    if count > 0 {
      var rest := PolyRun(dim, blob, base + dim, count - 1);
      PolyRunBytes(dim, blob, base + dim, count - 1);
      PolyRunStep(dim, blob, base, rest, Total(dim, count - 1));
    }
  }

  lemma PolyRunStep(dim: nat, blob: Bytes, base: nat, rest: seq<Poly>, slots: nat)
    requires SlotsOf(blob, base + dim, slots, PolysToBlob(rest))
    ensures SlotsOf(blob, base, dim + slots, PolysToBlob([Poly(SlotRun(blob, base, dim))] + rest))
  {
    SlotRunBytes(blob, base, dim);
    PolysCons(SlotRun(blob, base, dim), rest);
    PaddedJoin(blob, ByteOf(base), ByteOf(dim), ByteOf(base + dim),
               ByteOf(slots), ByteOf(dim + slots));
  }

  lemma PolysCons(slots: seq<nat>, rest: seq<Poly>)
    ensures PolysToBlob([Poly(slots)] + rest) == SlotBytes(slots) + PolysToBlob(rest)
  {
    assert ([Poly(slots)] + rest)[1..] == rest;
  }

  lemma PaddedJoin(blob: Bytes, base: nat, a: nat, mid: nat, b: nat, len: nat)
    requires mid == base + a && len == a + b
    ensures PaddedFrom(blob, base, a) + PaddedFrom(blob, mid, b) == PaddedFrom(blob, base, len)
  {
    PaddedSplit(blob, base, a, b);
  }

  lemma CountCovers(dim: nat, len: nat)
    requires dim > 0
    ensures PolyCount(dim, len) >= 1
    ensures ByteOf(Total(dim, PolyCount(dim, len))) >= len
  {
    TotalIs(dim, PolyCount(dim, len));
    var coeffs := Max(DivCeil(len, BYTES_PER_COEFF), 1);
    CeilCovers(len, BYTES_PER_COEFF);
    CeilCovers(coeffs, dim);
  }

  lemma CeilCovers(a: nat, b: nat)
    requires b > 0
    ensures DivCeil(a, b) * b >= a
    ensures a > 0 ==> DivCeil(a, b) >= 1
  {
    var q := (a + b - 1) / b;
    assert a + b - 1 == q * b + (a + b - 1) % b;
    if q < 1 { assert q * b <= 0; }
  }

  /** The blob codec's round trip: the blob comes back as a prefix, followed by zeros. */
  lemma BlobRoundTrip(dim: nat, blob: Bytes, more: seq<Poly>)
    requires dim > 0
    ensures blob <= PolysToBlob(BlobToPolys(dim, blob) + more)
  {
    var count := PolyCount(dim, |blob|);
    PolyRunBytes(dim, blob, 0, count);
    CountCovers(dim, |blob|);
    PaddedPrefix(blob, ByteOf(Total(dim, count)));
    BlobAppend(BlobToPolys(dim, blob), more);
  }

  lemma PaddedPrefix(blob: Bytes, len: nat)
    requires len >= |blob|
    ensures blob <= PaddedFrom(blob, 0, len)
  {
    PaddedAt(blob, 0, len);
  }

  lemma {:induction false} BlobAppend(a: seq<Poly>, b: seq<Poly>)
    ensures PolysToBlob(a) <= PolysToBlob(a + b)
  {
    if a != [] {
      BlobAppend(a[1..], b);
      assert (a + b)[1..] == a[1..] + b;
    }
  }

  // ---------------------------------------------------------------- the erasure code's contract

  ghost predicate DistinctSamples(samples: seq<(nat, Share)>) {
    forall i, j :: 0 <= i < j < |samples| ==> samples[i].0 != samples[j].0
  }

  /** Any `k` distinct pieces of an encoding rebuild what was encoded, then padding. */
  ghost predicate CodeCase(e: Erasure, k: nat, n: nat, msg: seq<Poly>, samples: seq<(nat, Share)>) {
    var enc := e.encode(k, n, msg);
    (1 <= k <= n && msg != [] && |samples| == k && DistinctSamples(samples)
     && (forall i :: 0 <= i < k ==> samples[i].0 < |enc| && samples[i].1 == enc[samples[i].0])) ==>
      var out := Recover(e, k, n, samples);
      out.Some? && msg <= out.value
  }

  /** The upstream call, with the length of all the samples together. */
  function Recover(e: Erasure, k: nat, n: nat, samples: seq<(nat, Share)>): Option<seq<Poly>>
    requires samples != []
  {
    e.reconstruct(k, n, k * |samples[0].1|, samples)
  }

  ghost predicate Encodes(e: Erasure, k: nat, n: nat, msg: seq<Poly>) {
    (1 <= k <= n && msg != []) ==> |e.encode(k, n, msg)| == n
  }

  ghost predicate Rebuilds(e: Erasure) {
    && e.dim > 0
    && (forall k, n, msg :: Encodes(e, k, n, msg))
    && (forall k, n, msg, samples :: CodeCase(e, k, n, msg, samples))
  }

  // ---------------------------------------------------------------- the client's side

  /** The lanes of `0..n` not in `covered`, ascending. */
  function Missing(n: nat, covered: seq<nat>): (r: seq<nat>)
    ensures Ascending(r) && forall i :: 0 <= i < |r| ==> r[i] < n
    ensures forall l: nat :: l in r <==> l < n && l !in covered
  {
    if n == 0 then []
    else
      var r := Missing(n - 1, covered);
      if n - 1 in covered then r else r + [n - 1]
  }

  /** `lanes` name bundles that pack. */
  ghost predicate Packable(g: Geometry, bundles: seq<Bundle>, lanes: seq<nat>) {
    forall i :: 0 <= i < |lanes| ==> lanes[i] < |bundles| && PackBundle(g, bundles[lanes[i]]).Some?
  }

  function PackLanes(g: Geometry, bundles: seq<Bundle>, lanes: seq<nat>): Bytes
    requires Packable(g, bundles, lanes)
  {
    if lanes == [] then []
    else PackBundle(g, bundles[lanes[0]]).value + PackLanes(g, bundles, lanes[1..])
  }

  function BundlesAt(bundles: seq<Bundle>, lanes: seq<nat>): seq<Bundle>
    requires forall i :: 0 <= i < |lanes| ==> lanes[i] < |bundles|
  {
    if lanes == [] then [] else [bundles[lanes[0]]] + BundlesAt(bundles, lanes[1..])
  }

  /** A client's own bundles: one a lane, each validly signed under `key`; any lanes of them can be packed. */
  ghost predicate OwnBundles(sch: Scheme, g: Geometry, client: nat, key: Bytes, bundles: seq<Bundle>): (r: bool)
    ensures r ==> forall lanes: seq<nat> :: Servers(sch, lanes) ==> Packable(g, bundles, lanes)
  {
    |bundles| == sch.n && forall l :: 0 <= l < |bundles| ==> OwnBundle(sch, g, client, key, l, bundles[l])
  }

  predicate Servers(sch: Scheme, lanes: seq<nat>) { forall i :: 0 <= i < |lanes| ==> lanes[i] < sch.n }

  ghost predicate OwnBundle(sch: Scheme, g: Geometry, client: nat, key: Bytes, lane: nat, b: Bundle) {
    b.client == client && b.lane == lane && b.pubkey == key && BundleValid(sch, b) && BundleFits(g, b)
  }

  /** One fragment a lane, over the lanes not covered. */
  function BuildFragments(
    sch: Scheme, g: Geometry, e: Erasure, client: nat, key: Bytes, bundles: seq<Bundle>, covered: seq<nat>): (r: seq<Fragment>)
    requires e.dim > 0
    requires Packable(g, bundles, Missing(sch.n, covered))
  {
    var missing := Missing(sch.n, covered);
    if missing == [] || |covered| < SatSub(sch.n, sch.k) then []
    else
      var shares := e.encode(SatSub(sch.n, sch.k), sch.n, BlobToPolys(e.dim, PackLanes(g, bundles, missing)));
      seq(|shares|, i requires 0 <= i < |shares| =>
        Fragment(client, i, shares[i], sch.clientSign(key, FragmentMsg(client, i, shares[i]))))
  }

  // ---------------------------------------------------------------- the server's side

  /** The first `m` held pieces in index order. */
  function Samples(pool: map<nat, Share>, idxs: seq<nat>, m: nat): seq<(nat, Share)>
    requires m <= |idxs| && forall i :: i in idxs ==> i in pool
  {
    seq(m, j requires 0 <= j < m => (idxs[j], pool[idxs[j]]))
  }

  lemma {:induction false} SortedLength(s: set<nat>)
    ensures |Sorted(s)| == |s|
    decreases |s|
  {
    if s != {} { SortedLength(s - {Least(s)}); }
  }

  /** The message the held pieces reconstruct, or nothing when they cannot. */
  function Reconstructed(sch: Scheme, e: Erasure, pool: map<nat, Share>): Option<seq<Poly>> {
    var m := SatSub(sch.n, sch.k);
    SortedLength(pool.Keys);
    var idxs := Sorted(pool.Keys);
    if |idxs| < m || m == 0 then None
    else Recover(e, m, sch.n, Samples(pool, idxs, m))
  }

  /** The blob the held pieces decode to. */
  function DecodedBlob(sch: Scheme, e: Erasure, pool: map<nat, Share>): Option<Bytes> {
    var out := Reconstructed(sch, e, pool);
    if out.None? then None else Some(PolysToBlob(out.value))
  }

  /** A rebuilt bundle must be for the next missing lane, under the agreed key, and verify. */
  predicate Acceptable(sch: Scheme, key: Bytes, lane: nat, b: Bundle) {
    b.lane == lane && b.pubkey == key && BundleValid(sch, b)
  }

  function ParseLanes(sch: Scheme, g: Geometry, client: nat, key: Bytes, blob: Bytes, lanes: seq<nat>): Option<seq<Bundle>>
    decreases |lanes|
  {
    if lanes == [] then Some([])
    else
      var head := UnpackBundle(g, client, blob);
      if head.None? || !Acceptable(sch, key, lanes[0], head.value.0) then None
      else
        UsedWithin(g, client, blob);
        var rest := ParseLanes(sch, g, client, key, blob[head.value.1..], lanes[1..]);
        if rest.None? then None else Some([head.value.0] + rest.value)
  }

  lemma UsedWithin(g: Geometry, client: nat, blob: Bytes)
    ensures UnpackBundle(g, client, blob).Some? ==> UnpackBundle(g, client, blob).value.1 <= |blob|
  {
  }

  function Rebuild(
    sch: Scheme, g: Geometry, e: Erasure, pool: map<nat, Share>, client: nat, key: Bytes,
    covered: seq<nat>, missing: seq<nat>): Option<seq<Bundle>>
  {
    if |covered| < SatSub(sch.n, sch.k) then None
    else
      var blob := DecodedBlob(sch, e, pool);
      if blob.None? then None else ParseLanes(sch, g, client, key, blob.value, missing)
  }

  method RebuildBundles(
    sch: Scheme, g: Geometry, e: Erasure, pool: map<nat, Share>, client: nat, key: Bytes,
    covered: seq<nat>, missing: seq<nat>) returns (r: Option<seq<Bundle>>)
    ensures r == Rebuild(sch, g, e, pool, client, key, covered, missing)
  {
    if |covered| < SatSub(sch.n, sch.k) { return None; }
    var blob := ReadBlob(sch, e, pool);
    if blob.None? { return None; }
    r := ReadLanes(sch, g, client, key, blob.value, missing);
  }

  /** Reconstructs from the first pieces in index order, if there are enough. */
  method ReadBlob(sch: Scheme, e: Erasure, pool: map<nat, Share>) returns (blob: Option<Bytes>)
    ensures blob == DecodedBlob(sch, e, pool)
  {
    var m := SatSub(sch.n, sch.k);
    SortedLength(pool.Keys);
    var idxs := Sorted(pool.Keys);
    if |idxs| < m || m == 0 { return None; }
    var recovered := Recover(e, m, sch.n, Samples(pool, idxs, m));
    if recovered.None? { return None; }
    var bytes := DecodeBlob(recovered.value);
    return Some(bytes);
  }

  /** Reads one bundle for each lane off the front of `blob`, with nothing between them. */
  method ReadLanes(sch: Scheme, g: Geometry, client: nat, key: Bytes, blob: Bytes, lanes: seq<nat>) returns (r: Option<seq<Bundle>>)
    ensures r == ParseLanes(sch, g, client, key, blob, lanes)
  {
    var out, rest, i := [], blob, 0;
    ghost var whole := ParseLanes(sch, g, client, key, blob, lanes);
    assert lanes[0..] == lanes;
    assert whole.Some? ==> [] + whole.value == whole.value;
    while i < |lanes|
      invariant 0 <= i <= |lanes|
      invariant Continues(whole, out, ParseLanes(sch, g, client, key, rest, lanes[i..]))
    {
      assert lanes[i..][0] == lanes[i] && lanes[i..][1..] == lanes[i + 1..];
      var head := UnpackBundle(g, client, rest);
      if head.None? || !Acceptable(sch, key, lanes[i], head.value.0) { return None; }
      UsedWithin(g, client, rest);
      rest := rest[head.value.1..];
      ContinuesOne(whole, out, head.value.0, ParseLanes(sch, g, client, key, rest, lanes[i + 1..]));
      out := out + [head.value.0];
      i := i + 1;
    }
    assert lanes[i..] == [] && out + [] == out;
    return Some(out);
  }

  lemma ContinuesOne(whole: Option<seq<Bundle>>, out: seq<Bundle>, b: Bundle, rest: Option<seq<Bundle>>)
    requires Continues(whole, out, if rest.None? then None else Some([b] + rest.value))
    ensures Continues(whole, out + [b], rest)
  {
    if rest.Some? { assert out + ([b] + rest.value) == (out + [b]) + rest.value; }
  }

  /** `whole` is what was read so far, then `rest`. */
  ghost predicate Continues(whole: Option<seq<Bundle>>, out: seq<Bundle>, rest: Option<seq<Bundle>>) {
    (rest.None? ==> whole.None?) && (rest.Some? ==> whole == Some(out + rest.value))
  }

  // ---------------------------------------------------------------- properties

  /** Whatever the pieces decode to, a successful rebuild is one verified bundle for each
      missing lane, in order, under the agreed key. */
  lemma {:induction false} ParseSound(sch: Scheme, g: Geometry, client: nat, key: Bytes, blob: Bytes, lanes: seq<nat>)
    requires ParseLanes(sch, g, client, key, blob, lanes).Some?
    ensures var bs := ParseLanes(sch, g, client, key, blob, lanes).value;
            |bs| == |lanes| && forall i :: 0 <= i < |bs| ==> bs[i].client == client && Acceptable(sch, key, lanes[i], bs[i])
    decreases |lanes|
  {
    if lanes != [] {
      var head := UnpackBundle(g, client, blob);
      UsedWithin(g, client, blob);
      ParseSound(sch, g, client, key, blob[head.value.1..], lanes[1..]);
    }
  }

  lemma ParseHead(sch: Scheme, g: Geometry, client: nat, key: Bytes, b: Bundle, tail: Bytes, lanes: seq<nat>)
    requires Packs(g) && lanes != [] && OwnBundle(sch, g, client, key, lanes[0], b)
    requires ParseLanes(sch, g, client, key, tail, lanes[1..]).Some?
    ensures ParseLanes(sch, g, client, key, PackBundle(g, b).value + tail, lanes)
            == Some([b] + ParseLanes(sch, g, client, key, tail, lanes[1..]).value)
  {
    BundleRoundTrip(g, b, tail);
    var head := PackBundle(g, b).value;
    assert (head + tail)[|head|..] == tail;
  }

  lemma {:induction false} ParseBack(sch: Scheme, g: Geometry, client: nat, key: Bytes, bundles: seq<Bundle>, lanes: seq<nat>, rest: Bytes)
    requires Packs(g) && OwnBundles(sch, g, client, key, bundles) && Packable(g, bundles, lanes)
    ensures ParseLanes(sch, g, client, key, PackLanes(g, bundles, lanes) + rest, lanes) == Some(BundlesAt(bundles, lanes))
    decreases |lanes|
  {
    if lanes != [] {
      var b := bundles[lanes[0]];
      assert OwnBundle(sch, g, client, key, lanes[0], b);
      var tail := PackLanes(g, bundles, lanes[1..]) + rest;
      assert PackLanes(g, bundles, lanes) + rest == PackBundle(g, b).value + tail;
      ParseBack(sch, g, client, key, bundles, lanes[1..], rest);
      ParseHead(sch, g, client, key, b, tail, lanes);
    }
  }

  ghost predicate PoolOf(shares: seq<Share>, pool: map<nat, Share>) {
    forall i :: i in pool ==> i < |shares| && pool[i] == shares[i]
  }

  lemma EnoughSamples(sch: Scheme, e: Erasure, msg: seq<Poly>, pool: map<nat, Share>)
    requires Rebuilds(e) && 1 <= sch.k < sch.n && msg != [] && |pool| >= sch.n - sch.k
    requires PoolOf(e.encode(sch.n - sch.k, sch.n, msg), pool)
    ensures var out := Reconstructed(sch, e, pool); out.Some? && msg <= out.value
  {
    var m := sch.n - sch.k;
    SortedLength(pool.Keys);
    SamplesFit(e.encode(m, sch.n, msg), pool, Sorted(pool.Keys), m);
    assert CodeCase(e, m, sch.n, msg, Samples(pool, Sorted(pool.Keys), m));
  }

  lemma SamplesFit(shares: seq<Share>, pool: map<nat, Share>, idxs: seq<nat>, m: nat)
    requires m <= |idxs| && Ascending(idxs) && (forall i :: i in idxs ==> i in pool) && PoolOf(shares, pool)
    ensures var samples := Samples(pool, idxs, m);
            && |samples| == m && DistinctSamples(samples)
            && forall i :: 0 <= i < m ==> samples[i].0 < |shares| && samples[i].1 == shares[samples[i].0]
  {
    assert forall i :: 0 <= i < m ==> idxs[i] in idxs;
  }

  lemma BlobPolys(dim: nat, blob: Bytes)
    requires dim > 0
    ensures BlobToPolys(dim, blob) != []
  {
    PolyRunLength(dim, blob, 0, PolyCount(dim, |blob|));
    CountCovers(dim, |blob|);
  }

  /** Enough pieces of a coded blob decode to that blob, then padding. */
  lemma BlobDecodes(sch: Scheme, e: Erasure, packed: Bytes, pool: map<nat, Share>)
    requires Rebuilds(e) && 1 <= sch.k < sch.n && |pool| >= sch.n - sch.k
    requires PoolOf(e.encode(sch.n - sch.k, sch.n, BlobToPolys(e.dim, packed)), pool)
    ensures DecodedBlob(sch, e, pool).Some? && packed <= DecodedBlob(sch, e, pool).value
  {
    var msg := BlobToPolys(e.dim, packed);
    BlobPolys(e.dim, packed);
    EnoughSamples(sch, e, msg, pool);
    PrefixDecodes(e.dim, packed, Reconstructed(sch, e, pool).value);
  }

  lemma PrefixDecodes(dim: nat, packed: Bytes, out: seq<Poly>)
    requires dim > 0 && BlobToPolys(dim, packed) <= out
    ensures packed <= PolysToBlob(out)
  {
    var msg := BlobToPolys(dim, packed);
    assert out == msg + out[|msg|..];
    BlobRoundTrip(dim, packed, out[|msg|..]);
  }

  /** Repair round trip: any `n - k` or more of a client's fragments rebuild exactly its own
      bundles for the lanes that never acked, over the same covered lanes. */
  lemma RepairRoundTrip(
    sch: Scheme, g: Geometry, e: Erasure, client: nat, key: Bytes, bundles: seq<Bundle>,
    covered: seq<nat>, pool: map<nat, Share>)
    requires Packs(g) && Rebuilds(e) && 1 <= sch.k < sch.n && OwnBundles(sch, g, client, key, bundles)
    requires |covered| >= sch.n - sch.k && Missing(sch.n, covered) != []
    requires |pool| >= sch.n - sch.k
    requires var fs := BuildFragments(sch, g, e, client, key, bundles, covered);
             forall i :: i in pool ==> i < |fs| && pool[i] == fs[i].data
    ensures var missing := Missing(sch.n, covered);
            Rebuild(sch, g, e, pool, client, key, covered, missing) == Some(BundlesAt(bundles, missing))
  {
    var missing := Missing(sch.n, covered);
    var packed := PackLanes(g, bundles, missing);
    FragmentsData(sch, g, e, client, key, bundles, covered, pool);
    BlobDecodes(sch, e, packed, pool);
    ParsePrefix(sch, g, client, key, bundles, missing, DecodedBlob(sch, e, pool).value);
  }

  lemma ParsePrefix(sch: Scheme, g: Geometry, client: nat, key: Bytes, bundles: seq<Bundle>, lanes: seq<nat>, blob: Bytes)
    requires Packs(g) && OwnBundles(sch, g, client, key, bundles) && Packable(g, bundles, lanes)
    requires PackLanes(g, bundles, lanes) <= blob
    ensures ParseLanes(sch, g, client, key, blob, lanes) == Some(BundlesAt(bundles, lanes))
  {
    var packed := PackLanes(g, bundles, lanes);
    assert blob == packed + blob[|packed|..];
    ParseBack(sch, g, client, key, bundles, lanes, blob[|packed|..]);
  }

  lemma FragmentsData(
    sch: Scheme, g: Geometry, e: Erasure, client: nat, key: Bytes, bundles: seq<Bundle>, covered: seq<nat>, pool: map<nat, Share>)
    requires e.dim > 0 && 1 <= sch.k < sch.n && Packable(g, bundles, Missing(sch.n, covered))
    requires |covered| >= sch.n - sch.k && Missing(sch.n, covered) != []
    requires var fs := BuildFragments(sch, g, e, client, key, bundles, covered);
             forall i :: i in pool ==> i < |fs| && pool[i] == fs[i].data
    ensures PoolOf(e.encode(sch.n - sch.k, sch.n, BlobToPolys(e.dim, PackLanes(g, bundles, Missing(sch.n, covered)))), pool)
  {
    var shares := e.encode(sch.n - sch.k, sch.n, BlobToPolys(e.dim, PackLanes(g, bundles, Missing(sch.n, covered))));
    var fs := BuildFragments(sch, g, e, client, key, bundles, covered);
    assert |fs| == |shares| && forall i :: 0 <= i < |fs| ==> fs[i].data == shares[i];
  }

  /** The fragments are ones any server holding the client's key will store, one a lane. */
  lemma FragmentsSigned(
    sch: Scheme, g: Geometry, e: Erasure, client: nat, key: Bytes, bundles: seq<Bundle>, covered: seq<nat>)
    requires Rebuilds(e) && 1 <= sch.k < sch.n && Packable(g, bundles, Missing(sch.n, covered))
    requires forall m: Msg :: sch.clientVerify(key, m, sch.clientSign(key, m))
    requires |covered| >= sch.n - sch.k && Missing(sch.n, covered) != []
    ensures var fs := BuildFragments(sch, g, e, client, key, bundles, covered);
            |fs| == sch.n && forall i :: 0 <= i < |fs| ==> fs[i].client == client && fs[i].idx == i && FragmentSigned(sch, key, fs[i])
  {
    var packed := PackLanes(g, bundles, Missing(sch.n, covered));
    BlobPolys(e.dim, packed);
    assert Encodes(e, sch.n - sch.k, sch.n, BlobToPolys(e.dim, packed));
  }

  /** At full rate there is no redundancy to code with, and nothing is ever rebuilt. */
  lemma FullRateNeverRebuilds(
    sch: Scheme, g: Geometry, e: Erasure, pool: map<nat, Share>, client: nat, key: Bytes, covered: seq<nat>, missing: seq<nat>)
    requires sch.k >= sch.n
    ensures Rebuild(sch, g, e, pool, client, key, covered, missing) == None
  {
  }
}
