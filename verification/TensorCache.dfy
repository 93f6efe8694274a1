/** Specifications of tensors, their comparison, and the cache that lets constants with the
    same content share one tensor. */
module TensorCache {
  import opened GraphModel
  import opened GraphStore
  import opened TensorLayout

  type Byte = x: int | 0 <= x < 256
  type Payload = seq<Byte>
  type Digest = nat

  datatype DataType =
    | UNKNOWN | INT8 | UINT8 | INT16 | UINT16 | INT32 | UINT32 | INT64 | FLOAT16 | FLOAT32 | BOOL8 | INT4 | UINT4

  datatype QuantType = NONE | ASYMMETRIC | SYMMETRIC_PER_CHANNEL | ASYMMETRIC_PER_CHANNEL | DYNAMIC_FIXED_POINT

  datatype Quantization = Quantization(
    kind: QuantType, channelDim: int, scales: seq<real>, zeroPoints: seq<int>, fl: int)

  datatype Spec = Spec(dataType: DataType, shape: Shape, attrs: set<Attribute>, quantization: Quantization)

  // ---- sizes ----

  function ElementByteSize(d: DataType): nat {
    match d
    case INT8 | UINT8 | BOOL8 => 1
    case INT16 | UINT16 | FLOAT16 => 2
    case INT32 | UINT32 | FLOAT32 => 4
    case _ => 1
  }

  function ByteSize(s: Spec): nat {
    Size(s.shape) * ElementByteSize(s.dataType)
  }

  /** The bits of an element, as the name of its type says. */
  function Bits(d: DataType): nat {
    match d
    case UNKNOWN => 0
    case INT4 | UINT4 => 4
    case INT8 | UINT8 | BOOL8 => 8
    case INT16 | UINT16 | FLOAT16 => 16
    case INT32 | UINT32 | FLOAT32 => 32
    case INT64 => 64
  }

  predicate WholeBytes(d: DataType) {
    d != UNKNOWN && d != INT4 && d != UINT4
  }

  /** The bytes that the elements take. */
  function TrueBytes(s: Spec): nat {
    Size(s.shape) * (Bits(s.dataType) / 8)
  }

  /** The byte size is the true one exactly if the elements are not 64 bits wide, or there are
      none; of those only an eighth is counted.  Any other type counts as one byte. */
  lemma ByteSizeTrueExactlyWhen(s: Spec)
    ensures WholeBytes(s.dataType) ==> (ByteSize(s) == TrueBytes(s) <==> s.dataType != INT64 || Size(s.shape) == 0)
    ensures !WholeBytes(s.dataType) ==> ByteSize(s) == Size(s.shape)
  {
  }

  /** The accumulating loop over the dimensions. */
  method GetElementNum(s: Spec) returns (count: nat)
    ensures count == Size(s.shape)
  {
    count := 1;
    for i := 0 to |s.shape|
      invariant count * Size(s.shape[i..]) == Size(s.shape)
    {
      assert s.shape[i..][0] == s.shape[i] && s.shape[i..][1..] == s.shape[i + 1..];
      MulAssoc(count, s.shape[i], Size(s.shape[i + 1..]));
      count := count * s.shape[i];
    }
    assert s.shape[|s.shape|..] == [];
  }

  lemma MulAssoc(a: nat, b: nat, c: nat)
    ensures a * (b * c) == (a * b) * c
  {
  }

  /** A transposition conserves the byte size as well as the element count. */
  lemma ByteSizeConserved(s: Spec, p: seq<nat>)
    requires Fits(p, s.shape)
    ensures ByteSize(s.(shape := Permutations.Gather(s.shape, p))) == ByteSize(s)
  {
    SizeConserved(s.shape, p);
  }

  // ---- comparison ----

  /** The comparison as written: a fixed-point quantization on the left looks at nothing
      but the fraction length. */
  predicate QuantEquals(a: Quantization, b: Quantization) {
    if a.kind != DYNAMIC_FIXED_POINT then
      a.kind == b.kind && a.scales == b.scales && a.zeroPoints == b.zeroPoints && a.channelDim == b.channelDim
    else a.fl == b.fl
  }

  predicate SpecEquals(a: Spec, b: Spec) {
    a.dataType == b.dataType && a.shape == b.shape && a.attrs == b.attrs && QuantEquals(a.quantization, b.quantization)
  }

  predicate FixedPoint(q: Quantization) {
    q.kind == DYNAMIC_FIXED_POINT
  }

  /** The comparison is symmetric at a pair exactly when both or neither are fixed-point, or
      the fraction lengths differ. */
  lemma QuantSymmetricIff(a: Quantization, b: Quantization)
    ensures (QuantEquals(a, b) <==> QuantEquals(b, a)) <==> (a.fl != b.fl || (FixedPoint(a) <==> FixedPoint(b)))
  {
  }

  /** What compares equal to a: with a fixed-point a whatever has its fraction length, otherwise
      whatever agrees on everything else. */
  lemma QuantEqualsMeans(a: Quantization, b: Quantization)
    ensures FixedPoint(a) ==> (QuantEquals(a, b) <==> a.fl == b.fl)
    ensures !FixedPoint(a) ==> (QuantEquals(a, b) <==> a == b.(fl := a.fl))
  {
  }

  /** Among quantizations that are not fixed-point the comparison is equality of everything
      but the fraction length. */
  lemma SpecEqualsMeans(a: Spec, b: Spec)
    requires !FixedPoint(a.quantization)
    ensures SpecEquals(a, b) <==> a == b.(quantization := b.quantization.(fl := a.quantization.fl))
  {
  }

  // ---- the cache key ----

  const WORD: nat := 0x1_0000_0000
  const PREFIX: nat := 512

  function KeyWidth(d: DataType): nat {
    match d
    case INT16 | UINT16 | FLOAT16 => 2
    case INT32 | UINT32 | FLOAT32 => 4
    case INT64 => 8
    case _ => 1
  }

  /** The 32-bit product of the dimensions and the width. */
  function KeyBytes(s: Spec): (n: nat)
    ensures n < WORD
  {
    (Size(s.shape) * KeyWidth(s.dataType)) % WORD
  }

  /** How many leading bytes of a payload the key covers. */
  function Covered(s: Spec): nat {
    if KeyBytes(s) < PREFIX then KeyBytes(s) else PREFIX
  }

  /** What the wrapped product of the first i lengths has to do with the whole one. */
  ghost predicate Wrapped(size: nat, shape: Shape, i: nat)
    requires i <= |shape|
  {
    size < WORD && (size * Size(shape[i..])) % WORD == Size(shape) % WORD
  }

  lemma WrappedFirst(shape: Shape)
    ensures Wrapped(1, shape, 0)
  {
    assert shape[0..] == shape;
  }

  lemma WrappedNext(size: nat, shape: Shape, i: nat)
    requires i < |shape| && Wrapped(size, shape, i)
    ensures Wrapped((size * shape[i]) % WORD, shape, i + 1)
  {
    assert shape[i..][0] == shape[i] && shape[i..][1..] == shape[i + 1..];
    MulAssoc(size, shape[i], Size(shape[i + 1..]));
    ModMul(size * shape[i], Size(shape[i + 1..]));
  }

  lemma WrappedLast(size: nat, s: Spec)
    requires Wrapped(size, s.shape, |s.shape|)
    ensures (size * KeyWidth(s.dataType)) % WORD == KeyBytes(s)
  {
    assert s.shape[|s.shape|..] == [];
    ModMul(Size(s.shape), KeyWidth(s.dataType));
  }

  /** The size loop, in 32-bit arithmetic, wraps to the same value as the exact product. */
  method KeyByteLoop(s: Spec) returns (size: nat)
    ensures size == KeyBytes(s)
    ensures WholeBytes(s.dataType) ==> size == TrueBytes(s) % 0x1_0000_0000
  {
    if WholeBytes(s.dataType) { KeyIsTrue(s); }
    hide Wrapped; hide KeyBytes;
    size := 1;
    WrappedFirst(s.shape);
    for i := 0 to |s.shape|
      invariant Wrapped(size, s.shape, i)
    {
      WrappedNext(size, s.shape, i);
      size := (size * s.shape[i]) % WORD;
    }
    WrappedLast(size, s);
    size := (size * KeyWidth(s.dataType)) % WORD;
  }

  lemma ModMul(a: nat, b: nat)
    ensures ((a % WORD) * b) % WORD == (a * b) % WORD
  {
    var q := a / WORD;
    assert a == WORD * q + a % WORD;
    MulAssoc(WORD, q, b);
    ModAdd(q * b, (a % WORD) * b);
  }

  lemma ModAdd(k: nat, x: nat)
    ensures (WORD * k + x) % WORD == x % WORD
  {
  }

  /** In the key every type has its true width. */
  lemma KeyWidths()
    ensures forall d: DataType | WholeBytes(d) :: 8 * KeyWidth(d) == Bits(d)
    ensures KeyWidth(INT8) == KeyWidth(UINT8) == KeyWidth(BOOL8) == 1 && KeyWidth(INT16) == KeyWidth(UINT16) == KeyWidth(FLOAT16) == 2
    ensures KeyWidth(INT32) == KeyWidth(UINT32) == KeyWidth(FLOAT32) == 4 && KeyWidth(INT64) == 8
    ensures KeyWidth(UNKNOWN) == KeyWidth(INT4) == KeyWidth(UINT4) == 1
  {
  }

  lemma KeyIsTrue(s: Spec)
    requires WholeBytes(s.dataType)
    ensures KeyBytes(s) == TrueBytes(s) % 0x1_0000_0000
  {
    KeyWidths();
    assert Bits(s.dataType) / 8 == KeyWidth(s.dataType);
  }

  // ---- the cache ----

  datatype Stored = Stored(spec: Spec, data: Payload)

  /** Cached entries, and the content of every tensor made through the cache. */
  datatype Cache = Cache(entries: map<Digest, Tensor>, tensors: map<Tensor, Stored>, next: Tensor)

  const EMPTY_CACHE: Cache := Cache(map[], map[], 0)

  function Key(digest: Payload -> Digest, s: Spec, data: Payload): Digest
    requires Covered(s) <= |data|
  {
    digest(data[..Covered(s)])
  }

  predicate Hit(digest: Payload -> Digest, c: Cache, s: Spec, data: Payload)
    requires Covered(s) <= |data|
  {
    var k := Key(digest, s, data);
    k in c.entries && c.entries[k] in c.tensors && SpecEquals(c.tensors[c.entries[k]].spec, s)
  }

  /** The tensor handed out, and the cache afterwards. */
  function Lookup(digest: Payload -> Digest, c: Cache, s: Spec, data: Payload): (Tensor, Cache)
    requires Covered(s) <= |data|
  {
    var k := Key(digest, s, data);
    if Hit(digest, c, s, data) then (c.entries[k], c)
    else (c.next, Cache(c.entries[k := c.next], c.tensors[c.next := Stored(s, data)], c.next + 1))
  }

  datatype Request = Request(spec: Spec, data: Payload)

  /** Buffers hold at least the bytes the key covers. */
  predicate Supplied(r: Request) {
    Covered(r.spec) <= |r.data|
  }

  function Serve(digest: Payload -> Digest, c: Cache, rs: seq<Request>): Cache
    requires forall r | r in rs :: Supplied(r)
    decreases |rs|
  {
    if rs == [] then c
    else
      assert rs[0] in rs && Supplied(rs[0]);
      assert forall r | r in rs[1..] :: r in rs;
      Serve(digest, Lookup(digest, c, rs[0].spec, rs[0].data).1, rs[1..])
  }

  ghost predicate InjectiveDigest(digest: Payload -> Digest) {
    forall a: Payload, b: Payload :: digest(a) == digest(b) ==> a == b
  }

  /** Each entry leads to a tensor whose own content hashes to the entry's key. */
  ghost predicate Honest(digest: Payload -> Digest, c: Cache) {
    && (forall t | t in c.tensors :: t < c.next && Covered(c.tensors[t].spec) <= |c.tensors[t].data|)
    && (forall k | k in c.entries ::
          c.entries[k] in c.tensors
          && Key(digest, c.tensors[c.entries[k]].spec, c.tensors[c.entries[k]].data) == k)
  }

  lemma {:induction false} ServeHonest(digest: Payload -> Digest, c: Cache, rs: seq<Request>)
    requires Honest(digest, c) && forall r | r in rs :: Supplied(r)
    ensures Honest(digest, Serve(digest, c, rs))
    decreases |rs|
  {
    if rs != [] {
      assert rs[0] in rs;
      assert forall r | r in rs[1..] :: r in rs;
      ServeHonest(digest, Lookup(digest, c, rs[0].spec, rs[0].data).1, rs[1..]);
    }
  }

  /** Nothing in the cache is fixed-point. */
  ghost predicate NoFixedPoint(c: Cache) {
    forall t | t in c.tensors :: !FixedPoint(c.tensors[t].spec.quantization)
  }

  lemma {:induction false} ServeNoFixedPoint(digest: Payload -> Digest, c: Cache, rs: seq<Request>)
    requires NoFixedPoint(c) && forall r | r in rs :: Supplied(r) && !FixedPoint(r.spec.quantization)
    ensures NoFixedPoint(Serve(digest, c, rs))
    decreases |rs|
  {
    if rs != [] {
      assert rs[0] in rs;
      assert forall r | r in rs[1..] :: r in rs;
      ServeNoFixedPoint(digest, Lookup(digest, c, rs[0].spec, rs[0].data).1, rs[1..]);
    }
  }

  /** Transparency: after any run of requests without fixed-point specifications, the tensor
      handed out has the requested specification up to the unused fraction length, agrees
      with the request on every covered byte, and holds exactly the requested payload when
      the payload is no longer than what the key covers. */
  lemma CacheTransparent(digest: Payload -> Digest, rs: seq<Request>, r: Request)
    requires InjectiveDigest(digest)
    requires (forall x | x in rs :: Supplied(x) && !FixedPoint(x.spec.quantization)) && Supplied(r)
    ensures var (t, c) := Lookup(digest, Serve(digest, EMPTY_CACHE, rs), r.spec, r.data);
            && t in c.tensors
            && SpecEquals(c.tensors[t].spec, r.spec)
            && Covered(r.spec) <= |c.tensors[t].data|
            && c.tensors[t].data[..Covered(r.spec)] == r.data[..Covered(r.spec)]
            && (|r.data| == Covered(r.spec) && |c.tensors[t].data| == |r.data| ==> c.tensors[t].data == r.data)
  {
    var c := Serve(digest, EMPTY_CACHE, rs);
    ServeHonest(digest, EMPTY_CACHE, rs);
    ServeNoFixedPoint(digest, EMPTY_CACHE, rs);
    if Hit(digest, c, r.spec, r.data) {
      var held := c.tensors[c.entries[Key(digest, r.spec, r.data)]];
      assert Key(digest, held.spec, held.data) == Key(digest, r.spec, r.data);
      SpecEqualsMeans(held.spec, r.spec);
      if |r.data| == Covered(r.spec) && |held.data| == |r.data| {
        assert held.data == held.data[..Covered(r.spec)] && r.data == r.data[..Covered(r.spec)];
      }
    }
  }

  // ---- payloads of full length ----

  /** The payload has as many bytes as its elements take, fewer than 32 bits can count. */
  predicate Full(r: Request) {
    WholeBytes(r.spec.dataType) && |r.data| == TrueBytes(r.spec) && |r.data| < 0x1_0000_0000
  }

  /** The key covers the whole of a payload below 512 bytes, and 512 bytes of a longer one. */
  lemma FullCovered(r: Request)
    requires Full(r)
    ensures Supplied(r) && Covered(r.spec) == if |r.data| < 512 then |r.data| else 512
  {
    KeyIsTrue(r.spec);
  }

  /** Every tensor in the cache has its full content. */
  ghost predicate AllFull(c: Cache) {
    forall t | t in c.tensors :: Full(Request(c.tensors[t].spec, c.tensors[t].data))
  }

  lemma {:induction false} ServeFull(digest: Payload -> Digest, c: Cache, rs: seq<Request>)
    requires AllFull(c) && forall r | r in rs :: Full(r) && Supplied(r)
    ensures AllFull(Serve(digest, c, rs))
    decreases |rs|
  {
    if rs != [] {
      assert rs[0] in rs;
      assert forall r | r in rs[1..] :: r in rs;
      ServeFull(digest, Lookup(digest, c, rs[0].spec, rs[0].data).1, rs[1..]);
    }
  }

  /** What the tensor handed out has in common with the request, after any run: type, shape and
      attributes, and of the quantization the fraction length if the tensor's is fixed-point and
      everything else if it is not. */
  predicate Matches(held: Spec, s: Spec) {
    && held.dataType == s.dataType && held.shape == s.shape && held.attrs == s.attrs
    && if held.quantization.kind == DYNAMIC_FIXED_POINT then held.quantization.fl == s.quantization.fl
       else held.quantization == s.quantization.(fl := held.quantization.fl)
  }

  lemma LookupMatches(digest: Payload -> Digest, rs: seq<Request>, r: Request)
    requires InjectiveDigest(digest) && Supplied(r) && forall x | x in rs :: Supplied(x)
    ensures var (t, c) := Lookup(digest, Serve(digest, EMPTY_CACHE, rs), r.spec, r.data);
            && t in c.tensors && Matches(c.tensors[t].spec, r.spec) && Covered(r.spec) <= |c.tensors[t].data|
            && c.tensors[t].data[..Covered(r.spec)] == r.data[..Covered(r.spec)]
  {
    var c := Serve(digest, EMPTY_CACHE, rs);
    ServeHonest(digest, EMPTY_CACHE, rs);
    if Hit(digest, c, r.spec, r.data) {
      var held := c.tensors[c.entries[Key(digest, r.spec, r.data)]];
      assert Key(digest, held.spec, held.data) == Key(digest, r.spec, r.data);
      QuantEqualsMeans(held.spec.quantization, r.spec.quantization);
      assert Covered(held.spec) == Covered(r.spec);
    }
  }

  /** After any run of requests with full payloads the tensor handed out holds exactly the payload
      asked for if that is shorter than 512 bytes, and its first 512 bytes and its length otherwise. */
  lemma CacheExact(digest: Payload -> Digest, rs: seq<Request>, r: Request)
    requires InjectiveDigest(digest) && Full(r) && forall x | x in rs :: Full(x)
    ensures Supplied(r) && forall x | x in rs :: Supplied(x)
    ensures var (t, c) := Lookup(digest, Serve(digest, EMPTY_CACHE, rs), r.spec, r.data);
            && t in c.tensors && |c.tensors[t].data| == |r.data|
            && (if |r.data| < 512 then c.tensors[t].data == r.data else c.tensors[t].data[..512] == r.data[..512])
  {
    FullCovered(r);
    forall x | x in rs ensures Supplied(x) { FullCovered(x); }
    ServeFull(digest, EMPTY_CACHE, rs);
    LookupMatches(digest, rs, r);
    var (t, c) := Lookup(digest, Serve(digest, EMPTY_CACHE, rs), r.spec, r.data);
    assert |c.tensors[t].data| == |r.data|;
    if |r.data| < 512 {
      assert c.tensors[t].data == c.tensors[t].data[..|r.data|] && r.data == r.data[..|r.data|];
    }
  }

  ghost predicate OnlyFixedPoint(c: Cache) {
    forall t | t in c.tensors :: FixedPoint(c.tensors[t].spec.quantization)
  }

  lemma {:induction false} ServeFixedPoint(digest: Payload -> Digest, c: Cache, rs: seq<Request>)
    requires OnlyFixedPoint(c) && forall r | r in rs :: Supplied(r) && FixedPoint(r.spec.quantization)
    ensures OnlyFixedPoint(Serve(digest, c, rs))
    decreases |rs|
  {
    if rs != [] {
      assert rs[0] in rs;
      assert forall r | r in rs[1..] :: r in rs;
      ServeFixedPoint(digest, Lookup(digest, c, rs[0].spec, rs[0].data).1, rs[1..]);
    }
  }

  /** Where everything is fixed-point the tensor handed out is as well, with the fraction length
      asked for. */
  lemma FixedPointTransparent(digest: Payload -> Digest, rs: seq<Request>, r: Request)
    requires InjectiveDigest(digest) && Supplied(r) && FixedPoint(r.spec.quantization)
    requires forall x | x in rs :: Supplied(x) && FixedPoint(x.spec.quantization)
    ensures var (t, c) := Lookup(digest, Serve(digest, EMPTY_CACHE, rs), r.spec, r.data);
            && t in c.tensors && c.tensors[t].spec.quantization.kind == DYNAMIC_FIXED_POINT
            && c.tensors[t].spec.quantization.fl == r.spec.quantization.fl
            && c.tensors[t].spec.dataType == r.spec.dataType && c.tensors[t].spec.shape == r.spec.shape
            && Covered(r.spec) <= |c.tensors[t].data| && c.tensors[t].data[..Covered(r.spec)] == r.data[..Covered(r.spec)]
  {
    ServeFixedPoint(digest, EMPTY_CACHE, rs);
    LookupMatches(digest, rs, r);
  }

  /** When sharing happens: asking again with the same specification returns the tensor just
      made exactly when the covered bytes agree; what lies beyond them is never compared. */
  lemma SharedIffPrefixAgrees(digest: Payload -> Digest, c: Cache, s: Spec, a: Payload, b: Payload)
    requires InjectiveDigest(digest) && Honest(digest, c) && Covered(s) <= |a| && Covered(s) <= |b|
    requires !Hit(digest, c, s, a) && !Hit(digest, c, s, b)
    ensures var (t, d) := Lookup(digest, c, s, a);
            Lookup(digest, d, s, b).0 == t <==> a[..Covered(s)] == b[..Covered(s)]
  {
    var (t, d) := Lookup(digest, c, s, a);
    var k := Key(digest, s, b);
    if a[..Covered(s)] != b[..Covered(s)] {
      assert k != Key(digest, s, a);
      assert !Hit(digest, d, s, b);
    } else {
      assert SpecEquals(s, s);
    }
  }

  /** A fixed-point entry answers a request it does not fit: the asymmetric comparison makes
      an asymmetric request receive a fixed-point tensor. */
  lemma FixedPointLeaks(digest: Payload -> Digest, s: Spec, z: Spec, data: Payload)
    requires FixedPoint(s.quantization) && !FixedPoint(z.quantization)
    requires z == s.(quantization := z.quantization) && z.quantization.fl == s.quantization.fl
    requires Covered(s) <= |data|
    ensures var (t, c) := Lookup(digest, EMPTY_CACHE, s, data);
            && Lookup(digest, c, z, data) == (t, c)
            && c.tensors[t].spec.quantization.kind != z.quantization.kind
            && Lookup(digest, Lookup(digest, EMPTY_CACHE, z, data).1, s, data).0 != Lookup(digest, EMPTY_CACHE, z, data).0
  {
  }

  /** The cache as a field of the graph. */
  class CachedTensors {
    const digest: Payload -> Digest
    var entries: map<Digest, Tensor>
    var tensors: map<Tensor, Stored>
    var next: Tensor

    function View(): Cache
      reads this
    {
      Cache(entries, tensors, next)
    }

    constructor (digest: Payload -> Digest)
      ensures this.digest == digest && View() == EMPTY_CACHE
    {
      this.digest := digest;
      entries, tensors, next := map[], map[], 0;
    }

    method CalculateCacheKey(s: Spec, data: Payload) returns (k: Digest)
      requires Covered(s) <= |data|
      ensures k == Key(digest, s, data)
      ensures Full(Request(s, data)) ==> k == digest(if |data| < 512 then data else data[..512])
    {
      if Full(Request(s, data)) {
        FullCovered(Request(s, data));
        assert data[..|data|] == data;
      }
      var size := KeyByteLoop(s);
      if size < PREFIX {
        k := digest(data[..size]);
      } else {
        k := digest(data[..PREFIX]);
      }
    }

    /** Reuse the tensor under the key if its specification compares equal, otherwise make a
        new tensor and let it take over the key. */
    method GetTensorFromCache(s: Spec, data: Payload) returns (t: Tensor)
      requires Covered(s) <= |data|
      requires Honest(digest, View())
      modifies this
      ensures (t, View()) == Lookup(digest, old(View()), s, data)
      ensures Honest(digest, View()) && t in tensors && Matches(tensors[t].spec, s)
    {
      var k := CalculateCacheKey(s, data);
      if k in entries && SpecEquals(tensors[entries[k]].spec, s) {
        t := entries[k];
      } else {
        t := next;
        tensors := tensors[t := Stored(s, data)];
        entries := entries[k := t];
        next := next + 1;
      }
    }
  }
}
