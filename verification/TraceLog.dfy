/** Recording parameter data into one binary log and reading it back.  Elements are byte
    strings of a fixed size, as they lie in memory. */
module TraceLog {

  type Byte = bv8

  const UINT32: nat := 0x1_0000_0000

  /** A dump: count elements of size bytes each. */
  datatype Dump = Dump(size: nat, elements: seq<seq<Byte>>)

  predicate Proper(d: Dump) {
    d.size > 0 && forall e | e in d.elements :: |e| == d.size
  }

  function Flatten(es: seq<seq<Byte>>): seq<Byte> {
    if es == [] then [] else Flatten(es[..|es| - 1]) + es[|es| - 1]
  }

  function Bytes(d: Dump): (b: seq<Byte>)
  {
    Flatten(d.elements)
  }

  lemma Successor(size: nat, n: nat)
    ensures size * (n + 1) == size * n + size
  {
  }

  lemma {:induction false} FlattenSize(es: seq<seq<Byte>>, size: nat)
    requires forall e | e in es :: |e| == size
    ensures |Flatten(es)| == size * |es|
  {
    if es != [] {
      var front := es[..|es| - 1];
      FlattenSize(front, size);
      assert es[|es| - 1] in es;
      Successor(size, |front|);
    }
  }

  lemma {:induction false} FlattenAt(es: seq<seq<Byte>>, size: nat, k: nat)
    requires (forall e | e in es :: |e| == size) && k < |es|
    ensures var lo := |Flatten(es[..k])|; lo + size <= |Flatten(es)| && Flatten(es)[lo..lo + size] == es[k]
    decreases |es|
  {
    var front, last := es[..|es| - 1], es[|es| - 1];
    assert last in es && Flatten(es) == Flatten(front) + last;
    if k < |front| {
      FlattenAt(front, size, k);
      assert es[..k] == front[..k];
      SliceOfFront(Flatten(front), last, |Flatten(front[..k])|, size);
    } else {
      SliceOfBack(Flatten(front), last, size);
    }
  }

  /** Element k of the bytes. */
  lemma FlattenPrefix(es: seq<seq<Byte>>, size: nat, k: nat)
    requires (forall e | e in es :: |e| == size) && k < |es|
    ensures size * k + size <= |Flatten(es)| && Flatten(es)[size * k..size * k + size] == es[k]
  {
    FlattenAt(es, size, k);
    FlattenSize(es[..k], size);
  }

  lemma SliceOfFront<T>(s: seq<T>, t: seq<T>, lo: nat, len: nat)
    requires lo + len <= |s|
    ensures (s + t)[lo..lo + len] == s[lo..lo + len]
  {
  }

  lemma SliceOfBack<T>(s: seq<T>, t: seq<T>, len: nat)
    requires |t| == len
    ensures (s + t)[|s|..|s| + len] == t
  {
  }

  /** The log and the running offset, which is 32 bits wide. */
  datatype State = State(bin: seq<Byte>, offset: nat)

  const EMPTY: State := State([], 0)

  function Record(st: State, d: Dump): State {
    State(st.bin + Bytes(d), (st.offset + |Bytes(d)|) % UINT32)
  }

  /** The state after the first n of a sequence of dumps.  Any interleaving of calls is such a
      sequence, since each call holds the lock. */
  function After(ds: seq<Dump>, n: nat): State
    requires n <= |ds|
  {
    if n == 0 then EMPTY else Record(After(ds, n - 1), ds[n - 1])
  }

  /** The whole log. */
  function Log(ds: seq<Dump>): seq<Byte> {
    After(ds, |ds|).bin
  }

  /** The offset the log line of dump i names. */
  function RecordedOffset(ds: seq<Dump>, i: nat): nat
    requires i < |ds|
  {
    After(ds, i).offset
  }

  /** Where dump i really starts. */
  function Start(ds: seq<Dump>, i: nat): nat
    requires i <= |ds|
  {
    |After(ds, i).bin|
  }

  /** Reading count elements of size bytes at an offset; nothing if the log is too short. */
  function ReadAt(bin: seq<Byte>, offset: nat, size: nat, count: nat): (r: seq<seq<Byte>>)
  {
    if count == 0 then []
    else if offset + size * count > |bin| then []
    else seq(count, k requires 0 <= k < count => Chunk(bin, offset, size, count, k))
  }

  lemma TimesMonotone(size: nat, a: nat, b: nat)
    requires a <= b
    ensures size * a <= size * b
  {
  }

  lemma ChunkWithin(size: nat, count: nat, k: nat)
    requires k < count
    ensures size * k + size <= size * count
  {
    Successor(size, k);
    TimesMonotone(size, k + 1, count);
  }

  function Chunk(bin: seq<Byte>, offset: nat, size: nat, count: nat, k: nat): seq<Byte>
    requires k < count && offset + size * count <= |bin|
  {
    ChunkWithin(size, count, k);
    bin[offset + size * k..offset + size * k + size]
  }

  lemma {:induction false} PrefixStays(ds: seq<Dump>, i: nat, n: nat)
    requires i <= n <= |ds|
    ensures After(ds, i).bin <= After(ds, n).bin
    decreases n
  {
    if i < n {
      PrefixStays(ds, i, n - 1);
      assert After(ds, n - 1).bin <= After(ds, n).bin;
    }
  }

  lemma PrefixPart<T>(s: seq<T>, t: seq<T>, a: nat)
    requires s <= t && a <= |s|
    ensures t[a..|s|] == s[a..]
  {
    assert t[..|s|] == s;
  }

  /** Ranges follow one another: where one ends the next starts, from the beginning of the
      log to its end. */
  lemma Contiguous(ds: seq<Dump>, i: nat)
    requires i < |ds|
    ensures Start(ds, 0) == 0 && Start(ds, |ds|) == |Log(ds)|
    ensures Start(ds, i + 1) == Start(ds, i) + |Bytes(ds[i])| <= |Log(ds)|
    ensures Log(ds)[Start(ds, i)..Start(ds, i + 1)] == Bytes(ds[i])
  {
    PrefixStays(ds, i + 1, |ds|);
    PrefixPart(After(ds, i + 1).bin, Log(ds), Start(ds, i));
  }

  lemma {:induction false} StartsGrow(ds: seq<Dump>, i: nat, j: nat)
    requires i <= j <= |ds|
    ensures Start(ds, i) <= Start(ds, j)
    decreases j - i
  {
    if i < j {
      StartsGrow(ds, i, j - 1);
      Contiguous(ds, j - 1);
    }
  }

  /** Every byte of the log belongs to exactly one dump's range. */
  lemma {:induction false} Covered(ds: seq<Dump>, at: nat, n: nat) returns (i: nat)
    requires n <= |ds| && at < Start(ds, n)
    ensures i < n && Start(ds, i) <= at < Start(ds, i + 1)
    ensures forall j: nat | j < |ds| && Start(ds, j) <= at < Start(ds, j + 1) :: j == i
    decreases n
  {
    if at < Start(ds, n - 1) {
      i := Covered(ds, at, n - 1);
    } else {
      i := n - 1;
      forall j: nat | j < |ds| && Start(ds, j) <= at < Start(ds, j + 1) ensures j == i {
        if j < i { StartsGrow(ds, j + 1, i); }
        if i < j { StartsGrow(ds, i + 1, j); }
      }
    }
  }

  lemma {:induction false} OffsetIsStart(ds: seq<Dump>, n: nat)
    requires n <= |ds|
    ensures After(ds, n).offset == Start(ds, n) % UINT32
  {
    if n > 0 {
      OffsetIsStart(ds, n - 1);
      AddModulo(Start(ds, n - 1), |Bytes(ds[n - 1])|);
    }
  }

  lemma AddModulo(a: nat, b: nat)
    ensures (a % UINT32 + b) % UINT32 == (a + b) % UINT32
  {
  }

  /** Reading a range of the log where the elements of d lie gives those elements. */
  lemma ReadsElements(bin: seq<Byte>, at: nat, d: Dump)
    requires Proper(d) && at + |Bytes(d)| <= |bin| && bin[at..at + |Bytes(d)|] == Bytes(d)
    ensures ReadAt(bin, at, d.size, |d.elements|) == d.elements
  {
    FlattenSize(d.elements, d.size);
    var r := ReadAt(bin, at, d.size, |d.elements|);
    assert |r| == |d.elements|;
    forall k | 0 <= k < |d.elements| ensures r[k] == d.elements[k] {
      FlattenPrefix(d.elements, d.size, k);
      ChunkOfBytes(bin, at, d, k);
    }
  }

  lemma SliceOfSlice<T>(s: seq<T>, a: nat, n: nat, lo: nat, len: nat)
    requires a + n <= |s| && lo + len <= n
    ensures s[a..a + n][lo..lo + len] == s[a + lo..a + lo + len]
  {
    var x, y := s[a..a + n][lo..lo + len], s[a + lo..a + lo + len];
    forall i | 0 <= i < len ensures x[i] == y[i] {
      assert s[a..a + n][lo + i] == s[a + lo + i];
    }
    assert x == y;
  }

  lemma ChunkOfBytes(bin: seq<Byte>, at: nat, d: Dump, k: nat)
    requires at + |Bytes(d)| <= |bin| && bin[at..at + |Bytes(d)|] == Bytes(d) && k < |d.elements|
    requires |Bytes(d)| == d.size * |d.elements| && d.size * k + d.size <= |Bytes(d)|
    ensures Chunk(bin, at, d.size, |d.elements|, k) == Bytes(d)[d.size * k..d.size * k + d.size]
  {
    SliceOfSlice(bin, at, |Bytes(d)|, d.size * k, d.size);
  }

  lemma TrueOffset(ds: seq<Dump>, i: nat)
    requires i < |ds|
    ensures RecordedOffset(ds, i) == Start(ds, i) <==> Start(ds, i) < 0x1_0000_0000
  {
    OffsetIsStart(ds, i);
  }

  /** The length the log line names. */
  function RecordedCount(d: Dump): (n: nat)
    ensures n < UINT32
  {
    |d.elements| % UINT32
  }

  /** The round trip: after any run of dumps, the recorded offset and length of a dump that
      starts below 2^32 read back exactly its elements, if and only if there are fewer than
      2^32 of them. */
  lemma ReplayRoundTrip(ds: seq<Dump>, i: nat)
    requires i < |ds| && Proper(ds[i]) && Start(ds, i) < 0x1_0000_0000
    ensures ReadAt(Log(ds), RecordedOffset(ds, i), ds[i].size, RecordedCount(ds[i])) == ds[i].elements
            <==> |ds[i].elements| < 0x1_0000_0000
  {
    hide Log; hide RecordedOffset; hide Start;
    TrueOffset(ds, i);
    Contiguous(ds, i);
    if |ds[i].elements| < UINT32 {
      ReadsElements(Log(ds), Start(ds, i), ds[i]);
    } else {
      ReadsNoMore(Log(ds), RecordedOffset(ds, i), ds[i].size, RecordedCount(ds[i]));
    }
  }

  lemma ReadsNoMore(bin: seq<Byte>, offset: nat, size: nat, count: nat)
    ensures |ReadAt(bin, offset, size, count)| <= count
  {
  }

  /** Past 2^32 bytes the recorded offset wraps, and a byte dumped there reads back as the
      first byte of the log. */
  lemma WrappedReplay(first: Dump, b: Byte)
    requires |Bytes(first)| == 0x1_0000_0000
    ensures RecordedOffset([first, Dump(1, [[b]])], 1) == 0
    ensures ReadAt(Log([first, Dump(1, [[b]])]), 0, 1, 1) == [[Bytes(first)[0]]]
  {
    var ds := [first, Dump(1, [[b]])];
    assert After(ds, 1) == Record(EMPTY, first);
    Contiguous(ds, 0);
    assert Log(ds)[0..UINT32] == Bytes(first);
    assert Chunk(Log(ds), 0, 1, 1, 0) == [Bytes(first)[0]];
  }

  // ---- the tracer and the replayer ----

  class Tracer {
    var bin: seq<Byte>
    var offset: nat

    function View(): State
      reads this
    {
      State(bin, offset)
    }

    constructor ()
      ensures View() == EMPTY
    {
      bin, offset := [], 0;
    }

    /** Write the elements and return where they start; one call at a time. */
    method DumpData(data: seq<Byte>, byteSize: nat, count: nat) returns (at: nat)
      requires |data| == byteSize * count
      modifies this
      ensures at == old(offset)
      ensures View() == State(old(bin) + data, (old(offset) + byteSize * count) % 0x1_0000_0000)
    {
      bin := bin + data;
      at := offset;
      offset := (offset + byteSize * count) % UINT32;
    }

    /** Dump a vector or an array and name its place: the offset and length of the log line. */
    method LoggingParam(ghost ds: seq<Dump>, d: Dump) returns (at: nat, count: nat)
      requires View() == After(ds, |ds|) && Proper(d)
      modifies this
      ensures View() == After(ds + [d], |ds| + 1)
      ensures at == RecordedOffset(ds + [d], |ds|) && count == RecordedCount(d)
    {
      FlattenSize(d.elements, d.size);
      at := DumpData(Bytes(d), d.size, |d.elements|);
      count := |d.elements| % UINT32;
      AfterAppend(ds, d, |ds|);
    }
  }

  class Replayer {
    const file: seq<Byte>
    var position: nat

    constructor (bin: seq<Byte>)
      ensures file == bin
    {
      file, position := bin, 0;
    }

    /** Read up to count elements at the position; a partial element is not counted. */
    method Fread(size: nat, count: nat) returns (buffer: seq<seq<Byte>>)
      requires size > 0
      modifies this`position
      ensures |buffer| <= count
      ensures |buffer| == count <==> count == 0 || old(position) + size * count <= |file|
      ensures |buffer| == count > 0 ==> buffer == ReadAt(file, old(position), size, count)
    {
      buffer := [];
      while |buffer| < count && position + size <= |file|
        invariant |buffer| <= count
        invariant position == old(position) + size * |buffer|
        invariant |buffer| > 0 ==> position <= |file|
        invariant forall k | 0 <= k < |buffer| ::
                    old(position) + size * k + size <= |file|
                    && buffer[k] == file[old(position) + size * k..old(position) + size * k + size]
        decreases count - |buffer|
      {
        Successor(size, |buffer|);
        InRange(file, size, old(position), buffer);
        buffer := buffer + [file[position..position + size]];
        position := position + size;
      }
      if |buffer| < count { TooShort(size, |buffer|, count); }
    }

    method GetVector(offset: nat, size: nat, count: nat) returns (r: seq<seq<Byte>>)
      requires size > 0
      modifies this`position
      ensures r == ReadAt(file, offset, size, count)
    {
      position := offset;
      var buffer := Fread(size, count);
      r := if |buffer| == count then buffer else [];
    }

    /** Copy the vector read into an array; on a failed read the array keeps what it held. */
    method GetArray(offset: nat, size: nat, count: nat, arr: array<seq<Byte>>)
      requires size > 0 && count <= arr.Length
      modifies this`position, arr
      ensures var r := ReadAt(file, offset, size, count);
              forall k | 0 <= k < arr.Length :: arr[k] == if k < |r| then r[k] else old(arr[k])
    {
      var r := GetVector(offset, size, count);
      for i := 0 to |r|
        invariant forall k | 0 <= k < arr.Length :: arr[k] == if k < i then r[k] else old(arr[k])
      {
        arr[i] := r[i];
      }
    }
  }

  lemma {:induction false} AfterAppend(ds: seq<Dump>, d: Dump, n: nat)
    requires n <= |ds|
    ensures After(ds + [d], n) == After(ds, n)
  {
    if n > 0 { AfterAppend(ds, d, n - 1); }
  }

  lemma InRange(file: seq<Byte>, size: nat, start: nat, buffer: seq<seq<Byte>>)
    requires start + size * |buffer| + size <= |file|
    ensures start + size * (|buffer| + 1) <= |file|
  {
  }

  lemma TooShort(size: nat, n: nat, count: nat)
    requires n < count
    ensures size * count >= size * n + size
  {
    ChunkWithin(size, count, n);
  }
}
