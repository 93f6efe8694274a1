/** Names of traced objects: a prefix followed by the decimal number of a counter kept for
    that prefix. */
module ObjectNames {

  const UINT32: nat := 0x1_0000_0000

  predicate Digit(c: char) {
    '0' <= c <= '9'
  }

  function DigitOf(d: nat): (c: char)
    requires d < 10
    ensures Digit(c)
  {
    ['0', '1', '2', '3', '4', '5', '6', '7', '8', '9'][d]
  }

  function ValueOf(c: char): (d: nat)
    requires Digit(c)
    ensures d < 10
  {
    (c as int) - ('0' as int)
  }

  predicate AllDigits(s: string) {
    forall i | 0 <= i < |s| :: Digit(s[i])
  }

  /** Decimal printing. */
  function Decimal(n: nat): (s: string)
    ensures s != "" && AllDigits(s)
  {
    if n < 10 then [DigitOf(n)] else Decimal(n / 10) + [DigitOf(n % 10)]
  }

  /** The number a string of digits stands for. */
  function Value(s: string): nat
    requires AllDigits(s)
  {
    if s == "" then 0 else 10 * Value(s[..|s| - 1]) + ValueOf(s[|s| - 1])
  }

  lemma {:induction false} ValueOfDecimal(n: nat)
    ensures Value(Decimal(n)) == n
  {
    if n >= 10 {
      ValueOfDecimal(n / 10);
      assert Decimal(n)[..|Decimal(n)| - 1] == Decimal(n / 10);
    } else {
      assert Decimal(n)[..|Decimal(n)| - 1] == "";
    }
  }

  /** A numeral: digits with no leading zero, except zero itself. */
  predicate Numeral(s: string) {
    s != "" && AllDigits(s) && (s[0] == '0' ==> |s| == 1)
  }

  lemma {:induction false} DecimalIsNumeral(n: nat)
    ensures Numeral(Decimal(n)) && (Decimal(n)[0] == '0' <==> n == 0)
  {
    if n < 10 {
    } else {
      DecimalIsNumeral(n / 10);
      assert Decimal(n)[0] == Decimal(n / 10)[0];
    }
  }

  lemma {:induction false} DecimalOfValue(s: string)
    requires Numeral(s)
    ensures Decimal(Value(s)) == s && (Value(s) == 0 <==> s == "0")
    decreases |s|
  {
    var last := s[|s| - 1];
    if |s| == 1 {
      assert s[..0] == "" && s == [last];
    } else {
      var front := s[..|s| - 1];
      assert front[0] == s[0];
      DecimalOfValue(front);
      assert Value(front) > 0;
      assert Value(s) / 10 == Value(front) && Value(s) % 10 == ValueOf(last);
      assert s == front + [last];
    }
  }

  function Name(prefix: string, n: nat): string {
    prefix + Decimal(n)
  }

  // ---- when two prefixes can produce the same name ----

  /** q is p followed by digits that do not start with zero. */
  predicate Extends(p: string, q: string) {
    && |p| < |q| && q[..|p|] == p && AllDigits(q[|p|..]) && q[|p|] != '0'
  }

  lemma SameNameExtends(p: string, m: nat, q: string, n: nat)
    requires |p| < |q| && Name(p, m) == Name(q, n)
    ensures Extends(p, q)
  {
    var x := Name(p, m);
    DecimalIsNumeral(m);
    assert x[..|p|] == p && x[..|q|] == q;
    assert x[|p|..] == Decimal(m) && x[|q|..] == Decimal(n);
    assert q[|p|..] == Decimal(m)[..|q| - |p|];
    assert |Decimal(m)| == |q| - |p| + |Decimal(n)|;
    assert q[|p|] == Decimal(m)[0];
  }

  lemma SamePrefix(p: string, m: nat, q: string, n: nat)
    requires |p| == |q| && Name(p, m) == Name(q, n)
    ensures p == q
  {
    assert Name(p, m)[..|p|] == p && Name(q, n)[..|q|] == q;
  }

  lemma ExtendsCollides(p: string, q: string)
    requires Extends(p, q)
    ensures Name(q, 0) == Name(p, Value(q[|p|..] + "0"))
  {
    var d := q[|p|..] + "0";
    assert Numeral(d);
    DecimalOfValue(d);
    assert Decimal(0) == "0";
    assert q == p + q[|p|..];
  }

  lemma NameInjective(p: string, m: nat, n: nat)
    requires Name(p, m) == Name(p, n)
    ensures m == n
  {
    assert Name(p, m)[|p|..] == Decimal(m) && Name(p, n)[|p|..] == Decimal(n);
    ValueOfDecimal(m);
    ValueOfDecimal(n);
  }

  /** Some values of the 32-bit counters give one name. */
  ghost predicate CanCollide(p: string, q: string) {
    exists m: nat, n: nat :: m < 0x1_0000_0000 && n < 0x1_0000_0000 && Name(p, m) == Name(q, n)
  }

  /** The digits that q adds to p, followed by a zero, are a number of 32 bits. */
  predicate Reaches(p: string, q: string) {
    Extends(p, q) && AllDigits(q[|p|..] + "0") && Value(q[|p|..] + "0") < 0x1_0000_0000
  }

  /** Further digits make a number at least ten times as large. */
  lemma {:induction false} ValueGrows(d: string, s: string)
    requires AllDigits(d) && AllDigits(s) && s != ""
    ensures AllDigits(d + s) && AllDigits(d + "0") && Value(d + "0") <= Value(d + s)
    decreases |s|
  {
    var front := s[..|s| - 1];
    assert (d + s)[..|d + s| - 1] == d + front && (d + "0")[..|d + "0"| - 1] == d;
    if |s| == 1 {
      assert d + front == d;
    } else {
      ValueGrows(d, front);
    }
  }

  lemma SameNameReaches(p: string, m: nat, q: string, n: nat)
    requires |p| < |q| && Name(p, m) == Name(q, n) && m < UINT32
    ensures Reaches(p, q)
  {
    SameNameExtends(p, m, q, n);
    var x, d := Name(p, m), q[|p|..];
    assert x[|p|..] == Decimal(m) && x[..|q|] == q && x[|q|..] == Decimal(n);
    assert Decimal(m) == d + Decimal(n);
    ValueGrows(d, Decimal(n));
    ValueOfDecimal(m);
  }

  /** Two different prefixes share a name exactly when one is the other followed by digits that
      do not start with zero and, with a zero behind them, still fit the counter. */
  lemma CollideExactlyWhen(p: string, q: string)
    requires p != q
    ensures CanCollide(p, q) <==> Reaches(p, q) || Reaches(q, p)
  {
    if CanCollide(p, q) {
      var m: nat, n: nat :| m < UINT32 && n < UINT32 && Name(p, m) == Name(q, n);
      if |p| == |q| {
        SamePrefix(p, m, q, n);
      } else if |p| < |q| {
        SameNameReaches(p, m, q, n);
      } else {
        SameNameReaches(q, n, p, m);
      }
    }
    if Reaches(p, q) {
      ExtendsCollides(p, q);
      assert Name(p, Value(q[|p|..] + "0")) == Name(q, 0);
    }
    if Reaches(q, p) {
      ExtendsCollides(q, p);
      assert Name(p, 0) == Name(q, Value(p[|q|..] + "0"));
    }
  }

  lemma ExtensionEndsInDigit(p: string, q: string)
    ensures Extends(p, q) ==> Digit(q[|q| - 1])
  {
    if Extends(p, q) {
      assert q[|p|..][|q| - |p| - 1] == q[|q| - 1];
    }
  }

  /** Prefixes that do not end in a digit never collide. */
  lemma PlainPrefixesApart(p: string, q: string)
    requires p != q && (p == "" || !Digit(p[|p| - 1])) && (q == "" || !Digit(q[|q| - 1]))
    ensures !CanCollide(p, q)
  {
    CollideExactlyWhen(p, q);
    ExtensionEndsInDigit(p, q);
    ExtensionEndsInDigit(q, p);
  }

  /** The prefixes the tracer uses: its table, the default, and the empty one that looking an
      unknown class up in the table yields. */
  lemma TablePrefixesApart(p: string, q: string)
    requires p in {"quant_", "spec_", "tensor_", "graph_", "obj_", ""} && q in {"quant_", "spec_", "tensor_", "graph_", "obj_", ""}
    requires p != q
    ensures !CanCollide(p, q)
  {
    PlainPrefixesApart(p, q);
  }

  // ---- every run of calls ----

  /** How often the prefix was used. */
  function Uses(run: seq<string>, p: string): (n: nat)
    ensures n <= |run|
  {
    if run == [] then 0
    else Uses(run[..|run| - 1], p) + if run[|run| - 1] == p then 1 else 0
  }

  /** The name given by call i: the counter is 32 bits wide. */
  function NameAt(run: seq<string>, i: nat): string
    requires i < |run|
  {
    Name(run[i], Uses(run[..i], run[i]) % UINT32)
  }

  ghost predicate AllDistinct(run: seq<string>) {
    forall i, j | 0 <= i < j < |run| :: NameAt(run, i) != NameAt(run, j)
  }

  lemma {:induction false} UsesGrow(run: seq<string>, p: string, i: nat, j: nat)
    requires i <= j <= |run|
    ensures Uses(run[..i], p) <= Uses(run[..j], p)
    decreases j - i
  {
    if i < j {
      UsesGrow(run, p, i, j - 1);
      assert run[..j][..j - 1] == run[..j - 1];
    }
  }

  /** Call i is counted before every later call, and in the whole run. */
  lemma CountedBefore(run: seq<string>, p: string, i: nat, j: nat)
    requires i < j <= |run| && run[i] == p
    ensures Uses(run[..i], p) < Uses(run[..j], p)
  {
    assert run[..i + 1][..i] == run[..i];
    UsesGrow(run, p, i + 1, j);
  }

  /** Every use number below the total is some call's. */
  lemma {:induction false} UseNumber(run: seq<string>, p: string, c: nat) returns (i: nat)
    requires c < Uses(run, p)
    ensures i < |run| && run[i] == p && Uses(run[..i], p) == c
    decreases |run|
  {
    var front := run[..|run| - 1];
    if c < Uses(front, p) {
      i := UseNumber(front, p, c);
      assert front[..i] == run[..i];
    } else {
      i := |run| - 1;
    }
  }

  ghost predicate Apart(run: seq<string>) {
    forall p, q | p in run && q in run && p != q :: !CanCollide(p, q)
  }

  lemma SmallCounters(a: nat, b: nat)
    requires a < b < UINT32
    ensures a % UINT32 != b % UINT32
  {
  }

  lemma CountersDiffer(run: seq<string>, i: nat, j: nat)
    requires i < j < |run| && run[i] == run[j] && Uses(run, run[j]) <= UINT32
    ensures Uses(run[..i], run[i]) < Uses(run[..j], run[j]) < UINT32
  {
    CountedBefore(run, run[j], i, j);
    CountedBefore(run, run[j], j, |run|);
    assert run[..|run|] == run;
  }

  lemma DistinctWhileCounted(run: seq<string>, i: nat, j: nat)
    requires Apart(run) && i < j < |run| && Uses(run, run[j]) <= UINT32
    ensures NameAt(run, i) != NameAt(run, j)
  {
    var m, n := Uses(run[..i], run[i]), Uses(run[..j], run[j]);
    if run[i] == run[j] {
      CountersDiffer(run, i, j);
      SmallCounters(m, n);
      NamesDiffer(run[i], m % UINT32, n % UINT32);
    } else {
      assert run[i] in run && run[j] in run;
      assert !CanCollide(run[i], run[j]);
    }
  }

  lemma NamesDiffer(p: string, m: nat, n: nat)
    requires m != n
    ensures Name(p, m) != Name(p, n)
  {
    if Name(p, m) == Name(p, n) { NameInjective(p, m, n); }
  }

  lemma WrapRepeats(run: seq<string>, p: string)
    requires Uses(run, p) > UINT32
    ensures !AllDistinct(run)
  {
    var i := UseNumber(run, p, 0);
    var j := UseNumber(run, p, UINT32);
    assert NameAt(run, i) == NameAt(run, j);
    if j < i { UsesGrow(run, p, j, i); }
  }

  /** Over every run of calls whose prefixes cannot collide, the names are pairwise distinct
      exactly as long as no prefix is used more than 2^32 times. */
  lemma NamesDistinctExactlyWhen(run: seq<string>)
    requires Apart(run)
    ensures AllDistinct(run) <==> forall p :: Uses(run, p) <= 0x1_0000_0000
  {
    if forall p :: Uses(run, p) <= UINT32 {
      forall i, j | 0 <= i < j < |run| ensures NameAt(run, i) != NameAt(run, j) {
        DistinctWhileCounted(run, i, j);
      }
    } else {
      var p :| Uses(run, p) > UINT32;
      WrapRepeats(run, p);
    }
  }

  // ---- the allocator ----

  class NameAllocator {
    /** objects_counter; missing prefixes have not been used. */
    var counter: map<string, nat>
    ghost var calls: seq<string>

    ghost predicate Valid()
      reads this
    {
      && (forall p :: p in counter <==> p in calls)
      && (forall p | p in counter :: counter[p] == Uses(calls, p) % UINT32)
    }

    constructor ()
      ensures Valid() && calls == []
    {
      counter, calls := map[], [];
    }

    method AllocateObjName(prefix: string) returns (name: string)
      requires Valid()
      modifies this
      ensures Valid() && calls == old(calls) + [prefix]
      ensures name == NameAt(calls, |calls| - 1)
    {
      UnusedIsZero(calls, prefix);
      if prefix !in counter {
        counter := counter[prefix := 0];
      }
      name := prefix + Decimal(counter[prefix]);
      counter := counter[prefix := (counter[prefix] + 1) % UINT32];
      CountedOneMore(calls, prefix);
      calls := calls + [prefix];
    }
  }

  lemma NextModulo(n: nat)
    ensures (n % UINT32 + 1) % UINT32 == (n + 1) % UINT32
  {
  }

  lemma CountedOneMore(run: seq<string>, prefix: string)
    ensures forall p :: Uses(run + [prefix], p) == Uses(run, p) + if p == prefix then 1 else 0
    ensures NameAt(run + [prefix], |run|) == Name(prefix, Uses(run, prefix) % UINT32)
    ensures Uses(run + [prefix], prefix) % UINT32 == (Uses(run, prefix) % UINT32 + 1) % UINT32
  {
    assert (run + [prefix])[..|run|] == run;
    NextModulo(Uses(run, prefix));
  }

  lemma {:induction false} UnusedIsZero(run: seq<string>, p: string)
    ensures p !in run ==> Uses(run, p) == 0
  {
    if run != [] {
      UnusedIsZero(run[..|run| - 1], p);
      assert run == run[..|run| - 1] + [run[|run| - 1]];
    }
  }
}
