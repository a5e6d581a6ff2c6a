/** expand_sweep (src/domain/model.cpp) enumerates a parameter grid as a mixed-radix counter. */
module Sweep {
  import opened Base
  import opened Domain

  const RUN_LIMIT: int := 1000
  const BYTE_LIMIT: int := 16777216

  datatype Dimension = Dimension(key: string, values: seq<Scalar>)

  /** A std::map in iteration order: no key occurs twice. */
  ghost predicate IsMap(grid: seq<Dimension>) {
    forall i, j | 0 <= i < j < |grid| :: grid[i].key != grid[j].key
  }

  predicate Filled(grid: seq<Dimension>) { forall i | 0 <= i < |grid| :: |grid[i].values| > 0 }

  function Keys(grid: seq<Dimension>): set<string> { set i | 0 <= i < |grid| :: grid[i].key }

  function Product(grid: seq<Dimension>): nat {
    if grid == [] then 1 else Product(grid[..|grid| - 1]) * |grid[|grid| - 1].values|
  }

  // ---- Reference: the i-th combination --------------------------------------------------------

  /** The digit of i for dimension d, the last dimension being the least significant. */
  function Digit(grid: seq<Dimension>, d: nat, i: nat): nat
    requires d < |grid| && Filled(grid)
  {
    ProductPositive(grid[d + 1..]);
    i / Product(grid[d + 1..]) % |grid[d].values|
  }

  type Parameters = map<string, Scalar>

  /** Each grid key has its value at the corresponding digit of i; the other keys are the base's. */
  ghost predicate Point(base: Parameters, grid: seq<Dimension>, i: nat, p: Parameters)
    requires Filled(grid)
  {
    && p.Keys == base.Keys + Keys(grid)
    && (forall k | k in base && k !in Keys(grid) :: p[k] == base[k])
    && (forall d | 0 <= d < |grid| :: p[grid[d].key] == grid[d].values[Digit(grid, d, i)])
  }

  /** A specification that differs from the base only in the grid's keys. */
  ghost predicate Combination(base: RunSpec, grid: seq<Dimension>, i: nat, item: RunSpec)
    requires Filled(grid)
  {
    item == base.(parameters := item.parameters) && Point(base.parameters, grid, i, item.parameters)
  }

  // ---- Arithmetic -----------------------------------------------------------------------------

  lemma {:induction false} ProductPositive(grid: seq<Dimension>)
    requires Filled(grid)
    ensures Product(grid) >= 1
  {
    if grid != [] {
      ProductPositive(grid[..|grid| - 1]);
      Multiply(Product(grid[..|grid| - 1]), |grid[|grid| - 1].values|);
    }
  }

  lemma Multiply(a: int, b: int)
    requires a >= 1 && b >= 1
    ensures a * b >= a && a * b >= b
  {
  }

  lemma Quotient(i: nat, n: nat, q: int)
    requires n > 0 && q * n <= i < (q + 1) * n
    ensures i / n == q
  {
    var r := i / n;
    assert r < q ==> (r + 1) * n <= q * n;
    assert r > q ==> (q + 1) * n <= r * n;
  }

  lemma Scale(a: int, b: int, n: nat)
    requires a <= b
    ensures a * n <= b * n
  {
  }

  lemma Regroup(a: int, b: int, c: int)
    ensures a * b * c == a * (b * c)
  {
  }

  lemma DivideTwice(i: nat, p: nat, m: nat)
    requires p > 0 && m > 0
    ensures p * m > 0 && i / (p * m) == i / m / p
  {
    Multiply(p, m);
    var a := i / m;
    var q := a / p;
    Scale(q * p, a, m);
    Scale(a + 1, (q + 1) * p, m);
    Regroup(q, p, m);
    Regroup(q + 1, p, m);
    Quotient(i, p * m, q);
  }

  /** x <= limit / count is exactly x * count <= limit. */
  lemma DivisionGuard(x: nat, count: nat, limit: nat)
    requires count > 0
    ensures x <= limit / count <==> x * count <= limit
  {
    var q := limit / count;
    if x <= q {
      assert x * count <= q * count;
    } else {
      assert (q + 1) * count <= x * count;
    }
  }

  /** The last dimension takes the remainder, the others work on the quotient. */
  lemma DigitOfQuotient(grid: seq<Dimension>, d: nat, i: nat)
    requires Filled(grid) && d < |grid| - 1
    ensures
      var n := |grid| - 1;
      Digit(grid, d, i) == Digit(grid[..n], d, i / |grid[n].values|)
  {
    var n := |grid| - 1;
    var inner := grid[..n];
    assert grid[d + 1..][..n - d - 1] == inner[d + 1..];
    ProductPositive(inner[d + 1..]);
    DivideTwice(i, Product(inner[d + 1..]), |grid[n].values|);
  }

  lemma LastDigit(grid: seq<Dimension>, i: nat)
    requires Filled(grid) && grid != []
    ensures Digit(grid, |grid| - 1, i) == i % |grid[|grid| - 1].values|
  {
  }

  // ---- Every combination occurs exactly once --------------------------------------------------

  predicate Choice(grid: seq<Dimension>, digits: seq<nat>) {
    |digits| == |grid| && forall d | 0 <= d < |grid| :: digits[d] < |grid[d].values|
  }

  function Index(grid: seq<Dimension>, digits: seq<nat>): nat
    requires Choice(grid, digits)
  {
    if grid == [] then 0
    else
      var n := |grid| - 1;
      Index(grid[..n], digits[..n]) * |grid[n].values| + digits[n]
  }

  lemma Compose(p: nat, m: nat, top: nat, low: nat)
    requires p < top && low < m
    ensures p * m + low < top * m && (p * m + low) / m == p && (p * m + low) % m == low
  {
    assert (p + 1) * m <= top * m;
    Quotient(p * m + low, m, p);
  }

  /** Any choice of values is the combination at its index. */
  lemma {:induction false} EveryChoiceOccurs(grid: seq<Dimension>, digits: seq<nat>)
    requires Filled(grid) && Choice(grid, digits)
    ensures Index(grid, digits) < Product(grid)
    ensures forall d | 0 <= d < |grid| :: Digit(grid, d, Index(grid, digits)) == digits[d]
  {
    if grid != [] {
      var n := |grid| - 1;
      var inner := grid[..n];
      EveryChoiceOccurs(inner, digits[..n]);
      Compose(Index(inner, digits[..n]), |grid[n].values|, Product(inner), digits[n]);
      LastDigit(grid, Index(grid, digits));
      forall d | 0 <= d < n
        ensures Digit(grid, d, Index(grid, digits)) == digits[d]
      {
        DigitOfQuotient(grid, d, Index(grid, digits));
      }
    }
  }

  /** Two indices with the same digits are the same. */
  lemma {:induction false} DigitsDetermine(grid: seq<Dimension>, i: nat, j: nat)
    requires Filled(grid) && i < Product(grid) && j < Product(grid)
    requires forall d | 0 <= d < |grid| :: Digit(grid, d, i) == Digit(grid, d, j)
    ensures i == j
  {
    if grid != [] {
      var n := |grid| - 1;
      var inner, m := grid[..n], |grid[n].values|;
      LastDigit(grid, i);
      LastDigit(grid, j);
      forall d | 0 <= d < n
        ensures Digit(inner, d, i / m) == Digit(inner, d, j / m)
      {
        DigitOfQuotient(grid, d, i);
        DigitOfQuotient(grid, d, j);
      }
      QuotientBound(i, m, Product(inner));
      QuotientBound(j, m, Product(inner));
      DigitsDetermine(inner, i / m, j / m);
    }
  }

  lemma QuotientBound(i: nat, m: nat, p: nat)
    requires m > 0 && i < p * m
    ensures i / m < p
  {
  }

  // ---- Expansion ------------------------------------------------------------------------------

  function Assigned(spec: RunSpec, key: string, value: Scalar): RunSpec {
    spec.(parameters := spec.parameters[key := value])
  }

  lemma ExtendPoint(base: Parameters, grid: seq<Dimension>, i: nat, p: Parameters)
    requires Filled(grid) && IsMap(grid) && grid != []
    requires Point(base, grid[..|grid| - 1], i / |grid[|grid| - 1].values|, p)
    ensures
      var last := grid[|grid| - 1];
      Point(base, grid, i, p[last.key := last.values[i % |last.values|]])
  {
    KeysOfPrefix(grid);
    forall d | 0 <= d < |grid|
      ensures
        var last := grid[|grid| - 1];
        && grid[d].key in p[last.key := last.values[i % |last.values|]]
        && p[last.key := last.values[i % |last.values|]][grid[d].key] == grid[d].values[Digit(grid, d, i)]
    {
      ExtendDigit(base, grid, i, p, d);
    }
  }

  lemma ExtendDigit(base: Parameters, grid: seq<Dimension>, i: nat, p: Parameters, d: nat)
    requires Filled(grid) && IsMap(grid) && d < |grid|
    requires Point(base, grid[..|grid| - 1], i / |grid[|grid| - 1].values|, p)
    ensures
      var last := grid[|grid| - 1];
      && (d < |grid| - 1 ==> grid[d].key in p)
      && p[last.key := last.values[i % |last.values|]][grid[d].key] == grid[d].values[Digit(grid, d, i)]
  {
    var n := |grid| - 1;
    if d == n {
      LastDigit(grid, i);
    } else {
      DigitOfQuotient(grid, d, i);
      assert grid[..n][d] == grid[d];
      assert grid[d].key in Keys(grid[..n]);
    }
  }

  lemma KeysOfPrefix(grid: seq<Dimension>)
    requires grid != []
    ensures Keys(grid) == Keys(grid[..|grid| - 1]) + {grid[|grid| - 1].key}
  {
  }

  /** Every value may stand in a specification and the keys stay within the limit. */
  ghost predicate Suitable(base: RunSpec, grid: seq<Dimension>) {
    && |base.parameters.Keys + Keys(grid)| <= 100
    && (forall d, v | 0 <= d < |grid| && v in grid[d].values :: ValidParameter(grid[d].key, v))
  }

  lemma SuitableIsValid(base: RunSpec, grid: seq<Dimension>, i: nat, item: RunSpec)
    requires ValidSpec(base) && Filled(grid) && Suitable(base, grid) && Combination(base, grid, i, item)
    ensures ValidSpec(item)
  {
    forall k | k in item.parameters
      ensures ValidParameter(k, item.parameters[k])
    {
      if k in Keys(grid) {
        var d :| 0 <= d < |grid| && grid[d].key == k;
        assert item.parameters[k] in grid[d].values;
      }
    }
    assert |item.parameters| == |item.parameters.Keys|;
  }

  lemma ValueOccurs(grid: seq<Dimension>, d: nat, at: nat) returns (i: nat)
    requires Filled(grid) && d < |grid| && at < |grid[d].values|
    ensures i < Product(grid) && Digit(grid, d, i) == at
  {
    var digits := seq(|grid|, n requires 0 <= n < |grid| => if n == d then at else 0);
    EveryChoiceOccurs(grid, digits);
    i := Index(grid, digits);
  }

  lemma ValidParameters(spec: RunSpec, key: string)
    requires ValidSpec(spec)
    ensures |spec.parameters.Keys| <= 100
    ensures key in spec.parameters ==> ValidParameter(key, spec.parameters[key])
  {
  }

  /** Conversely, if every combination is valid then every value and key was suitable. */
  lemma ValidIsSuitable(base: RunSpec, grid: seq<Dimension>, items: seq<RunSpec>)
    requires Filled(grid) && Enumerates(base, grid, items)
    ensures Suitable(base, grid)
  {
    ProductPositive(grid);
    assert Combination(base, grid, 0, items[0]);
    ValidParameters(items[0], "");
    forall d, v | 0 <= d < |grid| && v in grid[d].values
      ensures ValidParameter(grid[d].key, v)
    {
      var at :| 0 <= at < |grid[d].values| && grid[d].values[at] == v;
      var i := ValueOccurs(grid, d, at);
      assert Combination(base, grid, i, items[i]);
      ValidParameters(items[i], grid[d].key);
    }
  }

  lemma SuitablePrefix(base: RunSpec, grid: seq<Dimension>, n: nat)
    requires n <= |grid| && Suitable(base, grid)
    ensures Suitable(base, grid[..n])
  {
    var small, large := base.parameters.Keys + Keys(grid[..n]), base.parameters.Keys + Keys(grid);
    forall k | k in Keys(grid[..n])
      ensures k in Keys(grid)
    {
      var i :| 0 <= i < n && grid[..n][i].key == k;
      assert grid[i].key == k;
    }
    Subset(small, large);
    forall d, v | 0 <= d < n && v in grid[..n][d].values
      ensures ValidParameter(grid[..n][d].key, v)
    {
      assert grid[..n][d] == grid[d];
    }
  }

  // ---- The guards -----------------------------------------------------------------------------

  predicate Dimensions(grid: seq<Dimension>) {
    forall i | 0 <= i < |grid| :: grid[i].key != "" && |grid[i].values| > 0
  }

  lemma {:induction false} ProductGrows(grid: seq<Dimension>, n: nat)
    requires Filled(grid) && n <= |grid|
    ensures Product(grid[..n]) <= Product(grid)
    decreases |grid|
  {
    if n == |grid| {
      assert grid[..n] == grid;
    } else {
      var inner := grid[..|grid| - 1];
      ProductGrows(inner, n);
      assert inner[..n] == grid[..n];
      ProductPositive(inner);
      Multiply(Product(inner), |grid[|grid| - 1].values|);
    }
  }

  lemma ProductStep(grid: seq<Dimension>, n: nat)
    requires n < |grid|
    ensures Product(grid[..n + 1]) == Product(grid[..n]) * |grid[n].values|
  {
    assert grid[..n + 1][..n] == grid[..n];
  }

  /** The running division guard is exactly the product guard, and the count never passes the limit. */
  method CountRuns(grid: seq<Dimension>) returns (count: Option<nat>)
    ensures count.Some? <==> Dimensions(grid) && Product(grid) <= RUN_LIMIT
    ensures count.Some? ==> count.value == Product(grid) >= 1
  {
    var n := 1;
    for i := 0 to |grid|
      invariant n == Product(grid[..i]) && 1 <= n <= RUN_LIMIT
      invariant forall j | 0 <= j < i :: grid[j].key != "" && |grid[j].values| > 0
    {
      if grid[i].key == "" || |grid[i].values| == 0 {
        return None;
      }
      ProductStep(grid, i);
      DivisionGuard(|grid[i].values|, n, RUN_LIMIT);
      if |grid[i].values| > RUN_LIMIT / n {
        if Filled(grid) {
          ProductGrows(grid, i + 1);
        }
        return None;
      }
      Multiply(n, |grid[i].values|);
      n := n * |grid[i].values|;
    }
    assert grid[..|grid|] == grid;
    count := Some(n);
  }

  function TextBytes(v: Scalar): nat { if v.TextValue? then |v.text| else 0 }

  function Longest(values: seq<Scalar>): nat {
    if values == [] then 0
    else Max(Longest(values[..|values| - 1]), TextBytes(values[|values| - 1]))
  }

  function CommandBytes(command: seq<string>): nat {
    if command == [] then 0 else CommandBytes(command[..|command| - 1]) + |command[|command| - 1]|
  }

  function GridBytes(grid: seq<Dimension>): nat {
    if grid == [] then 0
    else
      var last := grid[|grid| - 1];
      GridBytes(grid[..|grid| - 1]) + |last.key| + Longest(last.values) + 32
  }

  function EnvironmentSizes(base: RunSpec): map<string, int> {
    map k | k in base.environment :: |k| + |base.environment[k]|
  }

  function ParameterSizes(base: RunSpec): map<string, int> {
    map k | k in base.parameters :: |k| + 32 + TextBytes(base.parameters[k])
  }

  /** The size estimate of one expanded specification. */
  ghost function Bytes(base: RunSpec, grid: seq<Dimension>): int {
    4096 + |base.name| + |base.image| + CommandBytes(base.command) + Total(EnvironmentSizes(base))
      + Total(ParameterSizes(base)) + GridBytes(grid)
  }

  method LongestOf(values: seq<Scalar>) returns (largest: nat)
    ensures largest == Longest(values)
  {
    largest := 0;
    for i := 0 to |values|
      invariant largest == Longest(values[..i])
    {
      assert values[..i + 1][..i] == values[..i];
      if values[i].TextValue? && |values[i].text| > largest {
        largest := |values[i].text|;
      }
    }
    assert values[..|values|] == values;
  }

  const SIZE_T: int := 0x1_0000_0000_0000_0000

  /** Unsigned 64-bit addition. */
  function Wrapped(x: int): int { x % SIZE_T }

  lemma WrapAdds(a: int, b: int)
    ensures Wrapped(Wrapped(a) + b) == Wrapped(a + b)
  {
  }

  /**
   * Every addition may wrap, and the result is the estimate modulo 2 to the 64. The terms being
   * nonnegative, nothing wraps unless the estimate itself is at least that large.
   */
  method EstimateBytes(base: RunSpec, grid: seq<Dimension>) returns (bytes: int)
    ensures bytes == Wrapped(Bytes(base, grid))
    ensures Bytes(base, grid) < SIZE_T ==> bytes == Bytes(base, grid)
  {
    ghost var start := 4096 + |base.name| + |base.image|;
    bytes := AddCommand(Wrapped(4096 + |base.name| + |base.image|), start, base.command);
    start := start + CommandBytes(base.command);
    var environment := Sum(EnvironmentSizes(base));
    var parameters := Sum(ParameterSizes(base));
    WrapAdds(start, environment + parameters);
    bytes := Wrapped(bytes + (environment + parameters));
    bytes := AddGrid(bytes, start + environment + parameters, grid);
    BytesPositive(base, grid);
    SmallIsExact(Bytes(base, grid));
  }

  lemma SmallIsExact(x: int)
    requires x >= 0
    ensures x < SIZE_T ==> Wrapped(x) == x
  {
  }

  method AddCommand(before: int, ghost start: int, command: seq<string>) returns (bytes: int)
    requires before == Wrapped(start)
    ensures bytes == Wrapped(start + CommandBytes(command))
  {
    bytes := before;
    for i := 0 to |command|
      invariant bytes == Wrapped(start + CommandBytes(command[..i]))
    {
      assert command[..i + 1][..i] == command[..i];
      WrapAdds(start + CommandBytes(command[..i]), |command[i]|);
      bytes := Wrapped(bytes + |command[i]|);
    }
    assert command[..|command|] == command;
  }

  method AddGrid(before: int, ghost start: int, grid: seq<Dimension>) returns (bytes: int)
    requires before == Wrapped(start)
    ensures bytes == Wrapped(start + GridBytes(grid))
  {
    bytes := before;
    for i := 0 to |grid|
      invariant bytes == Wrapped(start + GridBytes(grid[..i]))
    {
      assert grid[..i + 1][..i] == grid[..i];
      var largest := LongestOf(grid[i].values);
      WrapAdds(start + GridBytes(grid[..i]), |grid[i].key| + largest + 32);
      bytes := Wrapped(bytes + (|grid[i].key| + largest + 32));
    }
    assert grid[..|grid|] == grid;
  }

  // ---- The expansion loop ---------------------------------------------------------------------

  /** What a caller can check beforehand; every refusal has the same code. */
  ghost predicate Acceptable(base: RunSpec, grid: seq<Dimension>) {
    && ValidSpec(base) && Dimensions(grid)
    && Product(grid) <= RUN_LIMIT && Wrapped(Bytes(base, grid)) * Product(grid) <= BYTE_LIMIT
    && Suitable(base, grid)
  }

  ghost predicate Enumerates(base: RunSpec, grid: seq<Dimension>, items: seq<RunSpec>)
    requires Filled(grid)
  {
    && |items| == Product(grid)
    && (forall i | 0 <= i < |items| :: Combination(base, grid, i, items[i]) && ValidSpec(items[i]))
  }

  /** The i-th result of one dimension: each specification so far once per value, values fastest. */
  function Child(items: seq<RunSpec>, dim: Dimension, i: nat): RunSpec
    requires |dim.values| > 0 && i < |items| * |dim.values|
  {
    QuotientBound(i, |dim.values|, |items|);
    Assigned(items[i / |dim.values|], dim.key, dim.values[i % |dim.values|])
  }

  lemma ChildAt(items: seq<RunSpec>, dim: Dimension, a: nat, b: nat)
    requires a < |items| && b < |dim.values|
    ensures a * |dim.values| + b < |items| * |dim.values|
    ensures Child(items, dim, a * |dim.values| + b) == Assigned(items[a], dim.key, dim.values[b])
  {
    Compose(a, |dim.values|, |items|, b);
  }

  ghost predicate Produced(items: seq<RunSpec>, dim: Dimension, out: seq<RunSpec>) {
    && |dim.values| > 0 && |out| <= |items| * |dim.values|
    && (forall i | 0 <= i < |out| :: out[i] == Child(items, dim, i) && ValidSpec(out[i]))
  }

  lemma ProduceNext(items: seq<RunSpec>, dim: Dimension, out: seq<RunSpec>, a: nat, b: nat)
    requires Produced(items, dim, out) && a < |items| && b < |dim.values| && |out| == a * |dim.values| + b
    requires ValidSpec(Assigned(items[a], dim.key, dim.values[b]))
    ensures Produced(items, dim, out + [Assigned(items[a], dim.key, dim.values[b])])
  {
    ChildAt(items, dim, a, b);
  }

  method ExpandOne(items: seq<RunSpec>, dim: Dimension, a: nat, before: seq<RunSpec>)
    returns (out: seq<RunSpec>, ok: bool)
    requires Produced(items, dim, before) && a < |items| && |before| == a * |dim.values|
    ensures ok ==> Produced(items, dim, out) && |out| == (a + 1) * |dim.values|
    ensures !ok ==> exists i :: 0 <= i < |items| * |dim.values| && !ValidSpec(Child(items, dim, i))
  {
    out, ok := before, true;
    for b := 0 to |dim.values|
      invariant Produced(items, dim, out) && |out| == a * |dim.values| + b
    {
      ChildAt(items, dim, a, b);
      var item := Assigned(items[a], dim.key, dim.values[b]);
      if !ValidSpec(item) {
        return out, false;
      }
      ProduceNext(items, dim, out, a, b);
      out := out + [item];
    }
  }

  method ExpandDimension(items: seq<RunSpec>, dim: Dimension) returns (expanded: Option<seq<RunSpec>>)
    requires |dim.values| > 0
    ensures expanded.None? ==> exists i :: 0 <= i < |items| * |dim.values| && !ValidSpec(Child(items, dim, i))
    ensures expanded.Some? ==>
      Produced(items, dim, expanded.value) && |expanded.value| == |items| * |dim.values|
  {
    var out, ok := [], true;
    for a := 0 to |items|
      invariant Produced(items, dim, out) && |out| == a * |dim.values|
    {
      out, ok := ExpandOne(items, dim, a, out);
      if !ok {
        return None;
      }
    }
    expanded := Some(out);
  }

  lemma ChildCombines(base: RunSpec, grid: seq<Dimension>, d: nat, items: seq<RunSpec>, i: nat)
    requires Filled(grid) && IsMap(grid) && d < |grid| && Enumerates(base, grid[..d], items)
    requires i < |items| * |grid[d].values|
    ensures Combination(base, grid[..d + 1], i, Child(items, grid[d], i))
  {
    QuotientBound(i, |grid[d].values|, |items|);
    var item := items[i / |grid[d].values|];
    assert Combination(base, grid[..d], i / |grid[d].values|, item);
    AssignedCombines(base, grid, d, item, i);
  }

  lemma AssignedCombines(base: RunSpec, grid: seq<Dimension>, d: nat, item: RunSpec, i: nat)
    requires Filled(grid) && IsMap(grid) && d < |grid|
    requires Combination(base, grid[..d], i / |grid[d].values|, item)
    ensures
      var dim := grid[d];
      Combination(base, grid[..d + 1], i, Assigned(item, dim.key, dim.values[i % |dim.values|]))
  {
    assert grid[..d + 1][..d] == grid[..d];
    ExtendPoint(base.parameters, grid[..d + 1], i, item.parameters);
  }

  /** An invalid combination of the first dimensions already makes the whole grid unsuitable. */
  lemma InvalidIsUnsuitable(base: RunSpec, grid: seq<Dimension>, d: nat, items: seq<RunSpec>, i: nat)
    requires ValidSpec(base) && Filled(grid) && IsMap(grid) && d < |grid| && Enumerates(base, grid[..d], items)
    requires i < |items| * |grid[d].values| && !ValidSpec(Child(items, grid[d], i))
    ensures !Suitable(base, grid)
  {
    ChildCombines(base, grid, d, items, i);
    if Suitable(base, grid) {
      SuitablePrefix(base, grid, d + 1);
      SuitableIsValid(base, grid[..d + 1], i, Child(items, grid[d], i));
      assert false;
    }
  }

  /**
   * The expansion succeeds exactly on an acceptable grid, and its i-th result takes each key's
   * value at the corresponding digit of i, the last key varying fastest.
   */
  method ExpandSweep(base: RunSpec, grid: seq<Dimension>) returns (result: Option<seq<RunSpec>>)
    requires IsMap(grid)
    ensures result.Some? <==> Acceptable(base, grid)
    ensures result.Some? ==> Filled(grid) && Enumerates(base, grid, result.value)
  {
    if !ValidSpec(base) {
      return None;
    }
    var count := CountRuns(grid);
    if count.None? {
      return None;
    }
    var bytes := EstimateBytes(base, grid);
    DivisionGuard(bytes, count.value, BYTE_LIMIT);
    if bytes > BYTE_LIMIT / count.value {
      return None;
    }
    result := ExpandAll(base, grid);
  }

  lemma {:induction false} TotalOfSizes(m: map<string, int>)
    requires forall k | k in m :: m[k] >= 0
    ensures Total(m) >= 0
  {
    TotalSubset(map[], m);
  }

  lemma BytesPositive(base: RunSpec, grid: seq<Dimension>)
    ensures Bytes(base, grid) >= 0
  {
    TotalOfSizes(EnvironmentSizes(base));
    TotalOfSizes(ParameterSizes(base));
  }

  lemma BaseAlone(base: RunSpec, grid: seq<Dimension>)
    requires ValidSpec(base)
    ensures Enumerates(base, grid[..0], [base])
  {
  }

  method ExpandAll(base: RunSpec, grid: seq<Dimension>) returns (result: Option<seq<RunSpec>>)
    requires ValidSpec(base) && IsMap(grid) && Filled(grid)
    ensures result.Some? <==> Suitable(base, grid)
    ensures result.Some? ==> Enumerates(base, grid, result.value)
  {
    var items := [base];
    BaseAlone(base, grid);
    for d := 0 to |grid|
      invariant Enumerates(base, grid[..d], items)
    {
      var expanded := ExpandDimension(items, grid[d]);
      if expanded.None? {
        ghost var i :| 0 <= i < |items| * |grid[d].values| && !ValidSpec(Child(items, grid[d], i));
        InvalidIsUnsuitable(base, grid, d, items, i);
        return None;
      }
      ExpandedEnumerates(base, grid, d, items, expanded.value);
      items := expanded.value;
    }
    assert grid[..|grid|] == grid;
    ValidIsSuitable(base, grid, items);
    result := Some(items);
  }

  lemma ExpandedEnumerates(base: RunSpec, grid: seq<Dimension>, d: nat, items: seq<RunSpec>, expanded: seq<RunSpec>)
    requires Filled(grid) && IsMap(grid) && d < |grid| && Enumerates(base, grid[..d], items)
    requires |expanded| == |items| * |grid[d].values|
    requires forall i | 0 <= i < |expanded| :: expanded[i] == Child(items, grid[d], i) && ValidSpec(expanded[i])
    ensures Enumerates(base, grid[..d + 1], expanded)
  {
    ProductStep(grid, d);
    forall i | 0 <= i < |expanded|
      ensures Combination(base, grid[..d + 1], i, expanded[i])
    {
      ChildCombines(base, grid, d, items, i);
    }
  }

  // ---- What the estimate is worth -------------------------------------------------------------

  /** Each grid key has one of its values, whichever; the other keys are the base's. */
  ghost predicate Drawn(base: Parameters, grid: seq<Dimension>, p: Parameters) {
    && p.Keys == base.Keys + Keys(grid)
    && (forall k | k in base && k !in Keys(grid) :: p[k] == base[k])
    && (forall d | 0 <= d < |grid| :: p[grid[d].key] in grid[d].values)
  }

  function Sizes(p: Parameters): map<string, int> { map k | k in p :: |k| + 32 + TextBytes(p[k]) }

  lemma {:induction false} LongestBounds(values: seq<Scalar>, v: Scalar)
    requires v in values
    ensures TextBytes(v) <= Longest(values)
    decreases |values|
  {
    var n := |values| - 1;
    assert values == values[..n] + [values[n]];
    if v in values[..n] {
      LongestBounds(values[..n], v);
    }
  }

  /** The longest text is one of the texts, if there is any value. */
  lemma {:induction false} LongestOccurs(values: seq<Scalar>) returns (v: Scalar)
    requires values != []
    ensures v in values && TextBytes(v) == Longest(values)
    decreases |values|
  {
    var n := |values| - 1;
    v := values[n];
    if n > 0 && TextBytes(v) < Longest(values[..n]) {
      v := LongestOccurs(values[..n]);
    }
  }

  /** Setting one parameter costs at most its key, its text and 32. */
  lemma SetCosts(p: Parameters, q: Parameters, key: string)
    requires key in p && (forall k | k != key :: (k in p <==> k in q) && (k in p ==> p[k] == q[k]))
    ensures Total(Sizes(p)) <= Total(Sizes(q)) + |key| + 32 + TextBytes(p[key])
  {
    TotalSplit(Sizes(p), key);
    SameRows(Sizes(p) - {key}, Sizes(q) - {key});
    TotalSubset(Sizes(q) - {key}, Sizes(q));
  }

  /** The parameters before the last dimension set its key. */
  lemma DrawnBefore(base: Parameters, grid: seq<Dimension>, p: Parameters) returns (q: Parameters)
    requires grid != [] && IsMap(grid) && Drawn(base, grid, p)
    ensures Drawn(base, grid[..|grid| - 1], q)
    ensures
      var key := grid[|grid| - 1].key;
      key in p && forall k | k != key :: (k in p <==> k in q) && (k in p ==> p[k] == q[k])
  {
    var init, key := grid[..|grid| - 1], grid[|grid| - 1].key;
    KeysOfPrefix(grid);
    assert key !in Keys(init);
    q := if key in base then p[key := base[key]] else p - {key};
  }

  lemma {:induction false} DrawnCosts(base: Parameters, grid: seq<Dimension>, p: Parameters)
    requires IsMap(grid) && Drawn(base, grid, p)
    ensures Total(Sizes(p)) <= Total(Sizes(base)) + GridBytes(grid)
    decreases |grid|
  {
    if grid == [] {
      assert p == base;
    } else {
      var last := grid[|grid| - 1];
      var q := DrawnBefore(base, grid, p);
      DrawnCosts(base, grid[..|grid| - 1], q);
      SetCosts(p, q, last.key);
      LongestBounds(last.values, p[last.key]);
    }
  }

  lemma PointIsDrawn(base: Parameters, grid: seq<Dimension>, i: nat, p: Parameters)
    requires Filled(grid) && Point(base, grid, i, p)
    ensures Drawn(base, grid, p)
  {
  }

  /** No expanded specification is larger than the estimate made from the base and the grid alone. */
  lemma EstimateCovers(base: RunSpec, grid: seq<Dimension>, i: nat, item: RunSpec)
    requires IsMap(grid) && Filled(grid) && Combination(base, grid, i, item)
    ensures Bytes(item, []) <= Bytes(base, grid)
  {
    PointIsDrawn(base.parameters, grid, i, item.parameters);
    DrawnCosts(base.parameters, grid, item.parameters);
    SameRows(ParameterSizes(item), Sizes(item.parameters));
    SameRows(ParameterSizes(base), Sizes(base.parameters));
  }

  function Added(sizes: seq<int>): int {
    if sizes == [] then 0 else Added(sizes[..|sizes| - 1]) + sizes[|sizes| - 1]
  }

  lemma OneMore(n: int, size: int)
    ensures (n + 1) * size == n * size + size
  {
  }

  lemma {:induction false} AddedBounded(sizes: seq<int>, each: int)
    requires forall i | 0 <= i < |sizes| :: sizes[i] <= each
    ensures Added(sizes) <= |sizes| * each
    decreases |sizes|
  {
    if sizes != [] {
      AddedBounded(sizes[..|sizes| - 1], each);
      OneMore(|sizes| - 1, each);
    }
  }

  ghost function SizesOf(items: seq<RunSpec>): seq<int> {
    seq(|items|, i requires 0 <= i < |items| => Bytes(items[i], []))
  }

  lemma EachCovered(base: RunSpec, grid: seq<Dimension>, items: seq<RunSpec>)
    requires IsMap(grid) && Filled(grid) && Enumerates(base, grid, items)
    ensures Added(SizesOf(items)) <= |items| * Bytes(base, grid)
  {
    forall i | 0 <= i < |items|
      ensures SizesOf(items)[i] <= Bytes(base, grid)
    {
      EstimateCovers(base, grid, i, items[i]);
    }
    AddedBounded(SizesOf(items), Bytes(base, grid));
  }

  /** The guard on the wrapped estimate is one on the estimate when nothing wraps. */
  lemma BudgetIsExact(estimate: int, count: nat)
    requires 0 <= estimate < 0x1_0000_0000_0000_0000 && Wrapped(estimate) * count <= BYTE_LIMIT
    ensures count * estimate <= 16 * 1024 * 1024
  {
    SmallIsExact(estimate);
    assert count * estimate == estimate * count;
  }

  /** Unless the 64-bit estimate wrapped, what an accepted sweep expands to fits in 16 MiB together. */
  lemma ExpansionFits(base: RunSpec, grid: seq<Dimension>, items: seq<RunSpec>)
    requires IsMap(grid) && Acceptable(base, grid) && Enumerates(base, grid, items)
    requires Bytes(base, grid) < 0x1_0000_0000_0000_0000
    ensures |items| <= 1000 && Added(SizesOf(items)) <= 16 * 1024 * 1024
  {
    EachCovered(base, grid, items);
    BytesPositive(base, grid);
    BudgetIsExact(Bytes(base, grid), Product(grid));
  }
}
