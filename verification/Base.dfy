/** Shared vocabulary: optional values, error codes and sums over finite maps. */
module Base {

  datatype Option<+T> = None | Some(value: T)

  /** The codes an operation can be refused with (include/runyard/domain/error.hpp). */
  datatype ErrorCode = Invalid | NotFound | Conflict | Stale | Unauthorized | Exhausted | Unavailable

  function Min(a: int, b: int): int { if a <= b then a else b }

  function Max(a: int, b: int): int { if a >= b then a else b }

  /** Sum of the values of a finite map: SQL's COALESCE(sum(x),0) over the selected rows. */
  ghost function Total<K>(m: map<K, int>): int
    decreases |m.Keys|
  {
    if m.Keys == {} then 0
    else
      var k :| k in m;
      m[k] + Total(m - {k})
  }

  /** The total does not depend on which key is summed first. */
  lemma {:induction false} TotalSplit<K>(m: map<K, int>, k: K)
    requires k in m
    ensures Total(m) == m[k] + Total(m - {k})
    decreases |m.Keys|
  {
    var c :| c in m && Total(m) == m[c] + Total(m - {c});
    if c != k {
      TotalSplit(m - {c}, k);
      TotalSplit(m - {k}, c);
      assert (m - {c}) - {k} == (m - {k}) - {c};
    }
  }

  lemma TotalInsert<K>(m: map<K, int>, k: K, v: int)
    requires k !in m
    ensures Total(m[k := v]) == Total(m) + v
  {
    TotalSplit(m[k := v], k);
    assert m[k := v] - {k} == m;
  }

  /** Dropping rows with nonnegative values cannot raise a total. */
  lemma {:induction false} TotalSubset<K>(small: map<K, int>, large: map<K, int>)
    requires forall k | k in small :: k in large && small[k] == large[k]
    requires forall k | k in large :: large[k] >= 0
    ensures Total(small) <= Total(large)
    decreases |large.Keys|
  {
    if large.Keys == {} {
      assert small == large;
    } else {
      var k :| k in large;
      TotalSplit(large, k);
      if k in small {
        TotalSplit(small, k);
      } else {
        assert small - {k} == small;
      }
      TotalSubset(small - {k}, large - {k});
    }
  }

  lemma SameRows<K>(m: map<K, int>, n: map<K, int>)
    requires m.Keys == n.Keys && forall k | k in m :: m[k] == n[k]
    ensures m == n
  {
  }

  /** The same sum, row by row. */
  method Sum<K(==)>(m: map<K, int>) returns (sum: int)
    ensures sum == Total(m)
  {
    sum := 0;
    var rest := m;
    while rest != map[]
      invariant sum + Total(rest) == Total(m)
      decreases |rest|
    {
      var k :| k in rest;
      TotalSplit(rest, k);
      sum := sum + rest[k];
      rest := rest - {k};
    }
  }

  ghost function Pick<T>(s: set<T>): (x: T)
    requires s != {}
    ensures x in s
  {
    var x :| x in s;
    x
  }

  lemma {:induction false} Subset<T>(a: set<T>, b: set<T>)
    requires a <= b
    ensures |a| <= |b|
    decreases |a|
  {
    if a != {} {
      var x := Pick(a);
      Subset(a - {x}, b - {x});
    }
  }

  /** A nonempty finite set of integers has a least element. */
  lemma {:induction false} LeastExists(s: set<int>)
    requires s != {}
    ensures exists m :: m in s && (forall x | x in s :: m <= x)
    decreases |s|
  {
    var c := Pick(s);
    var rest := s - {c};
    assert forall x | x in s :: x == c || x in rest;
    if rest != {} {
      LeastExists(rest);
      var n: int :| n in rest && (forall x | x in rest :: n <= x);
      assert Min(c, n) in s;
    }
  }

  ghost function Least(s: set<int>): (m: int)
    requires s != {}
    ensures m in s && forall x | x in s :: m <= x
  {
    LeastExists(s);
    var m :| m in s && forall x | x in s :: m <= x;
    m
  }

  /** The n least elements: ORDER BY id followed by taking the first n rows. */
  ghost function FirstOf(s: set<int>, n: nat): (r: set<int>)
    requires n <= |s|
    ensures r <= s && |r| == n
    ensures forall x, y | x in r && y in s && y !in r :: x < y
  {
    if n == 0 then {}
    else
      var m := Least(s);
      var rest := FirstOf(s - {m}, n - 1);
      assert forall y | y in s && y !in rest && y != m :: y in s - {m};
      {m} + rest
  }
}
