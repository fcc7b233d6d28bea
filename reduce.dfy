/**
 * Row reduction of lib/aggregators/reduce.js: `pluck`, the four column
 * strategies of `strategiesMap` and the reshaping in `Reduce.print` that
 * turns a result matrix into one row per requested strategy.
 *
 * Values are integers. A reduced cell is what JavaScript puts in the new
 * row: the strategy name (a string), a number, the mode's key (a string),
 * `NaN` or `undefined`.
 */
module Reduce {
  import opened Wrappers
  import Strings

  type Matrix = seq<seq<int>>

  datatype Cell =
    | Text(s: string)    // a string: a strategy name, a mode key or "none"
    | Int(n: int)        // a number produced by min or max
    | Mean(q: real)      // the number produced by avg, taken exactly
    | NotANumber         // NaN, what avg gives for an empty column
    | Undefined          // undefined, what min and max give for an empty column

  datatype ReduceError =
    | NoRows                    // `res.rows[0]` is undefined: reading `.map` of it throws
    | NotAFunction(name: string) // `strategiesMap[name]` is undefined: calling it throws

  /** Every row reaches as far as the first one, so every column is complete. */
  predicate CoversColumns(rows: Matrix)
  {
    rows != [] && forall k :: 0 <= k < |rows| ==> |rows[0]| <= |rows[k]|
  }

  /** `pluck(matrix, column)`: the column-th value of every row, row by row. */
  function Pluck(matrix: Matrix, column: nat): (col: seq<int>)
    requires forall k :: 0 <= k < |matrix| ==> column < |matrix[k]|
    ensures |col| == |matrix|
    ensures forall k :: 0 <= k < |matrix| ==> col[k] == matrix[k][column]
  {
    if matrix == [] then [] else [matrix[0][column]] + Pluck(matrix[1..], column)
  }

  // ---------------------------------------------------------------- avg

  /** `vals.reduce((tot, val) => tot + val, 0)`. */
  function Sum(vals: seq<int>): int
  {
    if vals == [] then 0 else Sum(vals[..|vals| - 1]) + vals[|vals| - 1]
  }

  /** The `avg` strategy: sum over length, `NaN` (0 / 0) for no values. */
  function Avg(vals: seq<int>): (c: Cell)
    ensures vals == [] <==> c == NotANumber
    ensures vals != [] ==> c.Mean? && c.q * |vals| as real == Sum(vals) as real
  {
    if vals == [] then NotANumber else Mean(Sum(vals) as real / |vals| as real)
  }

  lemma {:induction false} SumBounds(vals: seq<int>, lo: int, hi: int)
    requires forall k :: 0 <= k < |vals| ==> lo <= vals[k] <= hi
    ensures |vals| * lo <= Sum(vals) <= |vals| * hi
  {
    if vals != [] {
      var n := |vals| - 1;
      SumBounds(vals[..n], lo, hi);
      assert |vals| * lo == n * lo + lo && |vals| * hi == n * hi + hi;
    }
  }

  lemma QuotientBounds(s: real, n: real, lo: real, hi: real)
    requires n > 0.0 && n * lo <= s <= n * hi
    ensures lo <= s / n <= hi
  {
    var q := s / n;
    assert q * n == s;
    assert (q - lo) * n == s - n * lo;
    assert (hi - q) * n == n * hi - s;
  }

  lemma CastProduct(n: nat, v: int)
    ensures (n * v) as real == n as real * v as real
  {
  }

  lemma MeanBounds(sum: int, n: nat, lo: int, hi: int)
    requires n > 0 && n * lo <= sum <= n * hi
    ensures lo as real <= sum as real / n as real <= hi as real
  {
    CastProduct(n, lo);
    CastProduct(n, hi);
    QuotientBounds(sum as real, n as real, lo as real, hi as real);
  }

  /** The mean of a non-empty column lies between its minimum and its maximum. */
  lemma AvgWithinExtremes(vals: seq<int>)
    requires vals != []
    ensures Min(vals).Int? && Max(vals).Int? && Avg(vals).Mean?
    ensures Min(vals).n as real <= Avg(vals).q <= Max(vals).n as real
  {
    var lo, hi := Min(vals).n, Max(vals).n;
    assert forall k :: 0 <= k < |vals| ==> lo <= vals[k] <= hi;
    SumBounds(vals, lo, hi);
    MeanBounds(Sum(vals), |vals|, lo, hi);
  }

  // ---------------------------------------------------------------- min, max

  /** `Math.min(a, b)` on numbers. */
  function MathMin(a: int, b: int): int { if a <= b then a else b }

  /** `Math.max(a, b)` on numbers. */
  function MathMax(a: int, b: int): int { if a >= b then a else b }

  /** `vals.reduce((min, val) => Math.min(val, min), acc)`. */
  function FoldMin(acc: int, vals: seq<int>): (r: int)
    ensures r == acc || r in vals
    ensures r <= acc && forall k :: 0 <= k < |vals| ==> r <= vals[k]
    decreases |vals|
  {
    if vals == [] then acc else FoldMin(MathMin(vals[0], acc), vals[1..])
  }

  /** `vals.reduce((max, val) => Math.max(val, max), acc)`. */
  function FoldMax(acc: int, vals: seq<int>): (r: int)
    ensures r == acc || r in vals
    ensures r >= acc && forall k :: 0 <= k < |vals| ==> r >= vals[k]
    decreases |vals|
  {
    if vals == [] then acc else FoldMax(MathMax(vals[0], acc), vals[1..])
  }

  /** The `min` strategy: the fold starts from `vals[0]`, `undefined` when there is none. */
  function Min(vals: seq<int>): (c: Cell)
    ensures vals == [] <==> c == Undefined
    ensures vals != [] ==> c.Int? && c.n in vals && forall k :: 0 <= k < |vals| ==> c.n <= vals[k]
  {
    if vals == [] then Undefined else Int(FoldMin(vals[0], vals))
  }

  /** The `max` strategy: the fold starts from `vals[0]`, `undefined` when there is none. */
  function Max(vals: seq<int>): (c: Cell)
    ensures vals == [] <==> c == Undefined
    ensures vals != [] ==> c.Int? && c.n in vals && forall k :: 0 <= k < |vals| ==> vals[k] <= c.n
  {
    if vals == [] then Undefined else Int(FoldMax(vals[0], vals))
  }

  // ---------------------------------------------------------------- median (a mode)

  /** How many times `v` occurs in `vals`: the final `obj[v]`. */
  function Occurrences(vals: seq<int>, v: int): nat
  {
    multiset(vals)[v]
  }

  /**
   * Integer keys that JavaScript treats as array indices (0 <= v < 2^32 - 1):
   * `Object.keys` lists them first, in ascending numeric order.
   */
  predicate IsArrayIndex(v: int)
  {
    0 <= v < 0xFFFF_FFFF
  }

  predicate StrictlyIncreasing(s: seq<int>)
  {
    forall i, j :: 0 <= i < j < |s| ==> s[i] < s[j]
  }

  /** The distinct values of `vals` in order of first occurrence: the order in which `obj` gains its properties. */
  function FirstOccurrences(vals: seq<int>): (props: seq<int>)
    ensures forall v :: v in props <==> v in vals
  {
    if vals == [] then []
    else
      var prev := FirstOccurrences(vals[..|vals| - 1]);
      var v := vals[|vals| - 1];
      assert vals == vals[..|vals| - 1] + [v];
      if v in prev then prev else prev + [v]
  }

  /** A value below every element of a strictly increasing sequence can go in front. */
  lemma PrependIncreasing(h: int, rest: seq<int>)
    requires StrictlyIncreasing(rest)
    requires forall v :: v in rest ==> h < v
    ensures StrictlyIncreasing([h] + rest)
  {
    var r := [h] + rest;
    forall i, j | 0 <= i < j < |r| ensures r[i] < r[j] {
      assert r[j] == rest[j - 1];
      if i > 0 { assert r[i] == rest[i - 1]; } else { assert rest[j - 1] in rest; }
    }
  }

  /** Inserts `x` into a strictly increasing sequence, keeping it strictly increasing. */
  function InsertAscending(x: int, s: seq<int>): (r: seq<int>)
    requires StrictlyIncreasing(s)
    ensures StrictlyIncreasing(r)
    ensures forall v :: v in r <==> v == x || v in s
  {
    if s == [] then [x]
    else if x < s[0] then
      assert forall v :: v in s ==> s[0] <= v by {
        forall v | v in s ensures s[0] <= v {
          var k :| 0 <= k < |s| && s[k] == v;
        }
      }
      PrependIncreasing(x, s);
      [x] + s
    else if x == s[0] then s
    else
      var rest := InsertAscending(x, s[1..]);
      assert forall v :: v in s[1..] ==> s[0] < v by {
        forall v | v in s[1..] ensures s[0] < v {
          var k :| 0 <= k < |s[1..]| && s[1..][k] == v;
          assert s[k + 1] == v;
        }
      }
      PrependIncreasing(s[0], rest);
      assert s == [s[0]] + s[1..];
      [s[0]] + rest
  }

  /** The array-index properties of an object, ascending. */
  function IndexKeys(props: seq<int>): (keys: seq<int>)
    ensures StrictlyIncreasing(keys)
    ensures forall v :: v in keys <==> v in props && IsArrayIndex(v)
  {
    if props == [] then []
    else if IsArrayIndex(props[0]) then InsertAscending(props[0], IndexKeys(props[1..]))
    else IndexKeys(props[1..])
  }

  /** The other properties of an object, in insertion order. */
  function OtherKeys(props: seq<int>): (keys: seq<int>)
    ensures forall v :: v in keys <==> v in props && !IsArrayIndex(v)
  {
    if props == [] then []
    else if IsArrayIndex(props[0]) then OtherKeys(props[1..])
    else [props[0]] + OtherKeys(props[1..])
  }

  /** `Object.keys` of an object whose properties were added in the order `props`. */
  function ObjectKeys(props: seq<int>): (keys: seq<int>)
    ensures forall v :: v in keys <==> v in props
    ensures forall i, j :: 0 <= i < j < |keys| && IsArrayIndex(keys[j]) ==> IsArrayIndex(keys[i]) && keys[i] < keys[j]
  {
    var front, back := IndexKeys(props), OtherKeys(props);
    var keys := front + back;
    assert forall k :: |front| <= k < |keys| ==> keys[k] == back[k - |front|] && back[k - |front|] in back;
    assert forall k :: 0 <= k < |front| ==> keys[k] == front[k] && front[k] in front;
    keys
  }

  /** `Object.keys(obj)` after the counting pass over `vals`. */
  function KeyOrder(vals: seq<int>): (keys: seq<int>)
    ensures forall v :: v in keys <==> v in vals
    ensures forall i, j :: 0 <= i < j < |keys| && IsArrayIndex(keys[j]) ==> IsArrayIndex(keys[i]) && keys[i] < keys[j]
  {
    ObjectKeys(FirstOccurrences(vals))
  }

  predicate Distinct(s: seq<int>)
  {
    forall i, j :: 0 <= i < j < |s| ==> s[i] != s[j]
  }

  /**
   * The counting object gains each value once, and in first-occurrence
   * order: a property added earlier occurs in `vals` before any occurrence of
   * a property added later.
   */
  lemma {:induction false} FirstOccurrencesInOrder(vals: seq<int>)
    ensures Distinct(FirstOccurrences(vals))
    ensures forall i, j, k :: 0 <= i < j < |FirstOccurrences(vals)| && 0 <= k < |vals| && vals[k] == FirstOccurrences(vals)[j] ==>
      FirstOccurrences(vals)[i] in vals[..k]
  {
    if vals != [] {
      var n := |vals| - 1;
      var pre, v := vals[..n], vals[n];
      FirstOccurrencesInOrder(pre);
      var prev := FirstOccurrences(pre);
      var props := FirstOccurrences(vals);
      assert vals == pre + [v];
      assert props == if v in prev then prev else prev + [v];
      assert forall t :: 0 <= t < n ==> vals[t] == pre[t];
      forall i, j, k | 0 <= i < j < |props| && 0 <= k < |vals| && vals[k] == props[j]
        ensures props[i] in vals[..k]
      {
        assert props[i] == prev[i] && prev[i] in pre;
        if j < |prev| {
          assert props[j] == prev[j];
          if k < n {
            assert pre[k] == prev[j];
            assert prev[i] in pre[..k];
            assert pre[..k] == vals[..k];
          } else {
            assert vals[..k] == pre;
          }
        } else {
          assert props[j] == v && v !in pre;
          assert k == n;
          assert vals[..k] == pre;
        }
      }
    }
  }

  /** Without repeated properties, the other keys keep the order of `props`. */
  lemma {:induction false} OtherKeysInOrder(props: seq<int>)
    requires Distinct(props)
    ensures forall i, j, b :: 0 <= i < j < |OtherKeys(props)| && 0 <= b < |props| && props[b] == OtherKeys(props)[j] ==>
      OtherKeys(props)[i] in props[..b]
  {
    if props != [] {
      var rest := props[1..];
      assert Distinct(rest) by {
        forall i, j | 0 <= i < j < |rest| ensures rest[i] != rest[j] {
          assert rest[i] == props[i + 1] && rest[j] == props[j + 1];
        }
      }
      OtherKeysInOrder(rest);
      var keys := OtherKeys(props);
      var tail := OtherKeys(rest);
      var skip := IsArrayIndex(props[0]);
      assert keys == if skip then tail else [props[0]] + tail;
      forall i, j, b | 0 <= i < j < |keys| && 0 <= b < |props| && props[b] == keys[j]
        ensures keys[i] in props[..b]
      {
        var jt := if skip then j else j - 1;
        assert keys[j] == tail[jt];
        assert tail[jt] in rest;
        var r :| 0 <= r < |rest| && rest[r] == tail[jt];
        assert props[r + 1] == props[b];
        assert b == r + 1;
        assert props[..b] == [props[0]] + rest[..r];
        if skip || i > 0 {
          var it := if skip then i else i - 1;
          assert keys[i] == tail[it];
          assert tail[it] in rest[..r];
        } else {
          assert keys[i] == props[0];
        }
      }
    }
  }

  /**
   * The `reduce` over the keys: a key replaces the current pick only when
   * its count is strictly above `maxCount`, which then becomes that count.
   */
  function ModeFrom(vals: seq<int>, keys: seq<int>, best: Option<int>, maxCount: int): (r: Option<int>)
    ensures r == best || exists k :: 0 <= k < |keys| && r == Some(keys[k]) && Occurrences(vals, keys[k]) > maxCount
  {
    if keys == [] then best
    else
      var c := Occurrences(vals, keys[0]);
      assert forall k :: 1 <= k < |keys| ==> keys[1..][k - 1] == keys[k];
      if c > maxCount then ModeFrom(vals, keys[1..], Some(keys[0]), c)
      else ModeFrom(vals, keys[1..], best, maxCount)
  }

  /** The value the `median` strategy picks: `maxCount` starts at 1 and the pick at `null`. */
  function Mode(vals: seq<int>): (r: Option<int>)
    ensures r.Some? ==> r.value in vals && Occurrences(vals, r.value) >= 2
  {
    ModeFrom(vals, KeyOrder(vals), None, 1)
  }

  /** The `median` strategy: the picked key as a string, `'none'` when nothing was picked. */
  function Median(vals: seq<int>): (r: string)
    ensures vals == [] ==> r == "none"
    ensures r != "none" ==> exists v :: v in vals && Occurrences(vals, v) >= 2 && r == Strings.KeyString(v)
  {
    match Mode(vals)
    case None => "none"
    case Some(v) => Strings.KeyString(v)
  }

  /** No key in `keys` occurs more than `m` times. */
  predicate AllAtMost(vals: seq<int>, keys: seq<int>, m: int)
  {
    forall k :: 0 <= k < |keys| ==> Occurrences(vals, keys[k]) <= m
  }

  /** `keys[j]` has the largest count of all keys, and every earlier key a strictly smaller one. */
  predicate FirstLargestAt(vals: seq<int>, keys: seq<int>, j: int)
  {
    && 0 <= j < |keys|
    && AllAtMost(vals, keys, Occurrences(vals, keys[j]))
    && forall k :: 0 <= k < j ==> Occurrences(vals, keys[k]) < Occurrences(vals, keys[j])
  }

  /** If no key beats `maxCount`, the fold keeps its initial pick. */
  lemma {:induction false} ModeFromKeeps(vals: seq<int>, keys: seq<int>, best: Option<int>, maxCount: int)
    requires AllAtMost(vals, keys, maxCount)
    ensures ModeFrom(vals, keys, best, maxCount) == best
  {
    if keys != [] {
      assert Occurrences(vals, keys[0]) <= maxCount;
      ModeFromKeeps(vals, keys[1..], best, maxCount);
    }
  }

  /** If some key beats `maxCount`, the fold ends on the first key with the largest count. */
  lemma {:induction false} ModeFromPicks(vals: seq<int>, keys: seq<int>, best: Option<int>, maxCount: int)
    returns (j: int)
    requires !AllAtMost(vals, keys, maxCount)
    ensures FirstLargestAt(vals, keys, j) && Occurrences(vals, keys[j]) > maxCount
    ensures ModeFrom(vals, keys, best, maxCount) == Some(keys[j])
  {
    var c := Occurrences(vals, keys[0]);
    var rest := keys[1..];
    assert forall k :: 1 <= k < |keys| ==> keys[k] == rest[k - 1];
    if c > maxCount {
      if AllAtMost(vals, rest, c) {
        ModeFromKeeps(vals, rest, Some(keys[0]), c);
        j := 0;
      } else {
        var j' := ModeFromPicks(vals, rest, Some(keys[0]), c);
        j := j' + 1;
      }
    } else {
      var j' := ModeFromPicks(vals, rest, best, maxCount);
      j := j' + 1;
    }
  }

  /** When the `median` strategy picks something, it picks the first key in key order with the largest count, and that count is at least 2. */
  lemma ModeIsFirstLargest(vals: seq<int>) returns (j: int)
    requires Mode(vals).Some?
    ensures FirstLargestAt(vals, KeyOrder(vals), j)
    ensures Mode(vals) == Some(KeyOrder(vals)[j]) && Occurrences(vals, KeyOrder(vals)[j]) >= 2
  {
    if AllAtMost(vals, KeyOrder(vals), 1) {
      ModeFromKeeps(vals, KeyOrder(vals), None, 1);
      assert false;
    }
    j := ModeFromPicks(vals, KeyOrder(vals), None, 1);
  }

  /** `median` answers 'none' exactly when no value occurs twice (the empty column included). */
  lemma MedianNoneIffNoRepeats(vals: seq<int>)
    ensures Median(vals) == "none" <==> forall v :: v in vals ==> Occurrences(vals, v) <= 1
  {
    var keys := KeyOrder(vals);
    if AllAtMost(vals, keys, 1) {
      ModeFromKeeps(vals, keys, None, 1);
      forall v | v in vals ensures Occurrences(vals, v) <= 1 {
        var k :| 0 <= k < |keys| && keys[k] == v;
      }
    } else {
      var j := ModeFromPicks(vals, keys, None, 1);
      var key := Strings.KeyString(keys[j]);
      assert key[0] != 'n';
      assert keys[j] in vals;
    }
  }

  /** A picked value occurs in the column, at least twice, and no value occurs more often. */
  lemma MedianIsMostFrequent(vals: seq<int>, m: int)
    requires Mode(vals) == Some(m)
    ensures m in vals && Occurrences(vals, m) >= 2
    ensures forall v :: v in vals ==> Occurrences(vals, v) <= Occurrences(vals, m)
    ensures Median(vals) == Strings.KeyString(m)
  {
    var keys := KeyOrder(vals);
    var j := ModeIsFirstLargest(vals);
    forall v | v in vals ensures Occurrences(vals, v) <= Occurrences(vals, m) {
      var k :| 0 <= k < |keys| && keys[k] == v;
    }
  }

  /**
   * Ties between array-index values go to the smallest one, because
   * `Object.keys` lists those keys in ascending order and later keys need a
   * strictly larger count to win.
   */
  lemma MedianTieGoesToSmallerIndex(vals: seq<int>, m: int, w: int)
    requires Mode(vals) == Some(m)
    requires w in vals && w != m && IsArrayIndex(w)
    requires Occurrences(vals, w) == Occurrences(vals, m)
    ensures IsArrayIndex(m) && m < w
  {
    var props := FirstOccurrences(vals);
    var keys := KeyOrder(vals);
    var front := IndexKeys(props);
    assert keys == front + OtherKeys(props);
    var j := ModeIsFirstLargest(vals);
    var k :| 0 <= k < |keys| && keys[k] == w;
    assert k != j && !(k < j);
    assert front[j] < front[k];
  }

  /**
   * A tie with a value that is not an array index goes to the picked value
   * only if it is an array index or occurs first: the counting object lists
   * such keys in insertion order.
   */
  lemma MedianTieGoesToEarlierOccurrence(vals: seq<int>, m: int, w: int)
    requires Mode(vals) == Some(m)
    requires w in vals && w != m && !IsArrayIndex(w)
    requires Occurrences(vals, w) == Occurrences(vals, m)
    ensures IsArrayIndex(m) || forall k :: 0 <= k < |vals| && vals[k] == w ==> m in vals[..k]
  {
    var props := FirstOccurrences(vals);
    var keys := KeyOrder(vals);
    var front, back := IndexKeys(props), OtherKeys(props);
    assert keys == front + back;
    var j := ModeIsFirstLargest(vals);
    var k :| 0 <= k < |keys| && keys[k] == w;
    assert k != j && !(k < j);
    if !IsArrayIndex(m) {
      assert j >= |front| && k >= |front|;
      assert back[j - |front|] == m && back[k - |front|] == w;
      FirstOccurrencesInOrder(vals);
      OtherKeysInOrder(props);
      var b :| 0 <= b < |props| && props[b] == w;
      assert back[j - |front|] in props[..b];
      var a :| 0 <= a < b && props[a] == m;
      forall t | 0 <= t < |vals| && vals[t] == w ensures m in vals[..t] {
        assert props[a] in vals[..t];
      }
    }
  }

  /** Between negative values the one that occurs first wins: [-2, -1, -1, -2] gives "-2". */
  lemma MedianNegativeTie()
    ensures Median([-2, -1, -1, -2]) == "-2"
  {
    var vals := [-2, -1, -1, -2];
    assert multiset(vals) == multiset{-2, -2, -1, -1};
    assert Occurrences(vals, -2) == 2 && Occurrences(vals, -1) == 2;
    var m := NegativeTieMode();
    assert vals[0] == -2 && vals[..0] == [] && !IsArrayIndex(-1);
    if m == -1 {
      MedianTieGoesToEarlierOccurrence(vals, m, -2);
      assert false;
    }
    Strings.KeyStringMinusTwo();
  }

  lemma NegativeTieMode() returns (m: int)
    ensures Mode([-2, -1, -1, -2]) == Some(m) && (m == -2 || m == -1)
  {
    var vals := [-2, -1, -1, -2];
    assert multiset(vals) == multiset{-2, -2, -1, -1};
    assert Occurrences(vals, -2) == 2;
    var keys := KeyOrder(vals);
    assert -2 in keys;
    var j := ModeFromPicks(vals, keys, None, 1);
    m := keys[j];
    assert m in vals;
  }

  /** Two concrete columns: [10, 10, 20] gives "10", an empty column gives "none". */
  lemma MedianExamples()
    ensures Median([10, 10, 20]) == "10"
    ensures Median([]) == "none"
  {
    var m := ModeOfExample();
    assert Median([10, 10, 20]) == Strings.KeyString(10);
    Strings.KeyStringTen();
    MedianNoneIffNoRepeats([]);
  }

  lemma ModeOfExample() returns (m: int)
    ensures Mode([10, 10, 20]) == Some(m) && m == 10
  {
    var vals := [10, 10, 20];
    assert vals == [10, 10] + [20];
    assert multiset(vals)[10] == 2 && multiset(vals)[20] == 1;
    var keys := KeyOrder(vals);
    assert 10 in keys;
    var j := ModeFromPicks(vals, keys, None, 1);
    m := keys[j];
    assert m in vals;
  }

  /**
   * The counting pass: `obj[v]` is how often `v` occurs, and `props` lists the
   * properties in the order the object gains them.
   */
  method CountValues(vals: seq<int>) returns (obj: map<int, nat>, props: seq<int>)
    ensures props == FirstOccurrences(vals)
    ensures forall v :: v in obj <==> v in vals
    ensures forall v :: v in obj ==> obj[v] == Occurrences(vals, v)
  {
    obj, props := map[], [];
    var i := 0;
    while i < |vals|
      invariant 0 <= i <= |vals|
      invariant props == FirstOccurrences(vals[..i])
      invariant forall v :: v in obj <==> v in vals[..i]
      invariant forall v :: v in obj ==> obj[v] == multiset(vals[..i])[v]
    {
      var v := vals[i];
      assert vals[..i + 1] == vals[..i] + [v];
      if v !in obj {
        props := props + [v];
      }
      obj := obj[v := (if v in obj then obj[v] else 0) + 1];
      i := i + 1;
    }
    assert vals[..i] == vals;
  }

  /**
   * The `median` strategy as the source runs it: one pass fills the counting
   * object `obj` (tracking the order in which it gains properties), a second
   * pass walks `Object.keys(obj)` with a strict `>` against `maxCount`.
   */
  method MedianByCounting(vals: seq<int>) returns (median: string)
    ensures median == Median(vals)
  {
    var obj, props := CountValues(vals);
    var keys := ObjectKeys(props);
    var best: Option<int> := None;
    var maxCount := 1;
    var j := 0;
    while j < |keys|
      invariant 0 <= j <= |keys|
      invariant ModeFrom(vals, keys[j..], best, maxCount) == Mode(vals)
    {
      var k := keys[j];
      assert keys[j..][1..] == keys[j + 1..];
      if obj[k] > maxCount {
        best := Some(k);
        maxCount := obj[k];
      }
      j := j + 1;
    }
    median := if best.None? then "none" else Strings.KeyString(best.value);
  }

  // ---------------------------------------------------------------- reshaping

  /** `Object.keys(strategiesMap)`, in the order the strategies are defined. */
  const StrategyNames: seq<string> := ["avg", "min", "max", "median"]

  /** `strategiesMap[name](vals)`: calling a missing entry throws. */
  function ApplyStrategy(name: string, vals: seq<int>): (r: Result<Cell, ReduceError>)
    ensures r.Failure? <==> name !in StrategyNames
  {
    if name == "avg" then Success(Avg(vals))
    else if name == "min" then Success(Min(vals))
    else if name == "max" then Success(Max(vals))
    else if name == "median" then Success(Text(Median(vals)))
    else Failure(NotAFunction(name))
  }

  /** The strategies one reduction asks for: all of them for "all", else the one named. */
  function Requested(strategy: string): (names: seq<string>)
    ensures strategy == "all" ==> names == ["avg", "min", "max", "median"]
    ensures strategy != "all" ==> names == [strategy]
  {
    if strategy == "all" then StrategyNames else [strategy]
  }

  /**
   * One output row, `res.rows[0].map((r, i) => ...)`: the strategy name in
   * cell 0, the strategy applied to column i in cell i.
   */
  function ReduceRow(rows: Matrix, name: string): (r: Result<seq<Cell>, ReduceError>)
    requires CoversColumns(rows)
    ensures r.Failure? <==> |rows[0]| > 1 && name !in StrategyNames
    ensures r.Success? ==> |r.value| == |rows[0]|
    ensures r.Success? && |rows[0]| > 0 ==> r.value[0] == Text(name)
    ensures r.Success? ==> forall i :: 1 <= i < |rows[0]| ==>
      ApplyStrategy(name, Pluck(rows, i)) == Success(r.value[i])
  {
    if |rows[0]| > 1 && name !in StrategyNames then Failure(NotAFunction(name))
    else Success(seq(|rows[0]|, i requires 0 <= i < |rows[0]| =>
      if i == 0 then Text(name) else ApplyStrategy(name, Pluck(rows, i)).value))
  }

  /**
   * The new `res.rows`: one row per requested strategy, in the order of
   * `Object.keys(strategiesMap)` for "all".
   */
  function ReduceRows(rows: Matrix, strategy: string): (r: Result<seq<seq<Cell>>, ReduceError>)
    requires rows == [] || CoversColumns(rows)
    ensures rows == [] ==> r == Failure(NoRows)
    ensures rows != [] ==> (r.Failure? <==> strategy != "all" && strategy !in StrategyNames && |rows[0]| > 1)
    ensures r.Success? ==> |r.value| == |Requested(strategy)|
    ensures rows != [] && strategy == "all" ==> r.Success? && |r.value| == 4
    ensures strategy != "all" && r.Success? ==> |r.value| == 1
    ensures r.Success? ==> forall k :: 0 <= k < |r.value| ==>
      ReduceRow(rows, Requested(strategy)[k]) == Success(r.value[k])
  {
    if rows == [] then Failure(NoRows)
    else if strategy == "all" then
      Success(seq(|StrategyNames|, k requires 0 <= k < |StrategyNames| => ReduceRow(rows, StrategyNames[k]).value))
    else
      match ReduceRow(rows, strategy)
      case Success(row) => Success([row])
      case Failure(e) => Failure(e)
  }

  /** Each row of a successful reduction: its name first, then that strategy over every column. */
  lemma ReducedRowShape(rows: Matrix, strategy: string, k: int, i: int)
    requires CoversColumns(rows) && ReduceRows(rows, strategy).Success?
    requires 0 <= k < |ReduceRows(rows, strategy).value|
    ensures |ReduceRows(rows, strategy).value[k]| == |rows[0]|
    ensures |rows[0]| > 0 ==> ReduceRows(rows, strategy).value[k][0] == Text(Requested(strategy)[k])
    ensures 1 <= i < |rows[0]| ==>
      ApplyStrategy(Requested(strategy)[k], Pluck(rows, i)) == Success(ReduceRows(rows, strategy).value[k][i])
  {
    var out := ReduceRows(rows, strategy).value;
    assert ReduceRow(rows, Requested(strategy)[k]) == Success(out[k]);
  }

  /** What `Reduce.print` hands on after executing its query. */
  datatype Outcome =
    | Unreduced(rows: Matrix)                       // `postPrint` unset: the result as executed
    | Reduced(style: string, table: seq<seq<Cell>>) // passed to the printers with `postPrint`

  /**
   * The body of the `then` in `Reduce.print`: a falsy `postPrint` (absent or
   * empty) returns the executed rows untouched; otherwise the rows are reduced.
   */
  function AfterExecution(rows: Matrix, strategy: string, postPrint: Option<string>): (r: Result<Outcome, ReduceError>)
    requires rows == [] || CoversColumns(rows)
    ensures (postPrint == None || postPrint == Some("")) ==> r == Success(Unreduced(rows))
    ensures postPrint.Some? && postPrint.value != "" ==>
      match ReduceRows(rows, strategy)
      case Success(out) => r == Success(Reduced(postPrint.value, out))
      case Failure(e) => r == Failure(e)
  {
    if postPrint.None? || postPrint.value == "" then Success(Unreduced(rows))
    else
      match ReduceRows(rows, strategy)
      case Success(out) => Success(Reduced(postPrint.value, out))
      case Failure(e) => Failure(e)
  }
}
