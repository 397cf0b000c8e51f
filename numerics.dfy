/*
 * The numeric summaries behind the default values
 * (calcAttrMedianMeanInt and calcAttrMedianMeanFloat in
 * schema/schema_analysis.py): a value histogram is turned back into the
 * list of values it counted, keeping only the keys int() (or float())
 * accepts, each repeated as often as it was seen, and numpy's median and
 * mean are taken over that list.
 *
 * numpy is modelled on exact reals: the median of a sorted list is its
 * middle element, or the average of the two middle elements; the mean is
 * the sum over the length; both are NaN on an empty list.
 */
module Numerics {
  import opened TypeUtils

  /** A numpy float64 result: a finite value or NaN. */
  datatype PyNum = Finite(x: real) | NaN

  predicate IsSorted(s: seq<real>)
  {
    forall i, j :: 0 <= i < j < |s| ==> s[i] <= s[j]
  }

  /** Insert `x` into a sorted list, keeping it sorted. */
  function Insert(x: real, s: seq<real>): (r: seq<real>)
    requires IsSorted(s)
    ensures IsSorted(r)
    ensures multiset(r) == multiset(s) + multiset{x}
  {
    if s == [] then [x]
    else if x <= s[0] then [x] + s
    else
      assert s == [s[0]] + s[1..];
      var rest := Insert(x, s[1..]);
      ConsSorted(s[0], s[1..], x, rest);
      [s[0]] + rest
  }

  /** Putting the head of a sorted list back in front of a sorted arrangement of its tail and `x`. */
  lemma ConsSorted(h: real, t: seq<real>, x: real, rest: seq<real>)
    requires IsSorted([h] + t) && h < x
    requires IsSorted(rest) && multiset(rest) == multiset(t) + multiset{x}
    ensures IsSorted([h] + rest)
    ensures multiset([h] + rest) == multiset([h] + t) + multiset{x}
  {
    forall k | 0 <= k < |rest|
      ensures h <= rest[k]
    {
      assert rest[k] in multiset(rest);
      if rest[k] != x {
        assert rest[k] in multiset(t);
        var j :| 0 <= j < |t| && t[j] == rest[k];
        assert ([h] + t)[0] == h && ([h] + t)[j + 1] == t[j];
      }
    }
    var r := [h] + rest;
    forall i, j | 0 <= i < j < |r|
      ensures r[i] <= r[j]
    {
      if i > 0 {
        assert r[i] == rest[i - 1] && r[j] == rest[j - 1];
      } else {
        assert r[j] == rest[j - 1];
      }
    }
  }

  /** The values in ascending order. */
  function Sort(s: seq<real>): (r: seq<real>)
    ensures IsSorted(r)
    ensures multiset(r) == multiset(s)
  {
    if s == [] then []
    else
      assert s == s[..|s| - 1] + [s[|s| - 1]];
      Insert(s[|s| - 1], Sort(s[..|s| - 1]))
  }

  /** Two ascending arrangements of the same values start with the same (least) value. */
  lemma SortedHeads(a: seq<real>, b: seq<real>)
    requires IsSorted(a) && IsSorted(b)
    requires multiset(a) == multiset(b)
    requires a != [] && b != []
    ensures a[0] == b[0]
  {
    assert a[0] in multiset(b) && b[0] in multiset(a);
    var i :| 0 <= i < |b| && b[i] == a[0];
    var j :| 0 <= j < |a| && a[j] == b[0];
    assert b[0] <= b[i] && a[0] <= a[j];
  }

  lemma SortedTail(a: seq<real>)
    requires IsSorted(a) && a != []
    ensures IsSorted(a[1..])
    ensures multiset(a[1..]) == multiset(a) - multiset{a[0]}
  {
    assert a == [a[0]] + a[1..];
  }

  /** A list of values has exactly one ascending arrangement. */
  lemma {:induction false} SortedUnique(a: seq<real>, b: seq<real>)
    requires IsSorted(a) && IsSorted(b)
    requires multiset(a) == multiset(b)
    ensures a == b
    decreases |a|
  {
    assert |a| == |multiset(a)| == |multiset(b)| == |b|;
    if a != [] {
      SortedHeads(a, b);
      SortedTail(a);
      SortedTail(b);
      SortedUnique(a[1..], b[1..]);
      assert a == [a[0]] + a[1..] && b == [b[0]] + b[1..];
    }
  }

  /** The middle element of an ascending list, or the average of its two middle elements. */
  function Middle(r: seq<real>): PyNum
    requires r != []
  {
    var n := |r|;
    if n % 2 == 1 then Finite(r[n / 2]) else Finite((r[n / 2 - 1] + r[n / 2]) / 2.0)
  }

  /** numpy.median. */
  function Median(s: seq<real>): PyNum
  {
    if s == [] then NaN else Middle(Sort(s))
  }

  function Sum(s: seq<real>): real
  {
    if s == [] then 0.0 else Sum(s[..|s| - 1]) + s[|s| - 1]
  }

  /** numpy.mean. */
  function Mean(s: seq<real>): PyNum
  {
    if s == [] then NaN else Finite(Sum(s) / |s| as real)
  }

  lemma {:induction false} SumAppend(a: seq<real>, b: seq<real>)
    ensures Sum(a + b) == Sum(a) + Sum(b)
    decreases |b|
  {
    if b == [] {
      assert a + b == a;
    } else {
      assert (a + b)[..|a + b| - 1] == a + b[..|b| - 1];
      SumAppend(a, b[..|b| - 1]);
    }
  }

  /** The sum does not depend on the order of the values. */
  lemma {:induction false} SumPermutation(a: seq<real>, b: seq<real>)
    requires multiset(a) == multiset(b)
    ensures Sum(a) == Sum(b)
    decreases |a|
  {
    assert |a| == |multiset(a)| == |multiset(b)| == |b|;
    if a != [] {
      var x := a[|a| - 1];
      var front := a[..|a| - 1];
      assert a == front + [x];
      assert x in multiset(b);
      var j :| 0 <= j < |b| && b[j] == x;
      var rest := b[..j] + b[j + 1..];
      assert b == b[..j] + [x] + b[j + 1..];
      assert multiset(front) == multiset(rest) by {
        assert multiset(b) == multiset(b[..j]) + multiset{x} + multiset(b[j + 1..]);
        assert multiset(rest) == multiset(b[..j]) + multiset(b[j + 1..]);
        assert multiset(a) == multiset(front) + multiset{x};
        assert multiset(front) + multiset{x} == multiset(rest) + multiset{x};
        forall y ensures multiset(front)[y] == multiset(rest)[y] {
          assert (multiset(front) + multiset{x})[y] == (multiset(rest) + multiset{x})[y];
        }
      }
      SumPermutation(front, rest);
      SumAppend(b[..j] + [x], b[j + 1..]);
      SumAppend(b[..j], [x]);
      SumAppend(b[..j], b[j + 1..]);
    }
  }

  /** Median and mean depend only on which values occur how often, not on their order. */
  lemma MedianMeanPermutation(a: seq<real>, b: seq<real>)
    requires multiset(a) == multiset(b)
    ensures Median(a) == Median(b) && Mean(a) == Mean(b)
  {
    assert |a| == |b| by {
      assert |a| == |multiset(a)| && |b| == |multiset(b)|;
    }
    assert Median(a) == Median(b) by {
      SortedUnique(Sort(a), Sort(b));
    }
    assert Mean(a) == Mean(b) by {
      SumPermutation(a, b);
    }
  }

  function Least(s: seq<real>): (m: real)
    requires s != []
    ensures m in s
    ensures forall x :: x in s ==> m <= x
  {
    if |s| == 1 then s[0]
    else
      var l := Least(s[1..]);
      assert s == [s[0]] + s[1..];
      if s[0] <= l then s[0] else l
  }

  function Greatest(s: seq<real>): (m: real)
    requires s != []
    ensures m in s
    ensures forall x :: x in s ==> x <= m
  {
    if |s| == 1 then s[0]
    else
      var g := Greatest(s[1..]);
      assert s == [s[0]] + s[1..];
      if g <= s[0] then s[0] else g
  }

  /** Sorting keeps every value between the least and the greatest one. */
  lemma SortWithin(s: seq<real>)
    requires s != []
    ensures |Sort(s)| == |s|
    ensures forall k :: 0 <= k < |Sort(s)| ==> Least(s) <= Sort(s)[k] <= Greatest(s)
  {
    var r, lo, hi := Sort(s), Least(s), Greatest(s);
    assert |r| == |multiset(r)| == |s|;
    forall k | 0 <= k < |r|
      ensures lo <= r[k] <= hi
    {
      assert r[k] in multiset(r);
      assert r[k] in s;
    }
  }

  /** The median of a non-empty list is a number between its least and greatest value. */
  lemma MedianBounds(s: seq<real>)
    requires s != []
    ensures Median(s).Finite?
    ensures Least(s) <= Median(s).x <= Greatest(s)
  {
    SortWithin(s);
  }

  lemma {:induction false} SumBounds(s: seq<real>, lo: real, hi: real)
    requires forall x :: x in s ==> lo <= x <= hi
    ensures |s| as real * lo <= Sum(s) <= |s| as real * hi
    decreases |s|
  {
    if s != [] {
      var front := s[..|s| - 1];
      assert s[|s| - 1] in s;
      forall x | x in front
        ensures lo <= x <= hi
      {
        var i :| 0 <= i < |front| && front[i] == x;
        assert s[i] == x && s[i] in s;
      }
      SumBounds(front, lo, hi);
    }
  }

  /** Dividing a total by a positive count keeps bounds scaled by that count. */
  lemma DivideBounds(total: real, n: real, lo: real, hi: real)
    requires n > 0.0
    requires n * lo <= total <= n * hi
    ensures lo <= total / n <= hi
  {
    var m := total / n;
    assert total == n * m;
  }

  /** The mean of a non-empty list is a number between its least and greatest value. */
  lemma MeanBounds(s: seq<real>)
    requires s != []
    ensures Mean(s).Finite?
    ensures Least(s) <= Mean(s).x <= Greatest(s)
  {
    SumBounds(s, Least(s), Greatest(s));
    DivideBounds(Sum(s), |s| as real, Least(s), Greatest(s));
  }

  /** A list of one repeated value has that value as median and as mean. */
  lemma ConstantList(x: real, n: nat)
    requires n > 0
    ensures Median(seq(n, _ => x)) == Finite(x) && Mean(seq(n, _ => x)) == Finite(x)
  {
    var s := seq(n, _ => x);
    assert s[0] in s;
    MedianBounds(s);
    MeanBounds(s);
  }

  /** `[value] * count` for a key that parses; nothing for one that does not. */
  function Copies(v: Option<real>, count: nat): seq<real>
  {
    if v.None? then [] else seq(count, _ => v.value)
  }

  /** The values one key contributes, as a multiset. */
  function Piece(v: Option<real>, count: nat): multiset<real>
  {
    multiset(Copies(v, count))
  }

  /**
   * The list calcAttrMedianMean* builds from a histogram, walking its keys
   * in some order: each key that `parse` accepts contributes its value as
   * often as the key was counted.
   */
  ghost function RebuiltList(parse: string -> Option<real>, m: map<string, nat>): seq<real>
    decreases |m|
  {
    if m == map[] then []
    else
      var k :| k in m;
      Copies(parse(k), m[k]) + RebuiltList(parse, m - {k})
  }

  /** The values the list holds, whatever the walking order. */
  ghost function Rebuilt(parse: string -> Option<real>, m: map<string, nat>): multiset<real>
  {
    multiset(RebuiltList(parse, m))
  }

  /** The rebuilt values do not depend on which key is taken first. */
  lemma {:induction false} RebuiltRemove(parse: string -> Option<real>, m: map<string, nat>, k: string)
    requires k in m
    ensures Rebuilt(parse, m) == Piece(parse(k), m[k]) + Rebuilt(parse, m - {k})
    decreases |m|
  {
    var j := RebuiltFirst(parse, m);
    if j != k {
      var mj, mk := m - {j}, m - {k};
      RebuiltRemove(parse, mj, k);
      RebuiltRemove(parse, mk, j);
      RemoveBoth(m, j, k);
      SwapFront(Rebuilt(parse, m), Piece(parse(j), m[j]), Rebuilt(parse, mj),
                Piece(parse(k), m[k]), Rebuilt(parse, mk), Rebuilt(parse, mj - {k}));
    }
  }

  lemma RemoveBoth(m: map<string, nat>, j: string, k: string)
    requires j in m && k in m && j != k
    ensures k in m - {j} && (m - {j})[k] == m[k]
    ensures j in m - {k} && (m - {k})[j] == m[j]
    ensures (m - {j}) - {k} == (m - {k}) - {j}
  {
  }

  lemma SwapFront(all: multiset<real>, a: multiset<real>, afterA: multiset<real>,
                  b: multiset<real>, afterB: multiset<real>, rest: multiset<real>)
    requires all == a + afterA && afterA == b + rest && afterB == a + rest
    ensures all == b + afterB
  {
  }

  /** The key the walk takes first, and what it leaves for the rest of the walk. */
  lemma RebuiltFirst(parse: string -> Option<real>, m: map<string, nat>) returns (j: string)
    requires m != map[]
    ensures j in m && Rebuilt(parse, m) == Piece(parse(j), m[j]) + Rebuilt(parse, m - {j})
  {
    j :| j in m && RebuiltList(parse, m) == Copies(parse(j), m[j]) + RebuiltList(parse, m - {j});
  }

  /** A key that does not parse contributes nothing. */
  lemma RebuiltSkipsUnparsable(parse: string -> Option<real>, m: map<string, nat>, k: string)
    requires k in m && parse(k).None?
    ensures Rebuilt(parse, m) == Rebuilt(parse, m - {k})
  {
    RebuiltRemove(parse, m, k);
  }

  /** A value occurs exactly when some key counted at least once parses to it. */
  lemma {:induction false} RebuiltMembers(parse: string -> Option<real>, m: map<string, nat>, x: real)
    ensures x in Rebuilt(parse, m) <==> exists k :: k in m && m[k] > 0 && parse(k) == Some(x)
    decreases |m|
  {
    if m != map[] {
      var k :| k in m;
      var rest := m - {k};
      RebuiltRemove(parse, m, k);
      RebuiltMembers(parse, rest, x);
      PieceMembers(parse(k), m[k], x);
      if x in Rebuilt(parse, m) && !(m[k] > 0 && parse(k) == Some(x)) {
        var k' :| k' in rest && rest[k'] > 0 && parse(k') == Some(x);
        RemoveOne(m, k, k');
      }
      if exists k' :: k' in m && m[k'] > 0 && parse(k') == Some(x) {
        var k' :| k' in m && m[k'] > 0 && parse(k') == Some(x);
        if k' != k {
          RemoveOne(m, k, k');
        }
      }
    }
  }

  /** `count` copies of a parsed value hold that value exactly when `count` is positive. */
  lemma PieceMembers(v: Option<real>, count: nat, x: real)
    ensures x in Piece(v, count) <==> count > 0 && v == Some(x)
  {
    if count > 0 && v == Some(x) {
      assert Copies(v, count)[0] == x;
    }
  }

  lemma RemoveOne(m: map<string, nat>, k: string, k': string)
    requires k' in m && k' != k
    ensures k' in m - {k} && (m - {k})[k'] == m[k']
  {
  }

  /** A key whose value no other key parses to contributes its value exactly `count` times. */
  lemma RebuiltMultiplicity(parse: string -> Option<real>, m: map<string, nat>, k: string)
    requires k in m && parse(k).Some?
    requires forall k' :: k' in m && k' != k ==> parse(k') != parse(k)
    ensures Rebuilt(parse, m)[parse(k).value] == m[k]
  {
    var x := parse(k).value;
    RebuiltRemove(parse, m, k);
    RepeatMultiset(x, m[k]);
    RebuiltMembers(parse, m - {k}, x);
    assert !(exists k' :: k' in m - {k} && (m - {k})[k'] > 0 && parse(k') == Some(x));
  }

  /** int() on a histogram key, as a real (numpy reads the int list as numbers). */
  function IntParse(py: Py): string -> Option<real>
  {
    s => if py.parseInt(s).Some? then Some(py.parseInt(s).value as real) else None
  }

  /** numpy's median and mean of the list calcAttrMedianMean* builds from `m`. */
  ghost function MedianMean(parse: string -> Option<real>, m: map<string, nat>): (PyNum, PyNum)
  {
    var s := RebuiltList(parse, m);
    (Median(s), Mean(s))
  }

  /** Both are NaN exactly when no key parses (or every parsing key has count 0). */
  lemma MedianMeanNaN(parse: string -> Option<real>, m: map<string, nat>)
    ensures MedianMean(parse, m).0.NaN? <==> Rebuilt(parse, m) == multiset{}
    ensures MedianMean(parse, m).1.NaN? <==> Rebuilt(parse, m) == multiset{}
  {
    assert |RebuiltList(parse, m)| == |Rebuilt(parse, m)|;
  }

  /** With at least one parsed value, the median is a number between the least and the greatest of them. */
  lemma MedianOfValues(parse: string -> Option<real>, m: map<string, nat>)
    requires Rebuilt(parse, m) != multiset{}
    ensures var s := RebuiltList(parse, m);
      && s != []
      && MedianMean(parse, m).0 == Median(s)
      && Median(s).Finite?
      && Least(s) <= Median(s).x <= Greatest(s)
  {
    MedianBounds(RebuiltList(parse, m));
  }

  /** The keys of `m` still to be walked, with their counts. */
  ghost function Restrict(m: map<string, nat>, keys: set<string>): map<string, nat>
  {
    map k | k in keys && k in m :: m[k]
  }

  /** `[value] * count`, as a multiset. */
  lemma {:induction false} RepeatMultiset(x: real, n: nat)
    ensures Piece(Some(x), n) == multiset{}[x := n]
    decreases n
  {
    if n > 0 {
      assert seq(n, _ => x) == seq(n - 1, _ => x) + [x];
      RepeatMultiset(x, n - 1);
    }
  }

  /** One key walked: the values still to come lose exactly that key's piece. */
  lemma RebuiltRestrictStep(parse: string -> Option<real>, m: map<string, nat>, keys: set<string>, k: string,
                            before: seq<real>, after: seq<real>)
    requires k in keys && keys <= m.Keys
    requires multiset(before) + Rebuilt(parse, Restrict(m, keys)) == Rebuilt(parse, m)
    requires after == before + Copies(parse(k), m[k])
    ensures multiset(after) + Rebuilt(parse, Restrict(m, keys - {k})) == Rebuilt(parse, m)
  {
    RebuiltRemove(parse, Restrict(m, keys), k);
    assert Restrict(m, keys) - {k} == Restrict(m, keys - {k});
  }

  /**
   * The list-building loop of calcAttrMedianMean*: walk the histogram and
   * extend the list by `count` copies of every key `parse` accepts.
   */
  method RebuildValues(parse: string -> Option<real>, attrVals: map<string, nat>) returns (valList: seq<real>)
    ensures multiset(valList) == Rebuilt(parse, attrVals)
  {
    valList := [];
    var todo := attrVals.Keys;
    assert Restrict(attrVals, todo) == attrVals;
    while todo != {}
      invariant todo <= attrVals.Keys
      invariant multiset(valList) + Rebuilt(parse, Restrict(attrVals, todo)) == Rebuilt(parse, attrVals)
      decreases todo
    {
      var valStr :| valStr in todo;
      var count := attrVals[valStr];
      var value := parse(valStr);
      ghost var before := valList;
      if value.Some? {
        valList := valList + seq(count, _ => value.value);
      }
      RebuiltRestrictStep(parse, attrVals, todo, valStr, before, valList);
      todo := todo - {valStr};
    }
    assert Restrict(attrVals, todo) == map[];
  }

  /** calcAttrMedianMeanInt: median and mean of the int-parsable values a histogram counted. */
  method CalcAttrMedianMeanInt(py: Py, attrVals: map<string, nat>) returns (resMedian: PyNum, resMean: PyNum)
    ensures (resMedian, resMean) == MedianMean(IntParse(py), attrVals)
  {
    var valList := RebuildValues(IntParse(py), attrVals);
    resMedian := Median(valList);
    resMean := Mean(valList);
    MedianMeanPermutation(valList, RebuiltList(IntParse(py), attrVals));
  }

  /** calcAttrMedianMeanFloat: median and mean of the float-parsable values a histogram counted. */
  method CalcAttrMedianMeanFloat(py: Py, attrVals: map<string, nat>) returns (resMedian: PyNum, resMean: PyNum)
    ensures (resMedian, resMean) == MedianMean(py.parseFloat, attrVals)
  {
    var valList := RebuildValues(py.parseFloat, attrVals);
    resMedian := Median(valList);
    resMean := Mean(valList);
    MedianMeanPermutation(valList, RebuiltList(py.parseFloat, attrVals));
  }
}
