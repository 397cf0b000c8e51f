/*
 * Per-path statistics gathered by the schema analysis (count_attrpath,
 * incr_attr_type, incr_attr_value and analyzeDoc in
 * schema/schema_analysis.py).
 *
 * Each flattened path has a record of how often it was present, a type
 * histogram, a value histogram keyed by the value's string form, a running
 * mode, and how many of its string values parse as an int or as a float.
 */
module Statistics {
  import opened TypeUtils
  import opened Flattening

  /**
   * A Python dict from type to count. Python dicts remember insertion
   * order, and the preferred-type scan in the validation depends on it, so
   * the order in which types were first inserted is kept beside the counts.
   */
  datatype TypeCounts = TypeCounts(counts: map<AType, nat>, order: seq<AType>)

  predicate TypeCountsWf(tc: TypeCounts)
  {
    && (forall i, j :: 0 <= i < j < |tc.order| ==> tc.order[i] != tc.order[j])
    && tc.counts.Keys == set t | t in tc.order
  }

  /** typesDict.get(t), with an absent type counting 0. */
  function GetCount(tc: TypeCounts, t: AType): nat
  {
    if t in tc.counts then tc.counts[t] else 0
  }

  /** typesDict[t] = n: a new key joins the end of the insertion order. */
  function SetCount(tc: TypeCounts, t: AType, n: nat): TypeCounts
  {
    TypeCounts(tc.counts[t := n], if t in tc.counts then tc.order else tc.order + [t])
  }

  /** incr_attr_type */
  function IncrAttrType(tc: TypeCounts, t: AType): TypeCounts
  {
    SetCount(tc, t, GetCount(tc, t) + 1)
  }

  /** The sum of the counts of the types in `order`. */
  function SumCounts(order: seq<AType>, counts: map<AType, nat>): nat
    decreases |order|
  {
    if order == [] then 0
    else (if order[0] in counts then counts[order[0]] else 0) + SumCounts(order[1..], counts)
  }

  function Total(tc: TypeCounts): nat
  {
    SumCounts(tc.order, tc.counts)
  }

  lemma {:induction false} SumCountsAppend(order: seq<AType>, counts: map<AType, nat>, t: AType)
    ensures SumCounts(order + [t], counts) == SumCounts(order, counts) + (if t in counts then counts[t] else 0)
    decreases |order|
  {
    if order != [] {
      assert (order + [t])[1..] == order[1..] + [t];
      SumCountsAppend(order[1..], counts, t);
    }
  }

  lemma {:induction false} SumCountsUpdate(order: seq<AType>, counts: map<AType, nat>, t: AType, n: nat)
    requires forall i, j :: 0 <= i < j < |order| ==> order[i] != order[j]
    ensures t in order ==>
      SumCounts(order, counts[t := n]) + (if t in counts then counts[t] else 0) == SumCounts(order, counts) + n
    ensures t !in order ==> SumCounts(order, counts[t := n]) == SumCounts(order, counts)
    decreases |order|
  {
    if order != [] {
      SumCountsUpdate(order[1..], counts, t, n);
      if order[0] == t {
        assert t !in order[1..] by {
          forall k | 0 <= k < |order[1..]| ensures order[1..][k] != t {
            assert order[k + 1] != order[0];
          }
        }
      }
    }
  }

  /** Setting one type's count keeps the histogram well formed, and changes that type's count only. */
  lemma SetCountWf(tc: TypeCounts, t: AType, n: nat)
    requires TypeCountsWf(tc)
    ensures TypeCountsWf(SetCount(tc, t, n))
    ensures t in SetCount(tc, t, n).order
    ensures GetCount(SetCount(tc, t, n), t) == n
    ensures forall u :: u != t ==> GetCount(SetCount(tc, t, n), u) == GetCount(tc, u)
  {
    var r := SetCount(tc, t, n);
    if t !in tc.counts {
      assert (set u | u in r.order) == (set u | u in tc.order) + {t};
    }
  }

  /**
   * Setting one type's count moves the histogram's total by the
   * difference between the new and the old count.
   */
  lemma SetCountTotal(tc: TypeCounts, t: AType, n: nat)
    requires TypeCountsWf(tc)
    ensures TypeCountsWf(SetCount(tc, t, n))
    ensures Total(SetCount(tc, t, n)) + GetCount(tc, t) == Total(tc) + n
  {
    SetCountWf(tc, t, n);
    SumCountsUpdate(tc.order, tc.counts, t, n);
    if t !in tc.counts {
      SumCountsAppend(tc.order, tc.counts[t := n], t);
    }
  }

  /** A histogram holding one type totals that type's count. */
  lemma TotalOfOne(tc: TypeCounts, t: AType)
    requires tc.order == [t]
    ensures Total(tc) == GetCount(tc, t)
  {
    assert tc.order[1..] == [];
    assert SumCounts(tc.order, tc.counts) == GetCount(tc, t) + SumCounts(tc.order[1..], tc.counts);
  }

  /** incr_attr_value: values are counted by their string form. */
  function IncrAttrValue(py: Py, values: map<string, nat>, v: Raw): map<string, nat>
  {
    var k := py.str(v);
    values[k := (if k in values then values[k] else 0) + 1]
  }

  /**
   * Each increment raises exactly one key by one (an absent key becomes
   * 1) and leaves every other key as it was; a new type joins the end of
   * the insertion order.
   */
  lemma IncrementsTouchOneKey(py: Py, tc: TypeCounts, t: AType, values: map<string, nat>, v: Raw)
    ensures GetCount(IncrAttrType(tc, t), t) == GetCount(tc, t) + 1
    ensures forall u :: u != t ==> GetCount(IncrAttrType(tc, t), u) == GetCount(tc, u)
    ensures IncrAttrType(tc, t).order == if t in tc.counts then tc.order else tc.order + [t]
    ensures IncrAttrValue(py, values, v).Keys == values.Keys + {py.str(v)}
    ensures py.str(v) !in values ==> IncrAttrValue(py, values, v)[py.str(v)] == 1
    ensures py.str(v) in values ==> IncrAttrValue(py, values, v)[py.str(v)] == values[py.str(v)] + 1
    ensures forall k :: k in values && k != py.str(v) ==> IncrAttrValue(py, values, v)[k] == values[k]
  {
  }

  /** The statistics record of one path. */
  datatype AttrStats = AttrStats(
    presentCount: nat,
    types: TypeCounts,
    values: map<string, nat>,
    mode: Raw,
    intStr: nat,
    floatStr: nat,
    uniqueCount: Option<nat>)

  /** What holds of every record once it has been counted at least once. */
  ghost predicate StatsInv(py: Py, e: AttrStats)
  {
    && TypeCountsWf(e.types)
    && e.presentCount == Total(e.types)
    && 0 < e.presentCount
    && e.intStr + e.floatStr <= GetCount(e.types, TString)
    && |e.values| <= e.presentCount
    && py.str(e.mode) in e.values
    && (forall k :: k in e.values ==> 0 < e.values[k] <= e.values[py.str(e.mode)])
  }

  function Lookup(table: map<string, AttrStats>, path: string): Option<AttrStats>
  {
    if path in table then Some(table[path]) else None
  }

  /** A record before its first observation, with `value` as its mode. */
  function NewStats(value: Raw): AttrStats
  {
    AttrStats(0, TypeCounts(map[], []), map[], value, 0, 0, None)
  }

  /**
   * count_attrpath on one record: a new record starts with the value as
   * its mode; the counters grow; the value becomes the mode when its count
   * now exceeds the mode's; a string value bumps the int-string counter
   * when int() accepts it and otherwise the float-string counter when
   * float() does. (The mode's count is looked up with .get(); under
   * StatsInv the key is always there, so the source never compares with
   * None; the model reads an absent key as 0.)
   */
  function CountObservation(py: Py, entry: Option<AttrStats>, t: AType, value: Raw): (r: AttrStats)
    ensures py.str(r.mode) in r.values
    ensures r.mode == value || (entry.Some? && r.mode == entry.value.mode)
  {
    CountNumericString(py, CountValue(py, entry, t, value), t, value)
  }

  /** The presence, type and value counters, and the running mode. */
  function CountValue(py: Py, entry: Option<AttrStats>, t: AType, value: Raw): AttrStats
  {
    var e := if entry.None? then NewStats(value) else entry.value;
    var mk := py.str(e.mode);
    var modeCount := if entry.None? || mk !in e.values then 0 else e.values[mk];
    var e1 := e.(presentCount := e.presentCount + 1,
                 types := IncrAttrType(e.types, t),
                 values := IncrAttrValue(py, e.values, value));
    if e1.values[py.str(value)] > modeCount then e1.(mode := value) else e1
  }

  /** The int-string and float-string counters of a string value. */
  function CountNumericString(py: Py, e: AttrStats, t: AType, value: Raw): AttrStats
  {
    if t != TString then e
    else if IntOf(py, value).Some? then e.(intStr := e.intStr + 1)
    else if FloatOf(py, value).Some? then e.(floatStr := e.floatStr + 1)
    else e
  }

  /**
   * What counting one observation changes: one more presence, one more of
   * its type and of its value, nothing else in the histograms.
   */
  lemma CountObservationEffect(py: Py, entry: Option<AttrStats>, t: AType, value: Raw)
    ensures var r := CountObservation(py, entry, t, value);
      var e := if entry.None? then NewStats(value) else entry.value;
      && r.presentCount == e.presentCount + 1
      && r.types == IncrAttrType(e.types, t)
      && r.values == IncrAttrValue(py, e.values, value)
      && r.uniqueCount == e.uniqueCount
  {
  }

  /**
   * Counting one observation keeps the record's invariant: presence is
   * the total of the type histogram, no more distinct values than
   * presences, numeric strings bounded by the string count, and the mode
   * is a most frequent value.
   */
  lemma CountObservationInv(py: Py, entry: Option<AttrStats>, t: AType, value: Raw)
    requires entry.Some? ==> StatsInv(py, entry.value)
    ensures StatsInv(py, CountObservation(py, entry, t, value))
  {
    var e := if entry.None? then NewStats(value) else entry.value;
    var r := CountObservation(py, entry, t, value);
    CountObservationEffect(py, entry, t, value);
    SetCountWf(e.types, t, GetCount(e.types, t) + 1);
    SetCountTotal(e.types, t, GetCount(e.types, t) + 1);
    assert TypeCountsWf(r.types) && r.presentCount == Total(r.types);
    assert |r.values| <= |e.values| + 1;
    NumericStringsCounted(py, entry, t, value);
    assert r.intStr + r.floatStr <= GetCount(r.types, TString);
    ModeStaysMostFrequent(py, entry, t, value);
  }

  /**
   * The int-string counter rises, by one, exactly for a string observation
   * that int() accepts; the float-string counter exactly for one that int()
   * refuses and float() accepts. Nothing else moves them.
   */
  lemma NumericStringsCounted(py: Py, entry: Option<AttrStats>, t: AType, value: Raw)
    ensures var r := CountObservation(py, entry, t, value);
      var e := if entry.None? then NewStats(value) else entry.value;
      && r.intStr == e.intStr + (if t == TString && IntOf(py, value).Some? then 1 else 0)
      && r.floatStr == e.floatStr + (if t == TString && IntOf(py, value).None? && FloatOf(py, value).Some? then 1 else 0)
  {
  }

  /**
   * The tie rule of the running mode: a first observation is the mode; later
   * the value takes over only when its count, after this observation, is
   * strictly greater than the current mode's count. On a tie the earlier
   * mode stays.
   */
  lemma ModeReplacedOnlyWhenExceeded(py: Py, entry: Option<AttrStats>, t: AType, value: Raw)
    ensures var r := CountObservation(py, entry, t, value);
      && (entry.None? ==> r.mode == value)
      && (entry.Some? ==>
            var mk := py.str(entry.value.mode);
            var modeCount := if mk in entry.value.values then entry.value.values[mk] else 0;
            && (r.values[py.str(value)] > modeCount ==> r.mode == value)
            && (r.values[py.str(value)] <= modeCount ==> r.mode == entry.value.mode))
  {
    CountObservationEffect(py, entry, t, value);
  }

  /** After counting one observation the mode is still a most frequent value. */
  lemma ModeStaysMostFrequent(py: Py, entry: Option<AttrStats>, t: AType, value: Raw)
    requires entry.Some? ==> StatsInv(py, entry.value)
    ensures var r := CountObservation(py, entry, t, value);
      forall k :: k in r.values ==> 0 < r.values[k] <= r.values[py.str(r.mode)]
  {
    var e := if entry.None? then NewStats(value) else entry.value;
    var r := CountObservation(py, entry, t, value);
    CountObservationEffect(py, entry, t, value);
    var sk := py.str(value);
    var vals := IncrAttrValue(py, e.values, value);
    if entry.Some? {
      var mk := py.str(e.mode);
      var modeCount := e.values[mk];
      if vals[sk] > modeCount {
        assert r.mode == value;
        forall k | k in vals ensures 0 < vals[k] <= vals[sk] {
          if k != sk {
            assert vals[k] == e.values[k];
          }
        }
      } else {
        assert sk != mk;
        assert r.mode == e.mode;
        forall k | k in vals ensures 0 < vals[k] <= vals[mk] {
          if k != sk {
            assert vals[k] == e.values[k];
          }
        }
      }
    } else {
      assert vals == map[sk := 1];
    }
  }

  ghost predicate TableInv(py: Py, table: map<string, AttrStats>)
  {
    forall p :: p in table ==> StatsInv(py, table[p])
  }

  /** The table after counting a sequence of observations, in order. */
  function CountAll(py: Py, table: map<string, AttrStats>, obs: seq<Obs>): map<string, AttrStats>
    decreases |obs|
  {
    if obs == [] then table
    else
      var before := CountAll(py, table, obs[..|obs| - 1]);
      var last := obs[|obs| - 1];
      before[last.path := CountObservation(py, Lookup(before, last.path), last.atype, last.raw)]
  }

  lemma TableInvUpdate(py: Py, table: map<string, AttrStats>, path: string, e: AttrStats)
    requires TableInv(py, table) && StatsInv(py, e)
    ensures TableInv(py, table[path := e])
  {
  }

  lemma CountAttrPathInv(py: Py, table: map<string, AttrStats>, path: string, t: AType, value: Raw)
    requires TableInv(py, table)
    ensures TableInv(py, table[path := CountObservation(py, Lookup(table, path), t, value)])
  {
    CountObservationInv(py, Lookup(table, path), t, value);
    TableInvUpdate(py, table, path, CountObservation(py, Lookup(table, path), t, value));
  }

  /** Counting keeps every record's invariant. */
  lemma {:induction false} CountAllInv(py: Py, table: map<string, AttrStats>, obs: seq<Obs>)
    requires TableInv(py, table)
    ensures TableInv(py, CountAll(py, table, obs))
    decreases |obs|
  {
    if obs != [] {
      var front, last := obs[..|obs| - 1], obs[|obs| - 1];
      CountAllInv(py, table, front);
      var before := CountAll(py, table, front);
      CountAttrPathInv(py, before, last.path, last.atype, last.raw);
    }
  }

  /** The table holds exactly the old paths and the observed ones. */
  lemma {:induction false} CountAllKeys(py: Py, table: map<string, AttrStats>, obs: seq<Obs>)
    ensures CountAll(py, table, obs).Keys == table.Keys + set o | o in obs :: o.path
    decreases |obs|
  {
    if obs != [] {
      var front, last := obs[..|obs| - 1], obs[|obs| - 1];
      CountAllKeys(py, table, front);
      PathsSnoc(obs);
    }
  }

  lemma PathsSnoc(obs: seq<Obs>)
    requires obs != []
    ensures (set o | o in obs :: o.path) == (set o | o in obs[..|obs| - 1] :: o.path) + {obs[|obs| - 1].path}
  {
    assert obs == obs[..|obs| - 1] + [obs[|obs| - 1]];
  }

  /** How many of the observations are at `path`. */
  function Occurrences(obs: seq<Obs>, path: string): nat
    decreases |obs|
  {
    if obs == [] then 0
    else Occurrences(obs[..|obs| - 1], path) + (if obs[|obs| - 1].path == path then 1 else 0)
  }

  /**
   * A path's presence count grows by exactly the number of observations
   * made at it; a path with none keeps its record unchanged.
   */
  lemma {:induction false} CountAllPresence(py: Py, table: map<string, AttrStats>, obs: seq<Obs>, path: string)
    ensures path in CountAll(py, table, obs) <==> path in table || Occurrences(obs, path) > 0
    ensures path in CountAll(py, table, obs) ==>
      CountAll(py, table, obs)[path].presentCount
        == (if path in table then table[path].presentCount else 0) + Occurrences(obs, path)
    ensures path in table && Occurrences(obs, path) == 0 ==> CountAll(py, table, obs)[path] == table[path]
    decreases |obs|
  {
    if obs != [] {
      var front, last := obs[..|obs| - 1], obs[|obs| - 1];
      CountAllPresence(py, table, front, path);
      PresenceStep(py, CountAll(py, table, front), last, path);
    }
  }

  /** One more observation adds one to the presence count at its own path and touches no other. */
  lemma PresenceStep(py: Py, before: map<string, AttrStats>, o: Obs, path: string)
    ensures var after := before[o.path := CountObservation(py, Lookup(before, o.path), o.atype, o.raw)];
      && (path in after <==> path in before || o.path == path)
      && (path in after ==>
            after[path].presentCount
              == (if path in before then before[path].presentCount else 0) + (if o.path == path then 1 else 0))
      && (o.path != path && path in before ==> after[path] == before[path])
  {
  }

  lemma {:induction false} CountAllAppend(py: Py, table: map<string, AttrStats>, a: seq<Obs>, b: seq<Obs>)
    ensures CountAll(py, table, a + b) == CountAll(py, CountAll(py, table, a), b)
    decreases |b|
  {
    if b == [] {
      assert a + b == a;
    } else {
      assert (a + b)[..|a + b| - 1] == a + b[..|b| - 1];
      CountAllAppend(py, table, a, b[..|b| - 1]);
    }
  }

  lemma CountAllUnder(py: Py, table: map<string, AttrStats>, key: string, obs: seq<Obs>)
    ensures CountAll(py, table, Under(key, obs)) == CountAll(py, table, obs)
  {
    assert Counted(Under(key, obs)) == Counted(obs);
    CountAllSameObservations(py, table, Under(key, obs), obs);
  }

  /** What counting reads of each observation: its path, its type and its raw value. */
  function Counted(obs: seq<Obs>): seq<(string, AType, Raw)>
  {
    seq(|obs|, i requires 0 <= i < |obs| => (obs[i].path, obs[i].atype, obs[i].raw))
  }

  /** Observations that agree on what counting reads are counted alike. */
  lemma {:induction false} CountAllSameObservations(py: Py, table: map<string, AttrStats>, a: seq<Obs>, b: seq<Obs>)
    requires Counted(a) == Counted(b)
    ensures CountAll(py, table, a) == CountAll(py, table, b)
    decreases |a|
  {
    assert |a| == |Counted(a)| == |Counted(b)| == |b|;
    if a != [] {
      var n := |a|;
      assert Counted(a[..n - 1]) == Counted(a)[..n - 1];
      assert Counted(b[..n - 1]) == Counted(b)[..n - 1];
      CountAllSameObservations(py, table, a[..n - 1], b[..n - 1]);
      assert Counted(a)[n - 1] == Counted(b)[n - 1];
      CountAllSameLast(py, table, a, b);
    }
  }

  lemma CountAllSameLast(py: Py, table: map<string, AttrStats>, a: seq<Obs>, b: seq<Obs>)
    requires |a| == |b| > 0
    requires CountAll(py, table, a[..|a| - 1]) == CountAll(py, table, b[..|b| - 1])
    requires a[|a| - 1].path == b[|b| - 1].path && a[|a| - 1].atype == b[|b| - 1].atype && a[|a| - 1].raw == b[|b| - 1].raw
    ensures CountAll(py, table, a) == CountAll(py, table, b)
  {
  }

  /**
   * Every path the analysis counts is also written to the flat document,
   * and no other: starting from the same paths, the table and the flat
   * document cover the same paths after any walk.
   */
  lemma CountedPathsAreStored(py: Py, table: map<string, AttrStats>, acc: map<string, Raw>, obs: seq<Obs>)
    requires table.Keys == acc.Keys
    ensures CountAll(py, table, obs).Keys == Store(acc, obs).Keys
  {
    StoreKeys(acc, obs);
    CountAllKeys(py, table, obs);
  }

  /** The schema table, a Python dict from path to statistics record, updated in place. */
  class SchemaTable {
    var entries: map<string, AttrStats>

    constructor ()
      ensures entries == map[]
    {
      entries := map[];
    }

    ghost predicate Valid(py: Py)
      reads this
    {
      TableInv(py, entries)
    }
  }

  /** count_attrpath: record one observation of `value`, of type `attrType`, at `attrPath`. */
  method CountAttrPath(py: Py, table: SchemaTable, attrPath: string, attrType: AType, value: Raw)
    requires table.Valid(py)
    modifies table
    ensures table.Valid(py)
    ensures table.entries
      == old(table.entries)[attrPath := CountObservation(py, Lookup(old(table.entries), attrPath), attrType, value)]
  {
    var entry := UpdatedEntry(py, table.entries, attrPath, attrType, value);
    table.entries := table.entries[attrPath := entry];
    CountAttrPathInv(py, old(table.entries), attrPath, attrType, value);
  }

  /** The body of count_attrpath up to storing the record back into the table. */
  method UpdatedEntry(py: Py, entries: map<string, AttrStats>, attrPath: string, attrType: AType, value: Raw)
    returns (entry: AttrStats)
    requires attrPath in entries ==> py.str(entries[attrPath].mode) in entries[attrPath].values
    ensures entry == CountObservation(py, Lookup(entries, attrPath), attrType, value)
  {
    var presentCount: nat;
    var modeCount: nat;
    if attrPath !in entries {
      presentCount := 0;
      modeCount := 0;
      entry := NewStats(value);
    } else {
      entry := entries[attrPath];
      presentCount := entry.presentCount;
      modeCount := entry.values[py.str(entry.mode)];
    }
    presentCount := presentCount + 1;
    entry := entry.(presentCount := presentCount);
    entry := entry.(types := IncrAttrType(entry.types, attrType));
    entry := entry.(values := IncrAttrValue(py, entry.values, value));
    var thisCount := entry.values[py.str(value)];
    if thisCount > modeCount {
      entry := entry.(mode := value);
    }
    if attrType == TString {
      var resultNum := IntOf(py, value);
      if resultNum.Some? {
        entry := entry.(intStr := 1 + entry.intStr);
      }
      if resultNum.None? {
        var resultFloat := FloatOf(py, value);
        if resultFloat.Some? {
          entry := entry.(floatStr := 1 + entry.floatStr);
        }
      }
    }
  }

  /**
   * analyzeDoc: the flattening walk that also counts every scalar it
   * stores, so that the table and the flat document see the same scalars.
   */
  method AnalyzeDoc(py: Py, prefix: string, srcDoc: seq<(string, Raw)>, table: SchemaTable, flatDoc: FlatDoc)
    requires table.Valid(py)
    modifies table, flatDoc
    ensures table.Valid(py)
    ensures table.entries == CountAll(py, old(table.entries), Observations(py, prefix, srcDoc, |srcDoc|))
    ensures flatDoc.items == Store(old(flatDoc.items), Observations(py, prefix, srcDoc, |srcDoc|))
    decreases RDict(srcDoc), 0
  {
    for i := 0 to |srcDoc|
      invariant table.Valid(py)
      invariant table.entries == CountAll(py, old(table.entries), Observations(py, prefix, srcDoc, i))
      invariant flatDoc.items == Store(old(flatDoc.items), Observations(py, prefix, srcDoc, i))
    {
      var key, value := srcDoc[i].0, srcDoc[i].1;
      AnalyzeEntry(py, prefix, key, value, table, flatDoc);
      StoreAppend(old(flatDoc.items), Observations(py, prefix, srcDoc, i), Visit(py, prefix, key, value));
      CountAllAppend(py, old(table.entries), Observations(py, prefix, srcDoc, i), Visit(py, prefix, key, value));
    }
  }

  /** One pass of analyzeDoc's loop: count and store the entry `key: value`, or walk into it. */
  method AnalyzeEntry(py: Py, prefix: string, key: string, value: Raw, table: SchemaTable, flatDoc: FlatDoc)
    requires table.Valid(py)
    modifies table, flatDoc
    ensures table.Valid(py)
    ensures table.entries == CountAll(py, old(table.entries), Visit(py, prefix, key, value))
    ensures flatDoc.items == Store(old(flatDoc.items), Visit(py, prefix, key, value))
    decreases value, 1
  {
    var fkey := key;
    if prefix != "" {
      fkey := prefix + [Separator] + key;
    }
    var tv := AhnungTypeAndValue(py, value);
    var aType, aValue := tv.0, tv.1;
    if key == IdKey {
    } else if aType != TUnknown && aType != TDict {
      CountAttrPath(py, table, fkey, aType, value);
      flatDoc.items := flatDoc.items[fkey := aValue];
      assert Store(old(flatDoc.items), [Obs(fkey, [key], aType, value, aValue)]) == flatDoc.items;
      assert CountAll(py, old(table.entries), [Obs(fkey, [key], aType, value, aValue)]) == table.entries;
    } else if value.RDict? {
      AnalyzeDoc(py, fkey, value.entries, table, flatDoc);
      StoreUnder(old(flatDoc.items), key, Observations(py, fkey, value.entries, |value.entries|));
      CountAllUnder(py, old(table.entries), key, Observations(py, fkey, value.entries, |value.entries|));
    }
  }

}
