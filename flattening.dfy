/*
 * Document flattening (flattenDoc in schema/schema_analysis.py): a
 * recursive walk over a nested document that writes each scalar's
 * canonical value into the caller's flat dict under its dotted path,
 * skipping `_id` at every level and dropping values the classifier calls
 * unknown.
 *
 * The walk is specified once, as the sequence of scalars it meets
 * (Observations); flattenDoc stores them (Store), and analyzeDoc in module
 * Statistics also counts them.
 */
module Flattening {
  import opened TypeUtils

  /** SA_SEPARATOR */
  const Separator: char := '.'

  /** The identifier field, ignored by the schema analysis. */
  const IdKey: string := "_id"

  /** The flattened path of `key` under `prefix`: the key alone at top level. */
  function JoinPath(prefix: string, key: string): string
  {
    if prefix == "" then key else prefix + [Separator] + key
  }

  /** The path reached by following `keys` down from `prefix`. */
  function PathFromKeys(prefix: string, keys: seq<string>): string
    decreases |keys|
  {
    if keys == [] then prefix else PathFromKeys(JoinPath(prefix, keys[0]), keys[1..])
  }

  /**
   * One scalar met by the walk: its flattened path, the keys leading to it
   * from where the walk started, its type, the raw value found there and
   * its canonical value.
   */
  datatype Obs = Obs(path: string, keys: seq<string>, atype: AType, raw: Raw, value: Raw)

  /** The scalars of a sub-document, seen from one level up, under `key`. */
  function Under(key: string, obs: seq<Obs>): (r: seq<Obs>)
    ensures |r| == |obs|
    ensures forall i :: 0 <= i < |r| ==> r[i] == obs[i].(keys := [key] + obs[i].keys)
  {
    seq(|obs|, i requires 0 <= i < |obs| => obs[i].(keys := [key] + obs[i].keys))
  }

  /**
   * The scalars met by walking the first `n` pairs of a document under
   * `prefix`, in the order the source visits them.
   */
  function Observations(py: Py, prefix: string, entries: seq<(string, Raw)>, n: nat): seq<Obs>
    requires n <= |entries|
    decreases RDict(entries), 0, n
  {
    if n == 0 then []
    else Observations(py, prefix, entries, n - 1) + Visit(py, prefix, entries[n - 1].0, entries[n - 1].1)
  }

  /**
   * The scalars met at one pair: none for `_id`, the pair itself when it
   * is a scalar, the walk of the sub-document when it is a plain dict, and
   * none for anything the classifier does not know.
   */
  function Visit(py: Py, prefix: string, key: string, value: Raw): seq<Obs>
    decreases value, 1, 0
  {
    var fkey := JoinPath(prefix, key);
    var tv := AhnungTypeAndValue(py, value);
    if key == IdKey then []
    else if tv.0 != TUnknown && tv.0 != TDict then [Obs(fkey, [key], tv.0, value, tv.1)]
    else if value.RDict? then Under(key, Observations(py, fkey, value.entries, |value.entries|))
    else []
  }

  /** What the walk records about each scalar, and where. */
  ghost predicate WellFormedObs(py: Py, prefix: string, o: Obs)
  {
    && o.atype != TDict && o.atype != TUnknown
    && AhnungTypeAndValue(py, o.raw) == (o.atype, o.value)
    && |o.keys| > 0
    && IdKey !in o.keys
    && o.path == PathFromKeys(prefix, o.keys)
  }

  /**
   * Every scalar the walk records has a scalar type, carries the canonical
   * value of the raw value found there, lies under a path built by joining
   * its keys to the prefix, and no key on its way down (at any level) is
   * `_id`.
   */
  lemma {:induction false} ObservationsWellFormed(py: Py, prefix: string, entries: seq<(string, Raw)>, n: nat)
    requires n <= |entries|
    ensures forall o :: o in Observations(py, prefix, entries, n) ==> WellFormedObs(py, prefix, o)
    decreases RDict(entries), 0, n
  {
    if n > 0 {
      ObservationsWellFormed(py, prefix, entries, n - 1);
      VisitWellFormed(py, prefix, entries[n - 1].0, entries[n - 1].1);
    }
  }

  /**
   * One field: `_id` and values of unknown type give nothing, a scalar
   * gives the one observation of its canonical value under the joined
   * path, and whatever a nested document gives lies under the field's key.
   */
  lemma {:induction false} VisitWellFormed(py: Py, prefix: string, key: string, value: Raw)
    ensures forall o :: o in Visit(py, prefix, key, value) ==> WellFormedObs(py, prefix, o)
    ensures forall o :: o in Visit(py, prefix, key, value) ==> o.keys[0] == key
    ensures key == IdKey || AhnungType(value) == TUnknown ==> Visit(py, prefix, key, value) == []
    ensures key != IdKey && AhnungType(value) != TUnknown && AhnungType(value) != TDict ==>
      Visit(py, prefix, key, value) == [Obs(JoinPath(prefix, key), [key], AhnungType(value), value, AhnungTypeAndValue(py, value).1)]
    decreases value, 1, 0
  {
    var fkey := JoinPath(prefix, key);
    var tv := AhnungTypeAndValue(py, value);
    if key == IdKey {
    } else if tv.0 != TUnknown && tv.0 != TDict {
      assert PathFromKeys(prefix, [key]) == PathFromKeys(fkey, []);
    } else if value.RDict? {
      var inner := Observations(py, fkey, value.entries, |value.entries|);
      ObservationsWellFormed(py, fkey, value.entries, |value.entries|);
      forall o | o in Under(key, inner) ensures WellFormedObs(py, prefix, o) {
        var i :| 0 <= i < |inner| && Under(key, inner)[i] == o;
        assert inner[i] in inner;
        assert o.keys[0] == key && o.keys[1..] == inner[i].keys;
      }
    }
  }

  /** Writing each scalar's canonical value under its path, in order: later writes win. */
  function Store(acc: map<string, Raw>, obs: seq<Obs>): map<string, Raw>
    decreases |obs|
  {
    if obs == [] then acc
    else Store(acc, obs[..|obs| - 1])[obs[|obs| - 1].path := obs[|obs| - 1].value]
  }

  lemma {:induction false} StoreAppend(acc: map<string, Raw>, a: seq<Obs>, b: seq<Obs>)
    ensures Store(acc, a + b) == Store(Store(acc, a), b)
    decreases |b|
  {
    if b == [] {
      assert a + b == a;
    } else {
      assert (a + b)[..|a + b| - 1] == a + b[..|b| - 1];
      StoreAppend(acc, a, b[..|b| - 1]);
    }
  }

  lemma {:induction false} StoreUnder(acc: map<string, Raw>, key: string, obs: seq<Obs>)
    ensures Store(acc, Under(key, obs)) == Store(acc, obs)
    decreases |obs|
  {
    if obs != [] {
      assert Under(key, obs)[..|obs| - 1] == Under(key, obs[..|obs| - 1]);
      StoreUnder(acc, key, obs[..|obs| - 1]);
    }
  }

  /** The flat document only ever gains entries: the old paths and the paths written. */
  lemma {:induction false} StoreKeys(acc: map<string, Raw>, obs: seq<Obs>)
    ensures Store(acc, obs).Keys == acc.Keys + set o | o in obs :: o.path
    decreases |obs|
  {
    if obs != [] {
      var front, last := obs[..|obs| - 1], obs[|obs| - 1];
      StoreKeys(acc, front);
      assert obs == front + [last];
      assert (set o | o in obs :: o.path) == (set o | o in front :: o.path) + {last.path};
    }
  }

  /** A written path holds the value of the last scalar written there. */
  lemma {:induction false} StoreLastWins(acc: map<string, Raw>, obs: seq<Obs>, i: nat)
    requires i < |obs|
    requires forall j :: i < j < |obs| ==> obs[j].path != obs[i].path
    ensures obs[i].path in Store(acc, obs) && Store(acc, obs)[obs[i].path] == obs[i].value
    decreases |obs|
  {
    if i < |obs| - 1 {
      var front := obs[..|obs| - 1];
      assert front[i] == obs[i];
      StoreLastWins(acc, front, i);
    }
  }

  /** A path no scalar is written to keeps its old value. */
  lemma {:induction false} StoreKeepsOthers(acc: map<string, Raw>, obs: seq<Obs>, p: string)
    requires p in acc
    requires forall o :: o in obs ==> o.path != p
    ensures p in Store(acc, obs) && Store(acc, obs)[p] == acc[p]
    decreases |obs|
  {
    if obs != [] {
      var front := obs[..|obs| - 1];
      assert forall o :: o in front ==> o in obs;
      assert obs[|obs| - 1] in obs;
      StoreKeepsOthers(acc, front, p);
    }
  }

  /** A Python dict of flattened paths, filled in place by the walk. */
  class FlatDoc {
    var items: map<string, Raw>

    constructor ()
      ensures items == map[]
    {
      items := map[];
    }
  }

  /**
   * flattenDoc: walk `srcDoc` under `prefix` and write every scalar's
   * canonical value into `flatDoc`.
   */
  method FlattenDoc(py: Py, prefix: string, srcDoc: seq<(string, Raw)>, flatDoc: FlatDoc)
    modifies flatDoc
    ensures flatDoc.items == Store(old(flatDoc.items), Observations(py, prefix, srcDoc, |srcDoc|))
    decreases RDict(srcDoc), 0
  {
    for i := 0 to |srcDoc|
      invariant flatDoc.items == Store(old(flatDoc.items), Observations(py, prefix, srcDoc, i))
    {
      var key, value := srcDoc[i].0, srcDoc[i].1;
      var fkey := key;
      if prefix != "" {
        fkey := prefix + [Separator] + key;
      }
      var tv := AhnungTypeAndValue(py, value);
      var aType, aValue := tv.0, tv.1;
      ghost var before := flatDoc.items;
      if key == IdKey {
      } else if aType != TUnknown && aType != TDict {
        flatDoc.items := flatDoc.items[fkey := aValue];
        assert Store(before, [Obs(fkey, [key], aType, value, aValue)]) == flatDoc.items;
      } else if value.RDict? {
        FlattenDoc(py, fkey, value.entries, flatDoc);
        StoreUnder(before, key, Observations(py, fkey, value.entries, |value.entries|));
      }
      assert flatDoc.items == Store(before, Visit(py, prefix, key, value));
      StoreAppend(old(flatDoc.items), Observations(py, prefix, srcDoc, i), Visit(py, prefix, key, value));
    }
  }
}
