/*
 * Record normalisation (normalizeToList in cleanup/dataset_cleanup.py):
 * a flattened record is aligned to an ordered list of paths. A missing
 * value takes the path's default, a value of another type is converted
 * (falling back to the default), and the record is rejected when its
 * target is missing, a value cannot be classified, or more defaults were
 * needed than the budget of 1 + n // 10 allows.
 */
module Cleanup {
  import opened TypeUtils

  /** The required types normalizeToList can convert to. */
  predicate Normalizable(t: AType)
  {
    t == TInt || t == TFloat || t == TDate || t == TString
  }

  /** What normalizeToList reads from its callers' dicts for every path: a default and a convertible type. */
  predicate Covers(pathList: seq<string>, valTypes: map<string, AType>, defValues: map<string, Raw>)
  {
    forall k :: k in pathList ==> k in defValues && k in valTypes && Normalizable(valTypes[k])
  }

  /** The default budget: 1 + len(pathList) // 10. */
  function DefAllow(n: nat): nat
  {
    1 + n / 10
  }

  /** nFlat.get(key), with None as RNone. */
  function FlatGet(nFlat: map<string, Raw>, key: string): Raw
  {
    if key in nFlat then nFlat[key] else RNone
  }

  /** The convert_* helper for a required type. */
  function Convert(py: Py, requiredType: AType, value: Raw, default: Raw, counter: nat): (Raw, nat)
    requires Normalizable(requiredType)
  {
    if requiredType == TInt then ConvertInt(py, value, default, counter)
    else if requiredType == TFloat then ConvertFloat(py, value, default, counter)
    else if requiredType == TDate then ConvertDate(py, value, default, counter)
    else ConvertString(py, value, default, counter)
  }

  /** The outcome for one path: the record fails, or the value to store and the new default count. */
  datatype Step = Fail | Use(value: Raw, defCount: nat)

  /** One iteration of normalizeToList's loop. */
  function NormalizeValue(py: Py, value: Raw, requiredType: AType, defValue: Raw, isTarget: bool, defCount: nat)
    : (r: Step)
    requires Normalizable(requiredType)
    ensures r.Fail? <==> (value == RNone && isTarget) || (value != RNone && AhnungType(value) == TUnknown)
    ensures r.Use? ==> r.defCount == defCount || r == Use(defValue, defCount + 1)
    ensures value == RNone && !isTarget ==> r == Use(defValue, defCount + 1)
    ensures value != RNone && AhnungTypeAndValue(py, value).0 == requiredType ==>
      r == Use(AhnungTypeAndValue(py, value).1, defCount)
    ensures value != RNone && AhnungType(value) != TUnknown && AhnungType(value) != requiredType ==>
      r == Use(Convert(py, requiredType, value, defValue, defCount).0, Convert(py, requiredType, value, defValue, defCount).1)
  {
    if value == RNone then
      if isTarget then Fail else Use(defValue, defCount + 1)
    else
      var (fkType, fkValue) := AhnungTypeAndValue(py, value);
      if fkType == TUnknown then Fail
      else if requiredType != fkType then
        var (v, c) := Convert(py, requiredType, value, defValue, defCount);
        Use(v, c)
      else Use(fkValue, defCount)
  }

  /** The values and default count after the first `n` paths; None once the record has failed. */
  function NormalizePrefix(py: Py, nFlat: map<string, Raw>, pathList: seq<string>, valTypes: map<string, AType>,
                           defValues: map<string, Raw>, target: string, n: nat): (r: Option<(seq<Raw>, nat)>)
    requires Covers(pathList, valTypes, defValues) && n <= |pathList|
    ensures r.Some? ==> |r.value.0| == n && r.value.1 <= n
  {
    if n == 0 then Some(([], 0))
    else
      match NormalizePrefix(py, nFlat, pathList, valTypes, defValues, target, n - 1)
      case None => None
      case Some((vals, c)) =>
        var key := pathList[n - 1];
        assert key in pathList;
        match NormalizeValue(py, FlatGet(nFlat, key), valTypes[key], defValues[key], key == target, c)
        case Fail => None
        case Use(v, c') => Some((vals + [v], c'))
  }

  /** normDoc: each path mapped to the value stored for it (a repeated path keeps its last value). */
  function DocOf(keys: seq<string>, vals: seq<Raw>): map<string, Raw>
    requires |keys| == |vals|
  {
    if keys == [] then map[]
    else DocOf(keys[..|keys| - 1], vals[..|vals| - 1])[keys[|keys| - 1] := vals[|vals| - 1]]
  }

  /** normalizeToList's result: the normalised dict and list, or (None, None). */
  function Normalized(py: Py, nFlat: map<string, Raw>, pathList: seq<string>, valTypes: map<string, AType>,
                      defValues: map<string, Raw>, target: string): (Option<map<string, Raw>>, Option<seq<Raw>>)
    requires Covers(pathList, valTypes, defValues)
  {
    match NormalizePrefix(py, nFlat, pathList, valTypes, defValues, target, |pathList|)
    case None => (None, None)
    case Some((vals, c)) =>
      if c > DefAllow(|pathList|) then (None, None) else (Some(DocOf(pathList, vals)), Some(vals))
  }

  /** Once the record has failed it stays failed. */
  lemma {:induction false} FailStays(py: Py, nFlat: map<string, Raw>, pathList: seq<string>, valTypes: map<string, AType>,
                                     defValues: map<string, Raw>, target: string, n: nat, m: nat)
    requires Covers(pathList, valTypes, defValues) && n <= m <= |pathList|
    requires NormalizePrefix(py, nFlat, pathList, valTypes, defValues, target, n).None?
    ensures NormalizePrefix(py, nFlat, pathList, valTypes, defValues, target, m).None?
    decreases m
  {
    if n < m {
      FailStays(py, nFlat, pathList, valTypes, defValues, target, n, m - 1);
    }
  }

  /** One more path: the prefix grows by the value for that path, or fails with it. */
  lemma PrefixStep(py: Py, nFlat: map<string, Raw>, pathList: seq<string>, valTypes: map<string, AType>,
                   defValues: map<string, Raw>, target: string, i: nat, vals: seq<Raw>, c: nat)
    requires Covers(pathList, valTypes, defValues) && i < |pathList|
    requires NormalizePrefix(py, nFlat, pathList, valTypes, defValues, target, i) == Some((vals, c))
    ensures pathList[i] in valTypes && pathList[i] in defValues && Normalizable(valTypes[pathList[i]])
    ensures var key := pathList[i];
      var step := NormalizeValue(py, FlatGet(nFlat, key), valTypes[key], defValues[key], key == target, c);
      NormalizePrefix(py, nFlat, pathList, valTypes, defValues, target, i + 1)
        == if step.Fail? then None else Some((vals + [step.value], step.defCount))
  {
    assert pathList[i] in pathList;
  }

  /**
   * The body of normalizeToList's loop for one path: fail (the source sets
   * failDoc and breaks), or the value to store and the new default count.
   */
  method NormalizeOne(py: Py, value: Raw, requiredType: AType, defValue: Raw, isTarget: bool, defCount: nat)
    returns (fail: bool, normValue: Raw, newCount: nat)
    requires Normalizable(requiredType)
    ensures fail <==> NormalizeValue(py, value, requiredType, defValue, isTarget, defCount).Fail?
    ensures !fail ==> NormalizeValue(py, value, requiredType, defValue, isTarget, defCount) == Use(normValue, newCount)
  {
    fail, normValue, newCount := false, defValue, defCount;
    if value == RNone {
      if isTarget {
        fail := true;
      } else {
        normValue := defValue;
        newCount := defCount + 1;
      }
    } else {
      var tv := AhnungTypeAndValue(py, value);
      var fkType, fkValue := tv.0, tv.1;
      if fkType == TUnknown {
        fail := true;
      } else if requiredType != fkType {
        var converted: (Raw, nat);
        if requiredType == TInt {
          converted := ConvertInt(py, value, defValue, defCount);
        } else if requiredType == TFloat {
          converted := ConvertFloat(py, value, defValue, defCount);
        } else if requiredType == TDate {
          converted := ConvertDate(py, value, defValue, defCount);
        } else {
          converted := ConvertString(py, value, defValue, defCount);
        }
        normValue, newCount := converted.0, converted.1;
      } else {
        normValue := fkValue;
      }
    }
  }

  /**
   * One pass of normalizeToList's loop: the path at index `i` extends the
   * list and the dict, or the record fails.
   */
  method NormalizeAt(py: Py, nFlat: map<string, Raw>, pathList: seq<string>, valTypes: map<string, AType>,
                     defValues: map<string, Raw>, target: string, i: nat,
                     valList: seq<Raw>, defCount: nat, normDoc: map<string, Raw>)
    returns (fail: bool, newList: seq<Raw>, newCount: nat, newDoc: map<string, Raw>)
    requires Covers(pathList, valTypes, defValues) && i < |pathList|
    requires NormalizePrefix(py, nFlat, pathList, valTypes, defValues, target, i) == Some((valList, defCount))
    requires normDoc == DocOf(pathList[..i], valList)
    ensures fail <==> NormalizePrefix(py, nFlat, pathList, valTypes, defValues, target, i + 1).None?
    ensures !fail ==> NormalizePrefix(py, nFlat, pathList, valTypes, defValues, target, i + 1) == Some((newList, newCount))
    ensures !fail ==> newDoc == DocOf(pathList[..i + 1], newList)
  {
    var key := pathList[i];
    PrefixStep(py, nFlat, pathList, valTypes, defValues, target, i, valList, defCount);
    var defValue := defValues[key];
    var requiredType := valTypes[key];
    var value := FlatGet(nFlat, key);
    var normValue;
    fail, normValue, newCount := NormalizeOne(py, value, requiredType, defValue, target == key, defCount);
    newDoc := normDoc[key := normValue];
    newList := valList + [normValue];
    assert pathList[..i + 1][..i] == pathList[..i];
  }

  /** normalizeToList. */
  method NormalizeToList(py: Py, nFlat: map<string, Raw>, pathList: seq<string>, valTypes: map<string, AType>,
                         defValues: map<string, Raw>, target: string)
    returns (resultDoc: Option<map<string, Raw>>, resultList: Option<seq<Raw>>)
    requires Covers(pathList, valTypes, defValues)
    ensures (resultDoc, resultList) == Normalized(py, nFlat, pathList, valTypes, defValues, target)
    ensures resultDoc.Some? <==> resultList.Some?
  {
    var failDoc := false;
    var normDoc: map<string, Raw> := map[];
    var valList: seq<Raw> := [];
    var defAllow := DefAllow(|pathList|);
    var defCount: nat := 0;
    var i: nat := 0;
    while i < |pathList|
      invariant i <= |pathList| && !failDoc
      invariant NormalizePrefix(py, nFlat, pathList, valTypes, defValues, target, i) == Some((valList, defCount))
      invariant normDoc == DocOf(pathList[..i], valList)
    {
      var fail;
      fail, valList, defCount, normDoc := NormalizeAt(py, nFlat, pathList, valTypes, defValues, target, i,
                                                      valList, defCount, normDoc);
      if fail {
        failDoc := true;
        FailedRecord(py, nFlat, pathList, valTypes, defValues, target, i + 1);
        break;
      }
      i := i + 1;
    }
    if !failDoc {
      CompletedRecord(py, nFlat, pathList, valTypes, defValues, target, valList, defCount);
    }
    if defCount > defAllow {
      failDoc := true;
    }
    resultDoc, resultList := None, None;
    if !failDoc {
      resultDoc, resultList := Some(normDoc), Some(valList);
    }
  }

  /** A record that failed at some path is rejected as a whole. */
  lemma FailedRecord(py: Py, nFlat: map<string, Raw>, pathList: seq<string>, valTypes: map<string, AType>,
                     defValues: map<string, Raw>, target: string, n: nat)
    requires Covers(pathList, valTypes, defValues) && n <= |pathList|
    requires NormalizePrefix(py, nFlat, pathList, valTypes, defValues, target, n).None?
    ensures Normalized(py, nFlat, pathList, valTypes, defValues, target) == (None, None)
  {
    FailStays(py, nFlat, pathList, valTypes, defValues, target, n, |pathList|);
  }

  /** A record that went through every path is kept exactly when it stayed within the budget. */
  lemma CompletedRecord(py: Py, nFlat: map<string, Raw>, pathList: seq<string>, valTypes: map<string, AType>,
                        defValues: map<string, Raw>, target: string, vals: seq<Raw>, c: nat)
    requires Covers(pathList, valTypes, defValues)
    requires NormalizePrefix(py, nFlat, pathList, valTypes, defValues, target, |pathList|) == Some((vals, c))
    ensures pathList[..|pathList|] == pathList
    ensures Normalized(py, nFlat, pathList, valTypes, defValues, target)
      == if c > DefAllow(|pathList|) then (None, None) else (Some(DocOf(pathList, vals)), Some(vals))
  {
  }

  /** A record whose target path is in the path list but has no value is rejected. */
  lemma TargetMissingRejected(py: Py, nFlat: map<string, Raw>, pathList: seq<string>, valTypes: map<string, AType>,
                              defValues: map<string, Raw>, target: string)
    requires Covers(pathList, valTypes, defValues)
    requires target in pathList && FlatGet(nFlat, target) == RNone
    ensures Normalized(py, nFlat, pathList, valTypes, defValues, target) == (None, None)
  {
    var j :| 0 <= j < |pathList| && pathList[j] == target;
    FailStays(py, nFlat, pathList, valTypes, defValues, target, j + 1, |pathList|);
  }

  /** A record holding a value the classifier does not know, at any listed path, is rejected. */
  lemma UnknownValueRejected(py: Py, nFlat: map<string, Raw>, pathList: seq<string>, valTypes: map<string, AType>,
                             defValues: map<string, Raw>, target: string, j: nat)
    requires Covers(pathList, valTypes, defValues)
    requires j < |pathList| && FlatGet(nFlat, pathList[j]) != RNone && AhnungType(FlatGet(nFlat, pathList[j])) == TUnknown
    ensures Normalized(py, nFlat, pathList, valTypes, defValues, target) == (None, None)
  {
    FailStays(py, nFlat, pathList, valTypes, defValues, target, j + 1, |pathList|);
  }

  /** The number of listed paths the record has no value for. */
  function Absent(nFlat: map<string, Raw>, keys: seq<string>): nat
  {
    if keys == [] then 0
    else Absent(nFlat, keys[..|keys| - 1]) + (if FlatGet(nFlat, keys[|keys| - 1]) == RNone then 1 else 0)
  }

  /** Every missing value costs one default; a conversion may cost more, but nothing costs two. */
  lemma {:induction false} DefaultsCover(py: Py, nFlat: map<string, Raw>, pathList: seq<string>, valTypes: map<string, AType>,
                                         defValues: map<string, Raw>, target: string, n: nat)
    requires Covers(pathList, valTypes, defValues) && n <= |pathList|
    requires NormalizePrefix(py, nFlat, pathList, valTypes, defValues, target, n).Some?
    ensures Absent(nFlat, pathList[..n]) <= NormalizePrefix(py, nFlat, pathList, valTypes, defValues, target, n).value.1
  {
    if n > 0 {
      DefaultsCover(py, nFlat, pathList, valTypes, defValues, target, n - 1);
      assert pathList[..n][..n - 1] == pathList[..n - 1];
    }
  }

  /** A record missing more values than the budget allows is rejected. */
  lemma TooManyAbsentRejected(py: Py, nFlat: map<string, Raw>, pathList: seq<string>, valTypes: map<string, AType>,
                              defValues: map<string, Raw>, target: string)
    requires Covers(pathList, valTypes, defValues)
    requires Absent(nFlat, pathList) > DefAllow(|pathList|)
    ensures Normalized(py, nFlat, pathList, valTypes, defValues, target) == (None, None)
  {
    if NormalizePrefix(py, nFlat, pathList, valTypes, defValues, target, |pathList|).Some? {
      DefaultsCover(py, nFlat, pathList, valTypes, defValues, target, |pathList|);
      assert pathList[..|pathList|] == pathList;
    }
  }

  lemma {:induction false} DocOfKeys(keys: seq<string>, vals: seq<Raw>)
    requires |keys| == |vals|
    ensures DocOf(keys, vals).Keys == set k | k in keys
    decreases |keys|
  {
    if keys != [] {
      var n := |keys|;
      DocOfKeys(keys[..n - 1], vals[..n - 1]);
      assert keys == keys[..n - 1] + [keys[n - 1]];
    }
  }

  lemma {:induction false} DocOfAt(keys: seq<string>, vals: seq<Raw>, i: nat)
    requires |keys| == |vals| && i < |keys|
    requires forall j :: i < j < |keys| ==> keys[j] != keys[i]
    ensures keys[i] in DocOf(keys, vals) && DocOf(keys, vals)[keys[i]] == vals[i]
    decreases |keys|
  {
    var n := |keys|;
    if i < n - 1 {
      DocOfAt(keys[..n - 1], vals[..n - 1], i);
    }
  }

  /**
   * An accepted record: the list has one value per path, the dict has
   * exactly the listed paths, and (paths being distinct) each path maps to
   * its position's value in the list.
   */
  lemma AcceptedShape(py: Py, nFlat: map<string, Raw>, pathList: seq<string>, valTypes: map<string, AType>,
                      defValues: map<string, Raw>, target: string)
    requires Covers(pathList, valTypes, defValues)
    requires Normalized(py, nFlat, pathList, valTypes, defValues, target).1.Some?
    ensures var (doc, list) := Normalized(py, nFlat, pathList, valTypes, defValues, target);
      && doc.Some?
      && |list.value| == |pathList|
      && doc.value.Keys == set k | k in pathList
      && ((forall i, j :: 0 <= i < j < |pathList| ==> pathList[i] != pathList[j]) ==>
            forall i :: 0 <= i < |pathList| ==> pathList[i] in doc.value && doc.value[pathList[i]] == list.value[i])
  {
    var vals := Normalized(py, nFlat, pathList, valTypes, defValues, target).1.value;
    DocOfShape(pathList, vals);
  }

  /** The dict built from distinct paths maps each path to its position's value. */
  lemma DocOfShape(keys: seq<string>, vals: seq<Raw>)
    requires |keys| == |vals|
    ensures DocOf(keys, vals).Keys == set k | k in keys
    ensures (forall i, j :: 0 <= i < j < |keys| ==> keys[i] != keys[j]) ==>
      forall i :: 0 <= i < |keys| ==> keys[i] in DocOf(keys, vals) && DocOf(keys, vals)[keys[i]] == vals[i]
  {
    DocOfKeys(keys, vals);
    if forall i, j :: 0 <= i < j < |keys| ==> keys[i] != keys[j] {
      forall i | 0 <= i < |keys|
        ensures keys[i] in DocOf(keys, vals) && DocOf(keys, vals)[keys[i]] == vals[i]
      {
        DocOfAt(keys, vals, i);
      }
    }
  }

  /** A path holds a value already in its required type and canonical form. */
  predicate Clean(py: Py, nFlat: map<string, Raw>, key: string, requiredType: AType)
  {
    FlatGet(nFlat, key) != RNone && AhnungTypeAndValue(py, FlatGet(nFlat, key)) == (requiredType, FlatGet(nFlat, key))
  }

  /** The record's values at the given paths, in order. */
  function ValuesAt(nFlat: map<string, Raw>, keys: seq<string>): (r: seq<Raw>)
    ensures |r| == |keys|
    ensures forall i :: 0 <= i < |keys| ==> r[i] == FlatGet(nFlat, keys[i])
  {
    if keys == [] then [] else ValuesAt(nFlat, keys[..|keys| - 1]) + [FlatGet(nFlat, keys[|keys| - 1])]
  }

  lemma {:induction false} CleanPrefix(py: Py, nFlat: map<string, Raw>, pathList: seq<string>, valTypes: map<string, AType>,
                                       defValues: map<string, Raw>, target: string, n: nat)
    requires Covers(pathList, valTypes, defValues) && n <= |pathList|
    requires forall k :: k in pathList ==> Clean(py, nFlat, k, valTypes[k])
    ensures NormalizePrefix(py, nFlat, pathList, valTypes, defValues, target, n) == Some((ValuesAt(nFlat, pathList[..n]), 0))
  {
    if n > 0 {
      CleanPrefix(py, nFlat, pathList, valTypes, defValues, target, n - 1);
      var key := pathList[n - 1];
      PrefixStep(py, nFlat, pathList, valTypes, defValues, target, n - 1, ValuesAt(nFlat, pathList[..n - 1]), 0);
      assert key in pathList;
      assert NormalizeValue(py, FlatGet(nFlat, key), valTypes[key], defValues[key], key == target, 0)
        == Use(FlatGet(nFlat, key), 0);
      assert pathList[..n][..n - 1] == pathList[..n - 1];
    }
  }

  /**
   * A record with every path present in its required type and canonical
   * form comes back unchanged: the list holds the record's own values, in
   * path order, and no default is used.
   */
  lemma CleanRecordUnchanged(py: Py, nFlat: map<string, Raw>, pathList: seq<string>, valTypes: map<string, AType>,
                             defValues: map<string, Raw>, target: string)
    requires Covers(pathList, valTypes, defValues)
    requires forall k :: k in pathList ==> Clean(py, nFlat, k, valTypes[k])
    ensures Normalized(py, nFlat, pathList, valTypes, defValues, target).1
      == Some(ValuesAt(nFlat, pathList))
    ensures forall k :: k in pathList ==> k in nFlat
  {
    CleanPrefix(py, nFlat, pathList, valTypes, defValues, target, |pathList|);
    assert pathList[..|pathList|] == pathList;
  }
}
