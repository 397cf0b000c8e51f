/*
 * Default values (calcDefaultVals and its helpers in
 * schema/schema_analysis.py): one fill value per kept path, used later
 * when a record lacks that path. A numerical path gets the median of the
 * values it was seen with, a categorical one its mode (or the first
 * encoder class), any other path its mode or a zero of its type.
 *
 * A Python None is RNone here; `schemaTable.get(path)[...]` on a path the
 * table lacks raises TypeError, and int() of NaN or inverse_transform on an
 * empty encoder raise ValueError, as Outcome.Raised.
 */
module Defaults {
  import opened TypeUtils
  import opened Statistics
  import opened Validation
  import opened Numerics

  /** What validateSchemaTypes left on the estimator vehicle for each kept path. */
  datatype Vehicle = Vehicle(attrSenses: map<string, Sense>, attrTransforms: map<string, Encoder>)

  /** dict.get. */
  function Get<V>(m: map<string, V>, k: string): Option<V>
  {
    if k in m then Some(m[k]) else None
  }

  /** pathModes.get(path), with None as RNone. */
  function ModeAt(pathModes: map<string, Raw>, path: string): Raw
  {
    if path in pathModes then pathModes[path] else RNone
  }

  /** The parser calcPathDefaultNumerical's median goes through: float() for FLOAT, int() otherwise. */
  function ParserFor(py: Py, valType: AType): string -> Option<real>
  {
    if valType == TFloat then py.parseFloat else IntParse(py)
  }

  /** calcIntDefault, calcFloatDefault, calcStringDefault, calcDateDefault; None for any other type. */
  function TypeDefault(valType: AType): Raw
  {
    match valType
    case TInt => RInt(0)
    case TLong => RInt(0)
    case TFloat => RFloat(0.0)
    case TString => RStr("")
    case TDate => RDate(0)
    case _ => RNone
  }

  /** A numerical default as the source computes it: a value, or a float NaN. */
  datatype Fill = Value(v: Raw) | NotANumber

  /**
   * calcPathDefaultNumerical as written: the median is compared using
   * `None != attrMedian`, which holds for NaN as well, so for a numeric
   * type the median is returned even when no value parsed, and the mean
   * and mode fallbacks are never reached.
   */
  ghost function NumericalDefaultAsWritten(py: Py, table: map<string, AttrStats>, path: string,
                                           valType: AType, attrMode: Raw): Outcome<Fill>
  {
    if !IsNumericType(valType) then Returned(Value(if attrMode != RNone then attrMode else RInt(0)))
    else if path !in table then Raised("TypeError")
    else
      var median := MedianMean(ParserFor(py, valType), table[path].values).0;
      Returned(if median.Finite? then Value(RFloat(median.x)) else NotANumber)
  }

  /**
   * calcPathDefaultNumerical as intended: the median when there is one,
   * else the mean, else the mode, else 0 (0.0 for FLOAT).
   */
  ghost function NumericalDefault(py: Py, table: map<string, AttrStats>, path: string,
                                  valType: AType, attrMode: Raw): Outcome<Raw>
  {
    if IsNumericType(valType) && path !in table then Raised("TypeError")
    else
      var summary := if IsNumericType(valType) then Some(MedianMean(ParserFor(py, valType), table[path].values)) else None;
      Returned(
        if summary.Some? && summary.value.0.Finite? then RFloat(summary.value.0.x)
        else if summary.Some? && summary.value.1.Finite? then RFloat(summary.value.1.x)
        else if attrMode != RNone then attrMode
        else if valType == TFloat then RFloat(0.0)
        else RInt(0))
  }

  /**
   * calcPathDefaultCategorical: the mode; without one, the first class of
   * the path's encoder; without that, int() of the median of the
   * int-parsable values.
   */
  ghost function CategoricalDefault(py: Py, table: map<string, AttrStats>, path: string,
                                    attrMode: Raw, attrXForm: Option<Encoder>): Outcome<Raw>
  {
    if attrMode != RNone then Returned(attrMode)
    else if attrXForm.Some? then
      (match Decode(attrXForm.value, 0)
       case Some(c) => Returned(RStr(c))
       case None => Raised("ValueError"))
    else if path !in table then Raised("TypeError")
    else
      var median := MedianMean(IntParse(py), table[path].values).0;
      if median.Finite? then Returned(RInt(Trunc(median.x))) else Raised("ValueError")
  }

  /**
   * The default calcDefaultVals computes for one path; RNone means none is
   * stored. A categorical path first fetches its transform from the
   * vehicle, which indexes its dict directly: `attrXForm` is None when the
   * path has no transform, and that raises KeyError.
   */
  ghost function PathDefault(py: Py, table: map<string, AttrStats>, path: string, valType: AType,
                             attrSense: Option<Sense>, attrMode: Raw, attrXForm: Option<Encoder>): Outcome<Raw>
  {
    if attrSense == Some(Numerical) then NumericalDefault(py, table, path, valType, attrMode)
    else if attrSense == Some(Categorical) then
      if attrXForm.None? then Raised("KeyError") else CategoricalDefault(py, table, path, attrMode, attrXForm)
    else if attrMode != RNone then Returned(attrMode)
    else Returned(TypeDefault(valType))
  }

  ghost function DefaultAt(py: Py, table: map<string, AttrStats>, valTypes: map<string, AType>,
                           vehicle: Vehicle, pathModes: map<string, Raw>, path: string): Outcome<Raw>
    requires path in valTypes
  {
    PathDefault(py, table, path, valTypes[path], Get(vehicle.attrSenses, path), ModeAt(pathModes, path),
                Get(vehicle.attrTransforms, path))
  }

  /** calcPathDefaultNumerical, with the NaN test the fallbacks need. */
  method CalcPathDefaultNumerical(py: Py, table: map<string, AttrStats>, path: string, valType: AType, attrMode: Raw)
    returns (r: Outcome<Raw>)
    ensures r == NumericalDefault(py, table, path, valType, attrMode)
  {
    var attrMedian: Option<PyNum> := None;
    var attrMean: Option<PyNum> := None;
    var resDefault := RInt(0);
    if valType == TInt || valType == TLong || valType == TFloat {
      if path !in table {
        return Raised("TypeError");
      }
      var pEntry := table[path];
      var median, mean;
      if valType == TFloat {
        resDefault := RFloat(0.0);
        median, mean := CalcAttrMedianMeanFloat(py, pEntry.values);
      } else {
        median, mean := CalcAttrMedianMeanInt(py, pEntry.values);
      }
      attrMedian, attrMean := Some(median), Some(mean);
    }
    if attrMedian.Some? && attrMedian.value.Finite? {
      resDefault := RFloat(attrMedian.value.x);
    } else if attrMean.Some? && attrMean.value.Finite? {
      resDefault := RFloat(attrMean.value.x);
    } else if attrMode != RNone {
      resDefault := attrMode;
    }
    r := Returned(resDefault);
  }

  /** calcPathDefaultCategorical. */
  method CalcPathDefaultCategorical(py: Py, table: map<string, AttrStats>, path: string, attrMode: Raw,
                                    attrXForm: Option<Encoder>)
    returns (r: Outcome<Raw>)
    ensures r == CategoricalDefault(py, table, path, attrMode, attrXForm)
    ensures attrMode != RNone ==> r == Returned(attrMode)
    ensures r.Raised? ==> attrMode == RNone
  {
    if attrMode != RNone {
      r := Returned(attrMode);
    } else if attrXForm.Some? {
      var first := Decode(attrXForm.value, 0);
      if first.None? {
        return Raised("ValueError");
      }
      r := Returned(RStr(first.value));
    } else {
      if path !in table {
        return Raised("TypeError");
      }
      var attrMedian, attrMean := CalcAttrMedianMeanInt(py, table[path].values);
      if attrMedian.NaN? {
        return Raised("ValueError");
      }
      r := Returned(RInt(Trunc(attrMedian.x)));
    }
  }

  /** The body of calcDefaultVals' loop: the default of one path, by its sense. */
  method CalcDefaultAt(py: Py, table: map<string, AttrStats>, valTypes: map<string, AType>,
                       vehicle: Vehicle, pathModes: map<string, Raw>, path: string)
    returns (defVal: Outcome<Raw>)
    requires path in valTypes
    ensures defVal == DefaultAt(py, table, valTypes, vehicle, pathModes, path)
  {
    var valType := valTypes[path];
    var attrSense := Get(vehicle.attrSenses, path);
    var attrMode := ModeAt(pathModes, path);
    if attrSense == Some(Numerical) {
      defVal := CalcPathDefaultNumerical(py, table, path, valType, attrMode);
    } else if attrSense == Some(Categorical) {
      if path !in vehicle.attrTransforms {
        return Raised("KeyError");
      }
      var attrXForm := Some(vehicle.attrTransforms[path]);
      defVal := CalcPathDefaultCategorical(py, table, path, attrMode, attrXForm);
    } else if attrMode != RNone {
      defVal := Returned(attrMode);
    } else {
      defVal := Returned(TypeDefault(valType));
    }
  }

  /**
   * calcDefaultVals: a default for every path of valTypes whose default is
   * not None; an exception from a helper propagates.
   */
  method CalcDefaultVals(py: Py, table: map<string, AttrStats>, valTypes: map<string, AType>,
                         vehicle: Vehicle, pathModes: map<string, Raw>)
    returns (r: Outcome<map<string, Raw>>)
    ensures r.Returned? <==> forall p :: p in valTypes ==> DefaultAt(py, table, valTypes, vehicle, pathModes, p).Returned?
    ensures r.Raised? ==>
      exists p :: p in valTypes && DefaultAt(py, table, valTypes, vehicle, pathModes, p) == Raised(r.exception)
    ensures r.Returned? ==> r.value.Keys <= valTypes.Keys
    ensures r.Returned? ==> forall p :: p in valTypes ==>
      (p in r.value <==> DefaultAt(py, table, valTypes, vehicle, pathModes, p).value != RNone)
    ensures r.Returned? ==> forall p :: p in valTypes && p in r.value ==>
      r.value[p] == DefaultAt(py, table, valTypes, vehicle, pathModes, p).value
  {
    var defValues: map<string, Raw> := map[];
    var todo := valTypes.Keys;
    while todo != {}
      invariant todo <= valTypes.Keys
      invariant defValues.Keys <= valTypes.Keys - todo
      invariant forall p :: p in valTypes && p !in todo ==> DefaultAt(py, table, valTypes, vehicle, pathModes, p).Returned?
      invariant forall p :: p in valTypes && p !in todo ==>
        (p in defValues <==> DefaultAt(py, table, valTypes, vehicle, pathModes, p).value != RNone)
      invariant forall p :: p in defValues ==> defValues[p] == DefaultAt(py, table, valTypes, vehicle, pathModes, p).value
      decreases todo
    {
      var path :| path in todo;
      var defVal := CalcDefaultAt(py, table, valTypes, vehicle, pathModes, path);
      if defVal.Raised? {
        return Raised(defVal.exception);
      }
      if defVal.value != RNone {
        defValues := defValues[path := defVal.value];
      }
      todo := todo - {path};
    }
    r := Returned(defValues);
  }

  /**
   * As written, a numerical INT, LONG or FLOAT path none of whose counted
   * values parses gets NaN as its default, although it has a mode to fall
   * back on; the intended reading returns the mode.
   */
  lemma NaNDefaultAsWritten(py: Py, table: map<string, AttrStats>, path: string, valType: AType, attrMode: Raw)
    requires IsNumericType(valType) && path in table
    requires Rebuilt(ParserFor(py, valType), table[path].values) == multiset{}
    requires attrMode != RNone
    ensures NumericalDefaultAsWritten(py, table, path, valType, attrMode) == Returned(NotANumber)
    ensures NumericalDefault(py, table, path, valType, attrMode) == Returned(attrMode)
  {
    MedianMeanNaN(ParserFor(py, valType), table[path].values);
  }

  /**
   * The default of a numerical path with at least one parsable value is
   * the median of those values, a number between the least and the
   * greatest of them; this is also what the source computes.
   */
  lemma NumericalDefaultIsMedian(py: Py, table: map<string, AttrStats>, path: string, valType: AType, attrMode: Raw)
    requires IsNumericType(valType) && path in table
    requires Rebuilt(ParserFor(py, valType), table[path].values) != multiset{}
    ensures var s := RebuiltList(ParserFor(py, valType), table[path].values);
      && s != []
      && Median(s).Finite?
      && NumericalDefault(py, table, path, valType, attrMode) == Returned(RFloat(Median(s).x))
      && NumericalDefaultAsWritten(py, table, path, valType, attrMode) == Returned(Value(RFloat(Median(s).x)))
      && Least(s) <= Median(s).x <= Greatest(s)
  {
    MedianOfValues(ParserFor(py, valType), table[path].values);
  }

  /** With no parsable value, or for a non-numeric type, the intended default is the mode, else a zero. */
  lemma NumericalDefaultFallsBack(py: Py, table: map<string, AttrStats>, path: string, valType: AType, attrMode: Raw)
    requires !IsNumericType(valType) || (path in table && Rebuilt(ParserFor(py, valType), table[path].values) == multiset{})
    ensures NumericalDefault(py, table, path, valType, attrMode) ==
      Returned(if attrMode != RNone then attrMode else if valType == TFloat then RFloat(0.0) else RInt(0))
  {
    if IsNumericType(valType) {
      MedianMeanNaN(ParserFor(py, valType), table[path].values);
    }
  }

  /**
   * On what validateSchemaTypes leaves behind (every kept path has a sense
   * and a mode, and lies in the table), a kept path whose mode is not None
   * gets a default exactly when it is not a categorical path without a
   * transform; such a path raises KeyError. A categorical path with a
   * transform gets its mode.
   */
  lemma KeptPathGetsDefault(py: Py, table: map<string, AttrStats>, valTypes: map<string, AType>,
                            vehicle: Vehicle, pathModes: map<string, Raw>, p: string)
    requires valTypes.Keys <= table.Keys
    requires vehicle.attrSenses.Keys == valTypes.Keys && pathModes.Keys == valTypes.Keys
    requires p in valTypes && pathModes[p] != RNone
    ensures DefaultAt(py, table, valTypes, vehicle, pathModes, p).Raised? <==>
      vehicle.attrSenses[p] == Categorical && p !in vehicle.attrTransforms
    ensures DefaultAt(py, table, valTypes, vehicle, pathModes, p).Raised? ==>
      DefaultAt(py, table, valTypes, vehicle, pathModes, p) == Raised("KeyError")
    ensures DefaultAt(py, table, valTypes, vehicle, pathModes, p).Returned? ==>
      DefaultAt(py, table, valTypes, vehicle, pathModes, p).value != RNone
    ensures vehicle.attrSenses[p] == Categorical && p in vehicle.attrTransforms ==>
      DefaultAt(py, table, valTypes, vehicle, pathModes, p) == Returned(pathModes[p])
  {
  }

  /**
   * Hence on a validated schema every kept path whose mode is not None
   * gets a default, except the target of an estimator that is neither a
   * regression nor a classification: that target is categorical with no
   * transform, so calcDefaultVals raises KeyError.
   */
  lemma ValidatedSchemaGetsDefaults(py: Py, table: map<string, AttrStats>, docCount: nat, target: string,
                                    cfg: Config, role: Role)
    requires docCount > 0
    ensures var snap := Decisions(py, table, docCount, target, cfg, role);
      var vehicle := Vehicle(snap.valSenses, snap.transforms);
      forall p :: p in snap.valTypes && snap.pathModes[p] != RNone && (p != target || role.isRegression || role.isClassification) ==>
        DefaultAt(py, table, snap.valTypes, vehicle, snap.pathModes, p).Returned? &&
        DefaultAt(py, table, snap.valTypes, vehicle, snap.pathModes, p).value != RNone
    ensures var snap := Decisions(py, table, docCount, target, cfg, role);
      var vehicle := Vehicle(snap.valSenses, snap.transforms);
      target in table && !role.isRegression && !role.isClassification ==>
        DefaultAt(py, table, snap.valTypes, vehicle, snap.pathModes, target) == Raised("KeyError")
  {
    var snap := Decisions(py, table, docCount, target, cfg, role);
    var vehicle := Vehicle(snap.valSenses, snap.transforms);
    forall p | p in snap.valTypes && snap.pathModes[p] != RNone && (p != target || role.isRegression || role.isClassification)
      ensures DefaultAt(py, table, snap.valTypes, vehicle, snap.pathModes, p).Returned?
      ensures DefaultAt(py, table, snap.valTypes, vehicle, snap.pathModes, p).value != RNone
    {
      DecideFacts(py, p, table[p], docCount, target, cfg, role);
      KeptPathGetsDefault(py, table, snap.valTypes, vehicle, snap.pathModes, p);
    }
    if target in table && !role.isRegression && !role.isClassification {
      DecideFacts(py, target, table[target], docCount, target, cfg, role);
    }
  }
}
