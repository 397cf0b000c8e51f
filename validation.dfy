/*
 * Schema validation (validateSchemaTypes in schema/schema_analysis.py):
 * for every path of the schema table, decide whether the attribute is
 * kept, with which type and sense, or rejected, and with which reason.
 *
 * Per attribute: it is sufficient when it has more than one distinct
 * value and is present in more than minPresent of the documents; strings
 * that parse as int count towards both INT and FLOAT, strings that parse
 * only as float towards FLOAT; the preferred type is the first type of
 * the (extended) histogram reaching its maximum count, when that count
 * covers more than minTypeAlignment of the documents.
 */
module Validation {
  import opened TypeUtils
  import opened Statistics

  datatype Sense = Numerical | Categorical

  /** The configuration values the validation reads. */
  datatype Config = Config(minPresent: real, minTypeAlignment: real, maxCatVals: int)

  /** What the estimator vehicle says about the learning problem: regression or classification. */
  datatype Role = Role(isRegression: bool, isClassification: bool)

  const ReasonMissing: string := "Feature is missing in too many instances."
  const ReasonOneValue: string := "Feature has only one value."
  const ReasonNotNumeric: string :=
    "Feature type not enough numeric instances and too many distinct values for categorical encoding."

  /** A fitted label encoder: class index i stands for classes[i]. */
  datatype Encoder = Encoder(classes: seq<string>)

  /** The first index of `x` in `s` at or after `from`. */
  function IndexFrom(s: seq<string>, x: string, from: nat): (r: Option<nat>)
    requires from <= |s|
    ensures r.Some? ==> from <= r.value < |s| && s[r.value] == x
    ensures r.Some? ==> forall j :: from <= j < r.value ==> s[j] != x
    ensures r.None? ==> forall j :: from <= j < |s| ==> s[j] != x
    decreases |s| - from
  {
    if from == |s| then None
    else if s[from] == x then Some(from)
    else IndexFrom(s, x, from + 1)
  }

  /** LabelEncoder.transform of one label: None where sklearn raises on an unseen label. */
  function Encode(enc: Encoder, name: string): Option<nat>
  {
    IndexFrom(enc.classes, name, 0)
  }

  /** LabelEncoder.inverse_transform of one class index. */
  function Decode(enc: Encoder, index: nat): Option<string>
  {
    if index < |enc.classes| then Some(enc.classes[index]) else None
  }

  /** LabelEncoder().fit on the string forms of an attribute's distinct values. */
  function FitValues(py: Py, e: AttrStats): Encoder
  {
    Encoder(py.fitLabels(set k | k in e.values :: py.str(RStr(k))))
  }

  /**
   * The encoder fitted on an attribute's values encodes exactly those
   * values, decodes each code back to its value, and gives distinct
   * values distinct codes.
   */
  lemma EncoderRoundTrip(py: Py, e: AttrStats, name: string)
    requires Wf(py)
    ensures (set k | k in e.values :: py.str(RStr(k))) == e.values.Keys
    ensures Encode(FitValues(py, e), name).Some? <==> name in e.values
    ensures name in e.values ==>
      Decode(FitValues(py, e), Encode(FitValues(py, e), name).value) == Some(name)
    ensures forall i :: 0 <= i < |FitValues(py, e).classes| ==>
      Encode(FitValues(py, e), FitValues(py, e).classes[i]) == Some(i)
  {
    var labels := set k | k in e.values :: py.str(RStr(k));
    assert labels == e.values.Keys by {
      forall k | k in e.values ensures k in labels {
        assert py.str(RStr(k)) == k;
      }
    }
    var classes := FitValues(py, e).classes;
    assert Enumerates(classes, labels);
    forall i | 0 <= i < |classes| ensures Encode(FitValues(py, e), classes[i]) == Some(i) {
      assert IndexFrom(classes, classes[i], 0).Some?;
    }
    if name in e.values {
      assert name in classes;
    }
  }

  /** More than one distinct value, present in more than minPresent of the documents. */
  predicate Sufficient(e: AttrStats, docCount: nat, cfg: Config)
    requires docCount > 0
  {
    |e.values| > 1 && (e.presentCount as real) / (docCount as real) > cfg.minPresent
  }

  /**
   * The type histogram as validation rewrites it: INT counts the strings
   * int() accepts, FLOAT counts the strings int() or float() accepts; both
   * keys are set, so a missing one joins the end of the order.
   */
  function ExtendTypes(e: AttrStats): TypeCounts
  {
    var iCnt := GetCount(e.types, TInt) + e.intStr;
    var fCnt := GetCount(e.types, TFloat) + e.intStr + e.floatStr;
    SetCount(SetCount(e.types, TInt, iCnt), TFloat, fCnt)
  }

  /**
   * The effective counts: INT gains the int-strings, FLOAT the int- and
   * float-strings, every other count stays; the old insertion order is
   * kept, and only INT or FLOAT can join it.
   */
  lemma ExtendTypesCounts(e: AttrStats)
    ensures GetCount(ExtendTypes(e), TInt) == GetCount(e.types, TInt) + e.intStr
    ensures GetCount(ExtendTypes(e), TFloat) == GetCount(e.types, TFloat) + e.intStr + e.floatStr
    ensures forall u :: u != TInt && u != TFloat ==> GetCount(ExtendTypes(e), u) == GetCount(e.types, u)
    ensures e.types.order <= ExtendTypes(e).order
    ensures forall u :: u in ExtendTypes(e).order ==> u in e.types.order || u == TInt || u == TFloat
  {
  }

  /** On a well-formed histogram the rewrite keeps it well formed, with INT and FLOAT now present. */
  lemma ExtendTypesWf(e: AttrStats)
    requires TypeCountsWf(e.types)
    ensures TypeCountsWf(ExtendTypes(e))
    ensures TInt in ExtendTypes(e).order && TFloat in ExtendTypes(e).order
  {
    var iCnt := GetCount(e.types, TInt) + e.intStr;
    SetCountWf(e.types, TInt, iCnt);
    SetCountWf(SetCount(e.types, TInt, iCnt), TFloat, GetCount(e.types, TFloat) + e.intStr + e.floatStr);
  }

  /**
   * The scan over attrTypes.items() from position i on, having seen the
   * best count `maxAlign` at type `maxType`: a type replaces the best only
   * with a strictly greater count.
   */
  function ScanFrom(tc: TypeCounts, i: nat, maxAlign: nat, maxType: Option<AType>): (nat, Option<AType>)
    requires i <= |tc.order|
    decreases |tc.order| - i
  {
    if i == |tc.order| then (maxAlign, maxType)
    else
      var c := GetCount(tc, tc.order[i]);
      if c > maxAlign then ScanFrom(tc, i + 1, c, Some(tc.order[i]))
      else ScanFrom(tc, i + 1, maxAlign, maxType)
  }

  function MaxTypeScan(tc: TypeCounts): (nat, Option<AType>)
  {
    ScanFrom(tc, 0, 0, None)
  }

  lemma {:induction false} ScanFromFacts(tc: TypeCounts, i: nat, a: nat, mt: Option<AType>)
    requires i <= |tc.order|
    ensures var (m, t) := ScanFrom(tc, i, a, mt);
      && a <= m
      && (forall j :: i <= j < |tc.order| ==> GetCount(tc, tc.order[j]) <= m)
      && ((m == a && t == mt) ||
          (a < m && t.Some? &&
           (exists j :: i <= j < |tc.order| && tc.order[j] == t.value && GetCount(tc, t.value) == m &&
              forall k :: i <= k < j ==> GetCount(tc, tc.order[k]) < m)))
    decreases |tc.order| - i
  {
    if i < |tc.order| {
      var c := GetCount(tc, tc.order[i]);
      if c > a {
        ScanFromFacts(tc, i + 1, c, Some(tc.order[i]));
        var (m, t) := ScanFrom(tc, i + 1, c, Some(tc.order[i]));
        if m == c && t == Some(tc.order[i]) {
          assert tc.order[i] == t.value && GetCount(tc, t.value) == m;
        } else {
          var j :| i + 1 <= j < |tc.order| && tc.order[j] == t.value
             && GetCount(tc, t.value) == m && forall k :: i + 1 <= k < j ==> GetCount(tc, tc.order[k]) < m;
          assert forall k :: i <= k < j ==> GetCount(tc, tc.order[k]) < m;
        }
      } else {
        ScanFromFacts(tc, i + 1, a, mt);
        var (m, t) := ScanFrom(tc, i + 1, a, mt);
        if !(m == a && t == mt) {
          var j :| i + 1 <= j < |tc.order| && tc.order[j] == t.value
             && GetCount(tc, t.value) == m && forall k :: i + 1 <= k < j ==> GetCount(tc, tc.order[k]) < m;
          assert forall k :: i <= k < j ==> GetCount(tc, tc.order[k]) < m;
        }
      }
    }
  }

  /**
   * The scan finds the largest count and the first type, in insertion
   * order, that has it; no type at all when every count is 0.
   */
  lemma MaxTypeScanIsFirstMax(tc: TypeCounts)
    ensures var (m, t) := MaxTypeScan(tc);
      && (forall j :: 0 <= j < |tc.order| ==> GetCount(tc, tc.order[j]) <= m)
      && (t.None? <==> m == 0)
      && (t.Some? ==>
           (exists j :: 0 <= j < |tc.order| && tc.order[j] == t.value && GetCount(tc, t.value) == m &&
              forall k :: 0 <= k < j ==> GetCount(tc, tc.order[k]) < m))
  {
    ScanFromFacts(tc, 0, 0, None);
  }

  /** The loop over attrTypes.items() that finds maxAlign and maxType. */
  method ScanMaxType(attrTypes: TypeCounts) returns (maxAlign: nat, maxType: Option<AType>)
    ensures (maxAlign, maxType) == MaxTypeScan(attrTypes)
  {
    maxAlign := 0;
    maxType := None;
    for i := 0 to |attrTypes.order|
      invariant ScanFrom(attrTypes, i, maxAlign, maxType) == MaxTypeScan(attrTypes)
    {
      var fType := attrTypes.order[i];
      var ftCount := GetCount(attrTypes, fType);
      if ftCount > maxAlign {
        maxAlign := ftCount;
        maxType := Some(fType);
      }
    }
  }

  /** The preferred type: the scan's type when its count covers more than minTypeAlignment of the documents. */
  function PreferredType(e: AttrStats, docCount: nat, cfg: Config): Option<AType>
    requires docCount > 0
  {
    var (maxAlign, maxType) := MaxTypeScan(ExtendTypes(e));
    if (maxAlign as real) / (docCount as real) > cfg.minTypeAlignment then maxType else None
  }

  /** The statistics kept for a rejected attribute. */
  datatype RejectStats = RejectStats(presentCount: nat, uniqueCount: nat, reason: string, typeCounts: map<AType, nat>)

  datatype Decision =
    | Accept(vtype: AType, sense: Sense, mode: Raw, encoder: Option<Encoder>)
    | Reject(stats: RejectStats)

  /** The validation's verdict on one attribute. */
  function Decide(py: Py, path: string, e: AttrStats, docCount: nat, target: string, cfg: Config, role: Role): Decision
    requires docCount > 0
  {
    var sufficient := Sufficient(e, docCount, cfg);
    var prefType := PreferredType(e, docCount, cfg);
    if path == target then
      if role.isClassification then Accept(TString, Categorical, e.mode, Some(FitValues(py, e)))
      else if role.isRegression then Accept(TFloat, Numerical, e.mode, None)
      else if prefType.Some? then Accept(prefType.value, Categorical, e.mode, None)
      else Accept(TInt, Categorical, e.mode, None)
    else if sufficient && prefType.Some? && IsNumericType(prefType.value) then
      Accept(prefType.value, Numerical, e.mode, None)
    else if sufficient && |e.values| <= cfg.maxCatVals then
      Accept(TString, Categorical, e.mode, Some(FitValues(py, e)))
    else
      var reason := if sufficient then ReasonNotNumeric
                    else if |e.values| > 1 then ReasonMissing
                    else ReasonOneValue;
      var ext := ExtendTypes(e);
      Reject(RejectStats(e.presentCount, |e.values|, reason, map t | t in LearningTypes :: GetCount(ext, t)))
  }

  /**
   * What the verdict guarantees: the target is always kept, as a float
   * for a regression and as an encoded string for a classification; any
   * other kept attribute is sufficient, numerical exactly when its type is
   * numeric, and categorical only as a string with few enough values and
   * an encoder; a sufficient attribute with few enough values is never
   * rejected; a rejection keeps the counts and names its reason.
   */
  lemma DecideFacts(py: Py, path: string, e: AttrStats, docCount: nat, target: string, cfg: Config, role: Role)
    requires docCount > 0
    ensures var d := Decide(py, path, e, docCount, target, cfg, role);
      // the target is always kept, as a float for a regression and as an encoded string for a classification
      && (path == target ==> d.Accept?)
      && (path == target && role.isClassification ==>
           d.vtype == TString && d.sense == Categorical && d.encoder == Some(FitValues(py, e)))
      && (path == target && !role.isClassification ==>
           d.encoder.None? && (d.sense == Numerical <==> role.isRegression) && (role.isRegression ==> d.vtype == TFloat))
      // a target that is neither keeps its preferred type, else int, as categorical without an encoder
      && (path == target && !role.isClassification && !role.isRegression ==>
           var pt := PreferredType(e, docCount, cfg);
           d == Accept(if pt.Some? then pt.value else TInt, Categorical, e.mode, None))
      // a sufficient attribute whose preferred type is numeric keeps that type as numerical
      && (path != target && Sufficient(e, docCount, cfg) && PreferredType(e, docCount, cfg).Some?
            && IsNumericType(PreferredType(e, docCount, cfg).value) ==>
           d == Accept(PreferredType(e, docCount, cfg).value, Numerical, e.mode, None))
      // any other attribute is rejected exactly when neither of those two rules keeps it
      && (path != target ==>
           (d.Reject? <==> !(Sufficient(e, docCount, cfg)
                              && ((PreferredType(e, docCount, cfg).Some? && IsNumericType(PreferredType(e, docCount, cfg).value))
                                  || |e.values| <= cfg.maxCatVals))))
      // any other kept attribute is sufficient, numeric exactly when numerical,
      // and a categorical one is a string with few enough values and an encoder
      && (path != target && d.Accept? ==> Sufficient(e, docCount, cfg))
      && (path != target && d.Accept? ==> (d.sense == Numerical <==> IsNumericType(d.vtype)))
      && (path != target && d.Accept? && d.sense == Numerical ==>
           d.encoder.None? && PreferredType(e, docCount, cfg) == Some(d.vtype))
      && (path != target && d.Accept? && d.sense == Categorical ==>
           d.vtype == TString && |e.values| <= cfg.maxCatVals && d.encoder == Some(FitValues(py, e)))
      // and a sufficient attribute with few enough values is never rejected
      && (path != target && Sufficient(e, docCount, cfg) && |e.values| <= cfg.maxCatVals ==> d.Accept?)
      && (d.Accept? ==> d.mode == e.mode)
      // a rejection keeps the counts and names its reason
      && (d.Reject? ==> path != target && d.stats.presentCount == e.presentCount && d.stats.uniqueCount == |e.values|)
      && (d.Reject? ==> d.stats.typeCounts.Keys == set t | t in LearningTypes)
      && (d.Reject? ==> (d.stats.reason == ReasonOneValue <==> |e.values| <= 1))
      && (d.Reject? ==> (d.stats.reason == ReasonMissing <==> |e.values| > 1 && !Sufficient(e, docCount, cfg)))
      && (d.Reject? ==> (d.stats.reason == ReasonNotNumeric <==> Sufficient(e, docCount, cfg)))
  {
  }

  /** The record as validation leaves it: extended histogram and the number of distinct values. */
  function ValidatedEntry(e: AttrStats): AttrStats
  {
    e.(types := ExtendTypes(e), uniqueCount := Some(|e.values|))
  }

  /**
   * What the validation returns: types, senses and modes of the kept
   * attributes, statistics of the rejected ones, and the name encoders
   * registered on the estimator vehicle.
   */
  datatype Snapshot = Snapshot(
    valTypes: map<string, AType>,
    valSenses: map<string, Sense>,
    pathModes: map<string, Raw>,
    rejectAttrs: map<string, RejectStats>,
    transforms: map<string, Encoder>)

  /** The five result maps of a set of verdicts. */
  function Summarize(ds: map<string, Decision>): Snapshot
  {
    Snapshot(
      map p | p in ds && ds[p].Accept? :: ds[p].vtype,
      map p | p in ds && ds[p].Accept? :: ds[p].sense,
      map p | p in ds && ds[p].Accept? :: ds[p].mode,
      map p | p in ds && ds[p].Reject? :: ds[p].stats,
      map p | p in ds && ds[p].Accept? && ds[p].encoder.Some? :: ds[p].encoder.value)
  }

  /** The result dicts once the verdict `d` on path `p` is written into them. */
  function Record(s: Snapshot, p: string, d: Decision): Snapshot
  {
    match d
    case Accept(vtype, sense, mode, encoder) =>
      Snapshot(s.valTypes[p := vtype], s.valSenses[p := sense], s.pathModes[p := mode], s.rejectAttrs,
               if encoder.Some? then s.transforms[p := encoder.value] else s.transforms)
    case Reject(stats) =>
      s.(rejectAttrs := s.rejectAttrs[p := stats])
  }

  /** Recording one more verdict adds its path to the matching result maps. */
  lemma SummarizeAdd(ds: map<string, Decision>, p: string, d: Decision)
    requires p !in ds
    ensures Summarize(ds[p := d]) == Record(Summarize(ds), p, d)
  {
    SummarizeAddTypes(ds, p, d);
    SummarizeAddSenses(ds, p, d);
    SummarizeAddModes(ds, p, d);
    SummarizeAddRejected(ds, p, d);
    SummarizeAddEncoded(ds, p, d);
  }

  lemma SummarizeAddTypes(ds: map<string, Decision>, p: string, d: Decision)
    requires p !in ds
    ensures Summarize(ds[p := d]).valTypes
      == if d.Accept? then Summarize(ds).valTypes[p := d.vtype] else Summarize(ds).valTypes
  {
  }

  lemma SummarizeAddSenses(ds: map<string, Decision>, p: string, d: Decision)
    requires p !in ds
    ensures Summarize(ds[p := d]).valSenses
      == if d.Accept? then Summarize(ds).valSenses[p := d.sense] else Summarize(ds).valSenses
  {
  }

  lemma SummarizeAddModes(ds: map<string, Decision>, p: string, d: Decision)
    requires p !in ds
    ensures Summarize(ds[p := d]).pathModes
      == if d.Accept? then Summarize(ds).pathModes[p := d.mode] else Summarize(ds).pathModes
  {
  }

  lemma SummarizeAddRejected(ds: map<string, Decision>, p: string, d: Decision)
    requires p !in ds
    ensures var before, after := Summarize(ds), Summarize(ds[p := d]);
      after.rejectAttrs == (if d.Reject? then before.rejectAttrs[p := d.stats] else before.rejectAttrs)
  {
  }

  lemma SummarizeAddEncoded(ds: map<string, Decision>, p: string, d: Decision)
    requires p !in ds
    ensures var before, after := Summarize(ds), Summarize(ds[p := d]);
      after.transforms == (if d.Accept? && d.encoder.Some? then before.transforms[p := d.encoder.value]
                           else before.transforms)
  {
  }

  /** The verdicts on every path of the table. */
  function Verdicts(py: Py, table: map<string, AttrStats>, docCount: nat, target: string, cfg: Config, role: Role)
    : map<string, Decision>
    requires docCount > 0
  {
    map p | p in table :: Decide(py, p, table[p], docCount, target, cfg, role)
  }

  /**
   * The whole validation result. Every path of the table is either kept
   * (with a type, a sense and a mode) or rejected, never both; the target
   * is always kept; every other kept path is sufficient; encoders belong
   * to kept paths, and a non-target path has one exactly when it is
   * categorical; the mode kept is the one counted.
   */
  function Decisions(py: Py, table: map<string, AttrStats>, docCount: nat, target: string, cfg: Config, role: Role)
    : (r: Snapshot)
    requires docCount > 0
    ensures r.valTypes.Keys == r.valSenses.Keys == r.pathModes.Keys
    ensures r.valTypes.Keys !! r.rejectAttrs.Keys
    ensures r.valTypes.Keys + r.rejectAttrs.Keys == table.Keys
    ensures target in table ==> target in r.valTypes
    ensures r.transforms.Keys <= r.valTypes.Keys
    ensures forall p :: p in r.valTypes && p != target ==> Sufficient(table[p], docCount, cfg)
    ensures forall p :: p in r.valTypes && p != target ==> (p in r.transforms <==> r.valSenses[p] == Categorical)
    ensures forall p :: p in r.pathModes ==> r.pathModes[p] == table[p].mode
    ensures forall p :: p in r.valTypes ==>
      var d := Decide(py, p, table[p], docCount, target, cfg, role);
      d.Accept? && r.valTypes[p] == d.vtype && r.valSenses[p] == d.sense
    ensures forall p :: p in r.rejectAttrs ==> Decide(py, p, table[p], docCount, target, cfg, role) == Reject(r.rejectAttrs[p])
    ensures forall p :: p in r.transforms ==> Decide(py, p, table[p], docCount, target, cfg, role).encoder == Some(r.transforms[p])
  {
    DecideAll(py, table, docCount, target, cfg, role);
    Summarize(Verdicts(py, table, docCount, target, cfg, role))
  }

  lemma DecideAll(py: Py, table: map<string, AttrStats>, docCount: nat, target: string, cfg: Config, role: Role)
    requires docCount > 0
    ensures forall p :: p in table ==>
      var d := Verdicts(py, table, docCount, target, cfg, role)[p];
      && (p == target ==> d.Accept?)
      && (p != target && d.Accept? ==> Sufficient(table[p], docCount, cfg))
      && (p != target && d.Accept? ==> (d.encoder.Some? <==> d.sense == Categorical))
      && (d.Accept? ==> d.mode == table[p].mode)
  {
    forall p | p in table {
      DecideFacts(py, p, table[p], docCount, target, cfg, role);
    }
  }

  /** The type histogram rewritten in place with the effective INT and FLOAT counts. */
  method EffectiveTypes(mData: AttrStats) returns (attrTypes: TypeCounts)
    ensures attrTypes == ExtendTypes(mData)
  {
    attrTypes := mData.types;
    var iCnt := 0;
    var fCnt := 0;
    if TInt in attrTypes.counts {
      iCnt := iCnt + attrTypes.counts[TInt];
    }
    if TFloat in attrTypes.counts {
      fCnt := fCnt + attrTypes.counts[TFloat];
    }
    iCnt := iCnt + mData.intStr;
    fCnt := fCnt + mData.intStr;
    fCnt := fCnt + mData.floatStr;
    attrTypes := SetCount(attrTypes, TInt, iCnt);
    attrTypes := SetCount(attrTypes, TFloat, fCnt);
  }

  /**
   * The body of the loop of validateSchemaTypes for one attribute: its
   * verdict and the record as it is rewritten in place.
   */
  method ValidateAttr(py: Py, attrPath: string, mData: AttrStats, docCount: nat, target: string, cfg: Config, role: Role)
    returns (d: Decision, updated: AttrStats)
    requires docCount > 0
    ensures d == Decide(py, attrPath, mData, docCount, target, cfg, role)
    ensures updated == ValidatedEntry(mData)
  {
    var rReason := "";
    var presentCount := mData.presentCount;
    var valueCount := |mData.values|;
    updated := mData.(uniqueCount := Some(valueCount));

    var attrSufficient := false;
    if valueCount > 1 {
      attrSufficient := (presentCount as real) / (docCount as real) > cfg.minPresent;
      if !attrSufficient {
        rReason := ReasonMissing;
      }
    } else {
      rReason := ReasonOneValue;
    }

    var attrTypes := EffectiveTypes(mData);
    updated := updated.(types := attrTypes);

    var prefType: Option<AType> := None;
    var maxAlign, maxType := ScanMaxType(attrTypes);
    if (maxAlign as real) / (docCount as real) > cfg.minTypeAlignment {
      prefType := maxType;
    }
    assert prefType == PreferredType(mData, docCount, cfg);

    if attrPath == target {
      var vtype: AType;
      var sense: Sense;
      var encoder: Option<Encoder> := None;
      if role.isRegression {
        vtype, sense := TFloat, Numerical;
      } else if prefType.Some? {
        vtype, sense := prefType.value, Categorical;
      } else {
        vtype, sense := TInt, Categorical;
      }
      if role.isClassification {
        vtype, sense := TString, Categorical;
        encoder := Some(FitValues(py, mData));
      }
      d := Accept(vtype, sense, mData.mode, encoder);
    } else if attrSufficient && prefType.Some? && IsNumericType(prefType.value) {
      d := Accept(prefType.value, Numerical, mData.mode, None);
    } else if attrSufficient && valueCount <= cfg.maxCatVals {
      d := Accept(TString, Categorical, mData.mode, Some(FitValues(py, mData)));
    } else {
      if attrSufficient {
        rReason := ReasonNotNumeric;
      }
      d := Reject(RejectStats(presentCount, valueCount, rReason, map t | t in LearningTypes :: GetCount(attrTypes, t)));
    }
  }

  /**
   * validateSchemaTypes: decide every path of the table, rewriting each
   * record's type histogram and distinct-value count in place.
   */
  method ValidateSchemaTypes(py: Py, table: SchemaTable, docCount: nat, target: string, cfg: Config, role: Role)
    returns (r: Snapshot)
    requires docCount > 0
    modifies table
    ensures r == Decisions(py, old(table.entries), docCount, target, cfg, role)
    ensures table.entries == map p | p in old(table.entries) :: ValidatedEntry(old(table.entries)[p])
  {
    ghost var entries := table.entries;
    r := ValidatePaths(py, table, docCount, target, cfg, role, Verdicts(py, table.entries, docCount, target, cfg, role));
    assert table.entries == map p | p in entries :: ValidatedEntry(entries[p]);
  }

  /**
   * The loop of validateSchemaTypes: each path is decided as Decide says
   * and its record rewritten as ValidatedEntry says; `verdicts` records
   * the decisions taken, which the five result dicts summarize.
   */
  method ValidatePaths(py: Py, table: SchemaTable, docCount: nat, target: string, cfg: Config, role: Role,
                       ghost all: map<string, Decision>)
    returns (r: Snapshot)
    requires docCount > 0
    requires all == Verdicts(py, table.entries, docCount, target, cfg, role)
    modifies table
    ensures r == Summarize(all)
    ensures table.entries == ValidatedUpTo(old(table.entries), old(table.entries).Keys)
  {
    ghost var entries := table.entries;
    r := Snapshot(map[], map[], map[], map[], map[]);
    ghost var done: set<string> := {};
    var todo := table.entries.Keys;
    while todo != {}
      invariant todo !! done && todo + done == entries.Keys
      invariant table.entries == ValidatedUpTo(entries, done)
      invariant r == Summarize(Restricted(all, done))
      decreases todo
    {
      var attrPath :| attrPath in todo;
      var d := ValidateOne(py, table, docCount, target, cfg, role, entries, done, all, attrPath);
      RecordStep(all, done, attrPath);
      r := Record(r, attrPath, d);
      done := done + {attrPath};
      todo := todo - {attrPath};
    }
    RestrictedAll(all);
  }

  /** One pass of the loop of validateSchemaTypes: decide `p` and rewrite its record. */
  method ValidateOne(py: Py, table: SchemaTable, docCount: nat, target: string, cfg: Config, role: Role,
                     ghost entries: map<string, AttrStats>, ghost done: set<string>, ghost all: map<string, Decision>,
                     p: string)
    returns (d: Decision)
    requires docCount > 0
    requires all == Verdicts(py, entries, docCount, target, cfg, role)
    requires p in entries && p !in done
    requires table.entries == ValidatedUpTo(entries, done)
    modifies table
    ensures p in all && d == all[p]
    ensures table.entries == ValidatedUpTo(entries, done + {p})
  {
    ValidatedUpToAdd(entries, done, p);
    var updated;
    d, updated := ValidateAttr(py, p, table.entries[p], docCount, target, cfg, role);
    table.entries := table.entries[p := updated];
    VerdictAt(py, entries, docCount, target, cfg, role, p);
  }

  /** The verdicts reached on the paths in `keys`. */
  ghost function Restricted(all: map<string, Decision>, keys: set<string>): map<string, Decision>
  {
    map p | p in all && p in keys :: all[p]
  }

  lemma RestrictedAdd(all: map<string, Decision>, keys: set<string>, p: string)
    requires p in all && p !in keys
    ensures Restricted(all, keys + {p}) == Restricted(all, keys)[p := all[p]]
  {
  }

  /** One more path decided: the summary grows by that path's verdict. */
  lemma RecordStep(all: map<string, Decision>, done: set<string>, p: string)
    requires p in all && p !in done
    ensures Summarize(Restricted(all, done + {p})) == Record(Summarize(Restricted(all, done)), p, all[p])
  {
    RestrictedAdd(all, done, p);
    SummarizeAdd(Restricted(all, done), p, all[p]);
  }

  lemma VerdictAt(py: Py, t: map<string, AttrStats>, docCount: nat, target: string, cfg: Config, role: Role, p: string)
    requires docCount > 0 && p in t
    ensures p in Verdicts(py, t, docCount, target, cfg, role)
    ensures Verdicts(py, t, docCount, target, cfg, role)[p] == Decide(py, p, t[p], docCount, target, cfg, role)
  {
  }

  lemma RestrictedAll(all: map<string, Decision>)
    ensures Restricted(all, all.Keys) == all
  {
  }

  /** The table once the paths in `done` have had their records rewritten. */
  ghost function ValidatedUpTo(t: map<string, AttrStats>, done: set<string>): map<string, AttrStats>
  {
    map p | p in t :: if p in done then ValidatedEntry(t[p]) else t[p]
  }

  lemma ValidatedUpToAdd(t: map<string, AttrStats>, done: set<string>, p: string)
    requires p in t && p !in done
    ensures ValidatedUpTo(t, done)[p] == t[p]
    ensures ValidatedUpTo(t, done + {p}) == ValidatedUpTo(t, done)[p := ValidatedEntry(t[p])]
  {
  }

  /**
   * An attribute seen only as strings keeps String as its preferred type
   * even when every string is numeric: String was inserted first, and the
   * INT and FLOAT counts the strings lend can only tie with it.
   */
  lemma AllStringsPreferString(py: Py, e: AttrStats)
    requires StatsInv(py, e)
    requires e.types.order == [TString]
    ensures MaxTypeScan(ExtendTypes(e)) == (e.presentCount, Some(TString))
  {
    var ext := ExtendTypes(e);
    ExtendTypesCounts(e);
    assert e.types.counts.Keys == {TString};
    TotalOfOne(e.types, TString);
    assert ext.order == [TString, TInt, TFloat];
    var n := e.presentCount;
    assert GetCount(ext, TString) == n > 0;
    assert GetCount(ext, TInt) <= n && GetCount(ext, TFloat) <= n;
    assert ScanFrom(ext, 3, n, Some(TString)) == (n, Some(TString));
    assert ScanFrom(ext, 2, n, Some(TString)) == (n, Some(TString));
    assert ScanFrom(ext, 1, n, Some(TString)) == (n, Some(TString));
  }

  /** Hence such an attribute is never kept as a numerical feature. */
  lemma AllStringsNeverNumerical(py: Py, path: string, e: AttrStats, docCount: nat, target: string, cfg: Config, role: Role)
    requires StatsInv(py, e) && docCount > 0
    requires e.types.order == [TString]
    requires path != target
    ensures Decide(py, path, e, docCount, target, cfg, role).Accept? ==>
      Decide(py, path, e, docCount, target, cfg, role).sense == Categorical
  {
    AllStringsPreferString(py, e);
  }

  /**
   * minPresent is a strict bound: with 10 documents and minPresent 0.8, an
   * attribute present in 8 of them is missing too often, one present in 9
   * is not.
   */
  lemma PresenceIsStrict(e: AttrStats)
    requires |e.values| > 1
    ensures !Sufficient(e.(presentCount := 8), 10, Config(0.8, 0.5, 20))
    ensures Sufficient(e.(presentCount := 9), 10, Config(0.8, 0.5, 20))
  {
  }
}
