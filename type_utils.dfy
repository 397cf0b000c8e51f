/*
 * Value classification and coercion of the ahnung schema engine
 * (schema/type_utils.py): the canonical type names, the fill values used
 * for missing or unconvertible fields, the classifier that unwraps
 * single-key extended-JSON wrappers, and the convert_* helpers that fall
 * back to a default and bump a counter instead of raising.
 */
module TypeUtils {

  datatype Option<T> = None | Some(value: T)

  /** What a Python call does when the model keeps its exception: it returns, or it raises. */
  datatype Outcome<T> = Returned(value: T) | Raised(exception: string)

  /** The type names tracked by the schema analysis (TYPE_*), plus the two internal logical types. */
  datatype AType = TInt | TLong | TFloat | TString | TDate | TDict | TUnknown

  /** The string each type name stands for in the schema snapshot. */
  function TypeName(t: AType): string
  {
    match t
    case TInt => "int"
    case TLong => "long"
    case TFloat => "float"
    case TString => "string"
    case TDate => "date"
    case TDict => "dict"
    case TUnknown => "unknown"
  }

  /** LEARNING_TYPES, in the source's order. */
  const LearningTypes: seq<AType> := [TInt, TLong, TFloat, TString, TDate]

  /** The numeric types of validateSchemaTypes' numTypeList. */
  predicate IsNumericType(t: AType)
  {
    t == TFloat || t == TInt || t == TLong
  }

  /**
   * A raw document value. A Python dict is the ordered sequence of its
   * key/value pairs (insertion order); a datetime is an opaque timestamp;
   * a bool keeps its own constructor, since Python's bool is a subclass of
   * int and is classified as one while staying True or False; ROther
   * stands for every other Python object (lists, bytes, ...).
   */
  datatype Raw =
    | RInt(i: int)
    | RBool(b: bool)
    | RFloat(f: real)
    | RStr(s: string)
    | RDate(t: int)
    | RDict(entries: seq<(string, Raw)>)
    | RNone
    | ROther

  /** MISSING_*: fill values for missing fields or failed conversions. */
  const MissingInt: Raw := RInt(0)
  const MissingFloat: Raw := RFloat(0.0)
  const MissingString: Raw := RStr("")
  const MissingDate: Raw := RDate(0)

  /** The extended-JSON marker keys recognised by the classifier. */
  const NumberDouble: string := "$numberDouble"
  const NumberLong: string := "$numberLong"
  const NumberInt: string := "$numberInt"
  const DateMarker: string := "$date"

  /**
   * The Python built-ins the engine relies on, kept abstract: int() and
   * float() on a str (None where Python raises ValueError),
   * datetime.fromisoformat, str() of any value, and the class list that
   * sklearn's LabelEncoder.fit builds from a set of labels.
   */
  datatype Py = Py(
    parseInt: string -> Option<int>,
    parseFloat: string -> Option<real>,
    fromIsoFormat: string -> Option<int>,
    str: Raw -> string,
    fitLabels: set<string> -> seq<string>)

  /** A duplicate-free enumeration of a set. */
  ghost predicate Enumerates(s: seq<string>, labels: set<string>)
  {
    (forall i, j :: 0 <= i < j < |s| ==> s[i] != s[j]) && (forall x :: x in s <==> x in labels)
  }

  /** What the model assumes of the built-ins. */
  ghost predicate Wf(py: Py)
  {
    // float() accepts every string int() accepts, with the same value
    && (forall s :: py.parseInt(s).Some? ==> py.parseFloat(s) == Some(py.parseInt(s).value as real))
    // str() of a str is that str, and int() reads back str() of an int
    && (forall s :: py.str(RStr(s)) == s)
    && (forall i :: py.parseInt(py.str(RInt(i))) == Some(i))
    // LabelEncoder.fit: every label gets exactly one class index
    && (forall labels :: Enumerates(py.fitLabels(labels), labels))
  }

  /** int() of a float truncates toward zero. */
  function Trunc(f: real): (n: int)
    ensures f >= 0.0 ==> n as real <= f < n as real + 1.0
    ensures f < 0.0 ==> n as real - 1.0 < f <= n as real
  {
    if f >= 0.0 then f.Floor else -((-f).Floor)
  }

  /** int(v); None where Python raises ValueError or TypeError. */
  function IntOf(py: Py, v: Raw): Option<int>
  {
    match v
    case RInt(i) => Some(i)
    case RBool(b) => Some(if b then 1 else 0)
    case RFloat(f) => Some(Trunc(f))
    case RStr(s) => py.parseInt(s)
    case _ => None
  }

  /** float(v); None where Python raises ValueError or TypeError. */
  function FloatOf(py: Py, v: Raw): Option<real>
  {
    match v
    case RInt(i) => Some(i as real)
    case RBool(b) => Some(if b then 1.0 else 0.0)
    case RFloat(f) => Some(f)
    case RStr(s) => py.parseFloat(s)
    case _ => None
  }

  /** datetime.fromtimestamp(v), as an opaque timestamp; None where Python raises TypeError. */
  function TimestampOf(v: Raw): Option<int>
  {
    match v
    case RInt(i) => Some(i)
    case RBool(b) => Some(if b then 1 else 0)
    case RFloat(f) => Some(f.Floor)
    case _ => None
  }

  /** convert_int: int(value), or `default` with the counter raised by one. */
  function ConvertInt(py: Py, value: Raw, default: Raw, counter: nat): (r: (Raw, nat))
    ensures r.1 == counter ==> r.0.RInt?
    ensures r.1 != counter ==> r == (default, counter + 1)
    ensures value.RInt? ==> r == (value, counter)
    ensures value.RStr? ==> (r.1 == counter <==> py.parseInt(value.s).Some?)
    ensures value.RBool? ==> r == (RInt(if value.b then 1 else 0), counter)
    ensures value.RFloat? ==> r == (RInt(Trunc(value.f)), counter)
    ensures value.RStr? && py.parseInt(value.s).Some? ==> r == (RInt(py.parseInt(value.s).value), counter)
    ensures !(value.RInt? || value.RBool? || value.RFloat? || value.RStr?) ==> r == (default, counter + 1)
  {
    match IntOf(py, value)
    case Some(n) => (RInt(n), counter)
    case None => (default, counter + 1)
  }

  /** convert_float: float(value), or `default` with the counter raised by one. */
  function ConvertFloat(py: Py, value: Raw, default: Raw, counter: nat): (r: (Raw, nat))
    ensures r.1 == counter ==> r.0.RFloat?
    ensures r.1 != counter ==> r == (default, counter + 1)
    ensures value.RFloat? ==> r == (value, counter)
    ensures value.RInt? ==> r == (RFloat(value.i as real), counter)
    ensures value.RBool? ==> r == (RFloat(if value.b then 1.0 else 0.0), counter)
    ensures value.RStr? ==> (r.1 == counter <==> py.parseFloat(value.s).Some?)
    ensures value.RStr? && py.parseFloat(value.s).Some? ==> r == (RFloat(py.parseFloat(value.s).value), counter)
    ensures !(value.RInt? || value.RBool? || value.RFloat? || value.RStr?) ==> r == (default, counter + 1)
  {
    match FloatOf(py, value)
    case Some(x) => (RFloat(x), counter)
    case None => (default, counter + 1)
  }

  /**
   * convert_date: a str goes through fromisoformat; a dict holding one
   * `$numberLong` timestamp goes through fromtimestamp. The source reads the
   * pair as `value.items()[0]`, which raises TypeError in Python 3; the
   * model reads the sole pair (see ConvertDateAsWritten). Any other value
   * returns `default` WITHOUT raising the counter.
   */
  function ConvertDate(py: Py, value: Raw, default: Raw, counter: nat): (r: (Raw, nat))
    ensures r.1 == counter || r == (default, counter + 1)
    ensures r.1 == counter && (value.RStr? || value.RDict?) ==> r.0.RDate?
    ensures !(value.RStr? || value.RDict?) ==> r == (default, counter)
    ensures value.RStr? ==> (r.1 == counter <==> py.fromIsoFormat(value.s).Some?)
    ensures value.RStr? && py.fromIsoFormat(value.s).Some? ==> r == (RDate(py.fromIsoFormat(value.s).value), counter)
    ensures value.RDict? && (|value.entries| != 1 || value.entries[0].0 != NumberLong) ==> r == (default, counter + 1)
    ensures value.RDict? && |value.entries| == 1 && value.entries[0].0 == NumberLong && value.entries[0].1.RInt?
      ==> r == (RDate(value.entries[0].1.i), counter)
    ensures value.RDict? && |value.entries| == 1 && value.entries[0].0 == NumberLong && value.entries[0].1.RFloat?
      ==> r == (RDate(value.entries[0].1.f.Floor), counter)
    ensures value.RDict? && |value.entries| == 1 && value.entries[0].0 == NumberLong && TimestampOf(value.entries[0].1).None?
      ==> r == (default, counter + 1)
  {
    match value
    case RStr(s) =>
      (match py.fromIsoFormat(s)
       case Some(t) => (RDate(t), counter)
       case None => (default, counter + 1))
    case RDict(entries) =>
      if |entries| == 1 && entries[0].0 == NumberLong then
        match TimestampOf(entries[0].1)
        case Some(t) => (RDate(t), counter)
        case None => (default, counter + 1)
      else
        (default, counter + 1)
    case _ => (default, counter)
  }

  /** convert_string: str(value); str() never fails on the values modelled, so the counter never moves. */
  function ConvertString(py: Py, value: Raw, default: Raw, counter: nat): (r: (Raw, nat))
    ensures r.1 == counter && r.0.RStr?
    ensures Wf(py) && value.RStr? ==> r.0 == value
  {
    (RStr(py.str(value)), counter)
  }

  /** The canonical type a recognised marker key unwraps to. */
  function MarkerType(key: string): Option<AType>
  {
    if key == NumberDouble then Some(TFloat)
    else if key == NumberLong then Some(TInt)
    else if key == NumberInt then Some(TInt)
    else if key == DateMarker then Some(TDate)
    else None
  }

  /** A dict that the classifier unwraps: exactly one pair, under a marker key. */
  predicate IsWrapper(v: Raw)
  {
    v.RDict? && |v.entries| == 1 && MarkerType(v.entries[0].0).Some?
  }

  /**
   * ahnungType: the type component of the classification alone. The
   * source indexes `tValue.items()` like a list; the model reads the sole
   * pair (see AhnungTypeAsWritten).
   */
  function AhnungType(v: Raw): (t: AType)
    ensures forall py :: t == AhnungTypeAndValue(py, v).0
  {
    match v
    case RInt(_) => TInt
    case RBool(_) => TInt
    case RFloat(_) => TFloat
    case RStr(_) => TString
    case RDict(entries) =>
      if |entries| == 1 then
        var key := entries[0].0;
        if key == NumberDouble then TFloat
        else if key == NumberLong then TInt
        else if key == NumberInt then TInt
        else if key == DateMarker then TDate
        else TDict
      else TDict
    case _ => TUnknown
  }

  /**
   * ahnungTypeAndValue: classify a raw value and give its canonical value.
   * A wrapper is unwrapped through the matching convert_* with the
   * MISSING_* fill value, so a bad payload never raises. The source
   * indexes `tValue.items()` like a list; the model reads the sole pair
   * (see AhnungTypeAndValueAsWritten).
   */
  function AhnungTypeAndValue(py: Py, v: Raw): (r: (AType, Raw))
    ensures v.RInt? || v.RBool? ==> r == (TInt, v)
    ensures v.RFloat? ==> r == (TFloat, v)
    ensures v.RStr? ==> r == (TString, v)
    ensures !(v.RInt? || v.RBool? || v.RFloat? || v.RStr? || v.RDict?) ==> r == (TUnknown, v)
    ensures v.RDict? && !IsWrapper(v) ==> r == (TDict, v)
    ensures IsWrapper(v) ==> r.0 == MarkerType(v.entries[0].0).value
    ensures IsWrapper(v) && r.0 == TInt && IntOf(py, v.entries[0].1).None? ==> r.1 == MissingInt
    ensures IsWrapper(v) && r.0 == TInt && IntOf(py, v.entries[0].1).Some? ==> r.1 == RInt(IntOf(py, v.entries[0].1).value)
    ensures IsWrapper(v) && r.0 == TFloat && FloatOf(py, v.entries[0].1).None? ==> r.1 == MissingFloat
    ensures IsWrapper(v) && r.0 == TFloat && FloatOf(py, v.entries[0].1).Some? ==> r.1 == RFloat(FloatOf(py, v.entries[0].1).value)
    ensures IsWrapper(v) && r.0 == TDate ==> r.1 == ConvertDate(py, v.entries[0].1, MissingDate, 0).0
    ensures IsWrapper(v) && r.0 == TDate && ConvertDate(py, v.entries[0].1, MissingDate, 0).1 != 0 ==> r.1 == MissingDate
    ensures IsWrapper(v) && r.0 == TDate && !(v.entries[0].1.RStr? || v.entries[0].1.RDict?) ==> r.1 == MissingDate
    ensures r.0 == TInt ==> r.1.RInt? || r.1.RBool?
    ensures r.0 == TFloat ==> r.1.RFloat?
    ensures r.0 == TString ==> r.1.RStr?
    ensures r.0 == TDate ==> r.1.RDate?
    ensures r.0 != TLong
  {
    match v
    case RInt(_) => (TInt, v)
    case RBool(_) => (TInt, v)
    case RFloat(_) => (TFloat, v)
    case RStr(_) => (TString, v)
    case RDict(entries) =>
      if |entries| == 1 then
        var key, payload := entries[0].0, entries[0].1;
        if key == NumberDouble then (TFloat, ConvertFloat(py, payload, MissingFloat, 0).0)
        else if key == NumberLong then (TInt, ConvertInt(py, payload, MissingInt, 0).0)
        else if key == NumberInt then (TInt, ConvertInt(py, payload, MissingInt, 0).0)
        else if key == DateMarker then (TDate, ConvertDate(py, payload, MissingDate, 0).0)
        else (TDict, v)
      else (TDict, v)
    case _ => (TUnknown, v)
  }

  /**
   * The canonical value of an int, float or string is a fixed point of
   * the classifier; the canonical value of a date is a datetime, which the
   * classifier itself calls unknown.
   */
  lemma CanonicalValueReclassifies(py: Py, v: Raw)
    ensures var r := AhnungTypeAndValue(py, v);
      (r.0 == TInt || r.0 == TFloat || r.0 == TString) ==> AhnungTypeAndValue(py, r.1) == r
    ensures var r := AhnungTypeAndValue(py, v);
      r.0 == TDate ==> AhnungTypeAndValue(py, r.1).0 == TUnknown
  {
  }

  // ---------------------------------------------------------------------
  // The three members below are the source AS WRITTEN for Python 3, where
  // `d.items()` is a view that cannot be indexed: `vitems[0]` raises
  // TypeError. The rest of the model uses the corrected members above.
  // ---------------------------------------------------------------------

  /** ahnungTypeAndValue as written: any one-pair dict raises TypeError (uncaught). */
  function AhnungTypeAndValueAsWritten(py: Py, v: Raw): (r: Outcome<(AType, Raw)>)
    ensures r.Raised? <==> v.RDict? && |v.entries| == 1
    ensures r.Returned? ==> r.value == AhnungTypeAndValue(py, v)
  {
    match v
    case RInt(_) => Returned((TInt, v))
    case RBool(_) => Returned((TInt, v))
    case RFloat(_) => Returned((TFloat, v))
    case RStr(_) => Returned((TString, v))
    case RDict(entries) => if |entries| == 1 then Raised("TypeError") else Returned((TDict, v))
    case _ => Returned((TUnknown, v))
  }

  /** ahnungType as written: any one-pair dict raises TypeError (uncaught). */
  function AhnungTypeAsWritten(v: Raw): (r: Outcome<AType>)
    ensures r.Raised? <==> v.RDict? && |v.entries| == 1
    ensures r.Returned? ==> r.value == AhnungType(v)
  {
    match v
    case RInt(_) => Returned(TInt)
    case RBool(_) => Returned(TInt)
    case RFloat(_) => Returned(TFloat)
    case RStr(_) => Returned(TString)
    case RDict(entries) => if |entries| == 1 then Raised("TypeError") else Returned(TDict)
    case _ => Returned(TUnknown)
  }

  /** convert_date as written: the TypeError is caught, so every dict gives `default` and one more failure. */
  function ConvertDateAsWritten(py: Py, value: Raw, default: Raw, counter: nat): (r: (Raw, nat))
    ensures value.RDict? ==> r == (default, counter + 1)
    ensures !value.RDict? ==> r == ConvertDate(py, value, default, counter)
  {
    match value
    case RStr(s) =>
      (match py.fromIsoFormat(s)
       case Some(t) => (RDate(t), counter)
       case None => (default, counter + 1))
    case RDict(_) => (default, counter + 1)
    case _ => (default, counter)
  }

  /**
   * An ordinary nested document with a single field, such as
   * {"address": {"city": "Oslo"}}'s inner document, crashes the classifier
   * as written, and a `$numberInt` wrapper is never unwrapped; the corrected
   * classifier treats the first as a nested document and unwraps the second.
   */
  lemma SingleFieldDocumentAsWritten(py: Py)
    ensures var doc := RDict([("city", RStr("Oslo"))]);
      AhnungTypeAndValueAsWritten(py, doc).Raised? && AhnungTypeAndValue(py, doc) == (TDict, doc)
    ensures var w := RDict([(NumberInt, RInt(7))]);
      AhnungTypeAsWritten(w).Raised? && AhnungType(w) == TInt && AhnungTypeAndValue(py, w) == (TInt, RInt(7))
  {
    var w := RDict([(NumberInt, RInt(7))]);
    assert IsWrapper(w);
  }

  /** A `$numberLong` timestamp never becomes a date as written; the corrected convert_date reads it. */
  lemma NumberLongDateAsWritten(py: Py, t: int, default: Raw, counter: nat)
    ensures var v := RDict([(NumberLong, RInt(t))]);
      ConvertDateAsWritten(py, v, default, counter) == (default, counter + 1)
      && ConvertDate(py, v, default, counter) == (RDate(t), counter)
  {
  }
}
