/** The flag translator (`_resolve_action`): the argparse action and the
    coercion type for a field, looked up by the class name of the field
    object in a closed table. */
module FlagTranslator {
  import opened CmdTypes

  /** The field classes the table knows. */
  datatype FieldKind =
    | FloatField
    | StringField
    | SelectField
    | IntegerField
    | BoolField
    | IncrementalIntegerField

  const KnownClassNames: set<string> :=
    {"FloatField", "StringField", "SelectField", "IntegerField", "BoolField", "IncrementalIntegerField"}

  function ClassName(k: FieldKind): string
  {
    match k
    case FloatField => "FloatField"
    case StringField => "StringField"
    case SelectField => "SelectField"
    case IntegerField => "IntegerField"
    case BoolField => "BoolField"
    case IncrementalIntegerField => "IncrementalIntegerField"
  }

  /** The kind a `__class__.__name__` denotes, or None when the table has
      no entry for it. */
  function KindOf(className: string): (k: Option<FieldKind>)
    ensures k.Some? <==> className in KnownClassNames
    ensures k.Some? ==> ClassName(k.value) == className
  {
    if className == "FloatField" then Some(FloatField)
    else if className == "StringField" then Some(StringField)
    else if className == "SelectField" then Some(SelectField)
    else if className == "IntegerField" then Some(IntegerField)
    else if className == "BoolField" then Some(BoolField)
    else if className == "IncrementalIntegerField" then Some(IncrementalIntegerField)
    else None
  }

  lemma KindOfClassName(k: FieldKind)
    ensures KindOf(ClassName(k)) == Some(k)
  {
  }

  /** An (action, type) pair; `coercion` is None where the table holds None. */
  datatype Translation = Translation(action: string, coercion: Option<Coercion>)

  /** The `type_maps` dictionary. */
  function TypeMap(k: FieldKind): Translation
  {
    match k
    case FloatField => Translation("store", Some(FloatType))
    case StringField => Translation("store", Some(StrType))
    case SelectField => Translation("store", Some(StrType))
    case IntegerField => Translation("store", Some(IntType))
    case BoolField => Translation("store_true", Some(BoolType))
    case IncrementalIntegerField => Translation("count", None)
  }

  function DigitChar(d: nat): char
    requires d < 10
  {
    "0123456789"[d]
  }

  function Digits(n: nat): string
  {
    if n < 10 then [DigitChar(n)] else Digits(n / 10) + [DigitChar(n % 10)]
  }

  /** Python's `str()` of a default value. */
  function PyStr(v: Value): string
  {
    match v
    case NoneValue => "None"
    case BoolValue(b) => if b then "True" else "False"
    case IntValue(i) => if i < 0 then "-" + Digits(-i) else Digits(i)
    case TextValue(s) => s
    case FloatValue(text) => text
  }

  function LowerChar(c: char): char
  {
    if 'A' <= c <= 'Z' then (c as int - 'A' as int + 'a' as int) as char else c
  }

  /** `str.lower()`, on the ASCII letters. */
  function Lower(s: string): (r: string)
    ensures |r| == |s|
    ensures forall i :: 0 <= i < |s| ==> r[i] == LowerChar(s[i])
  {
    if s == [] then [] else [LowerChar(s[0])] + Lower(s[1..])
  }

  /** The action a BoolField gets in place of the table's: "store_"
      followed by its lower-cased default. */
  function BoolAction(default: Value): string
  {
    "store_" + Lower(PyStr(default))
  }

  /** The translator with the action of a BoolField replaced, as lines
      221-222 of the source evidently intend; an unknown class name is the
      KeyError of the table lookup. */
  function ResolveAction(f: Field): (r: Result<Translation>)
    ensures f.className == "FloatField" ==> r == Ok(Translation("store", Some(FloatType)))
    ensures f.className == "StringField" ==> r == Ok(Translation("store", Some(StrType)))
    ensures f.className == "SelectField" ==> r == Ok(Translation("store", Some(StrType)))
    ensures f.className == "IntegerField" ==> r == Ok(Translation("store", Some(IntType)))
    ensures f.className == "IncrementalIntegerField" ==> r == Ok(Translation("count", None))
    ensures f.className == "BoolField" ==>
              r == Ok(Translation("store_" + Lower(PyStr(f.default)), Some(BoolType)))
    ensures r.Err? <==> f.className !in KnownClassNames
    ensures r.Err? ==> r.error == UnknownFieldClass(f.className)
  {
    match KindOf(f.className)
    case None => Err(UnknownFieldClass(f.className))
    case Some(k) =>
      if k == BoolField then Ok(TypeMap(k).(action := BoolAction(f.default)))
      else Ok(TypeMap(k))
  }

  /** The translator as written: `results` is a tuple from the table, so
      the item assignment for a BoolField raises TypeError. */
  function ResolveActionAsWritten(f: Field): (r: Result<Translation>)
    ensures f.className == "BoolField" ==> r == Err(TupleItemAssignment)
    ensures f.className != "BoolField" ==> r == ResolveAction(f)
  {
    match KindOf(f.className)
    case None => Err(UnknownFieldClass(f.className))
    case Some(k) => if k == BoolField then Err(TupleItemAssignment) else Ok(TypeMap(k))
  }

  /** Every BoolField, whatever its default, makes the as-written translator
      fail, while the corrected one accepts it. */
  lemma AsWrittenRejectsBoolField(labelText: string, default: Value, required: bool)
    ensures var f := Field("flag", "BoolField", labelText, default, required, None);
            ResolveActionAsWritten(f) == Err(TupleItemAssignment) && ResolveAction(f).Ok?
  {
  }

  /** A BoolField with a boolean default gets "store_true" or "store_false"
      after that default: the flag stores the very value the field holds
      when the flag is absent. */
  lemma {:induction false} BoolActionFollowsDefault(f: Field, d: bool)
    requires f.className == "BoolField" && f.default == BoolValue(d)
    ensures ResolveAction(f) == Ok(Translation(if d then "store_true" else "store_false", Some(BoolType)))
    ensures ResolveAction(f).value.action == "store_" + (if f.default.b then "true" else "false")
  {
    var text := PyStr(f.default);
    var lowered := Lower(text);
    if d {
      assert lowered[0] == 't' && lowered[1] == 'r' && lowered[2] == 'u' && lowered[3] == 'e';
      assert lowered == "true";
      assert "store_" + lowered == "store_true";
    } else {
      assert lowered[0] == 'f' && lowered[1] == 'a' && lowered[2] == 'l' && lowered[3] == 's';
      assert lowered[4] == 'e';
      assert lowered == "false";
      assert "store_" + lowered == "store_false";
    }
  }
}
