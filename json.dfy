/** Parsed JSON values: the records that configuration files and slide dictionaries are made of. */
module Json {
  import opened Wrappers

  datatype Value =
    | Null
    | Bool(b: bool)
    | Num(n: int)
    | Str(s: string)
    | Arr(items: seq<Value>)
    | Obj(fields: map<string, Value>)

  /** Python truthiness of a value (`not v` is its negation). */
  predicate Truthy(v: Value)
  {
    match v
    case Null => false
    case Bool(b) => b
    case Num(n) => n != 0
    case Str(s) => s != ""
    case Arr(items) => items != []
    case Obj(fields) => fields != map[]
  }

  /** `d.get(key, default)` */
  function GetOr(fields: map<string, Value>, key: string, default: Value): Value
  {
    if key in fields then fields[key] else default
  }

  /** A JSON array of strings, as a sequence of strings. */
  function AsStrings(v: Value): (r: Option<seq<string>>)
    ensures r.Some? ==> v == Arr(StrItems(r.value))
  {
    if v.Arr? && forall i | 0 <= i < |v.items| :: v.items[i].Str? then
      Some(seq(|v.items|, i requires 0 <= i < |v.items| => v.items[i].s))
    else
      None
  }

  /** The JSON array holding the given strings. */
  function StrItems(ss: seq<string>): (items: seq<Value>)
    ensures |items| == |ss|
    ensures forall i | 0 <= i < |ss| :: items[i] == Str(ss[i])
  {
    seq(|ss|, i requires 0 <= i < |ss| => Str(ss[i]))
  }

  /** An optional string: JSON null stands for Python's None. */
  function OptionalStr(o: Option<string>): Value
  {
    match o
    case None => Null
    case Some(s) => Str(s)
  }

  /** Reading back a written string array gives the same strings. */
  lemma AsStringsOfStrItems(ss: seq<string>)
    ensures AsStrings(Arr(StrItems(ss))) == Some(ss)
  {
    var items := StrItems(ss);
    assert forall i | 0 <= i < |items| :: items[i].Str?;
    var back := seq(|items|, i requires 0 <= i < |items| => items[i].s);
    assert back == ss;
  }
}
