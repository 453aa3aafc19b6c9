/** JSON values without floats, their writer (`json.dumps` with `sort_keys`) and reader (`json.loads`). */
module Json {
  import opened Texts
  import opened JsonText
  import opened JsonNumber

  datatype Value =
    | Null
    | Bool(b: bool)
    | Int(n: int)
    | Str(t: Text)
    | Arr(items: seq<Value>)
    | Obj(fields: seq<Field>)

  datatype Field = Field(key: Text, value: Value)

  /** A Python dict never holds a key twice. */
  predicate DistinctKeys(fields: seq<Field>) {
    forall i, j :: 0 <= i < j < |fields| ==> fields[i].key != fields[j].key
  }

  /** Every object inside `v` is a dict. */
  predicate Proper(v: Value) {
    match v
    case Arr(items) => forall x | x in items :: Proper(x)
    case Obj(fields) => DistinctKeys(fields) && forall f | f in fields :: Proper(f.value)
    case _ => true
  }

  // ------------------------------------------------------------------ writer

  function ShowItems(items: seq<Value>, ascii: bool): Text
    decreases items, 0
  {
    if items == [] then []
    else Show(items[0], ascii) + (if |items| == 1 then [] else [0x2C]) + ShowItems(items[1..], ascii)
  }

  function ShowFields(fields: seq<Field>, ascii: bool): Text
    decreases fields, 0
  {
    if fields == [] then []
    else
      ShowString(fields[0].key, ascii) + [0x3A] + Show(fields[0].value, ascii)
      + (if |fields| == 1 then [] else [0x2C]) + ShowFields(fields[1..], ascii)
  }

  /** The compact form, `separators=(",", ":")`, fields in the order they are held. */
  function Show(v: Value, ascii: bool): Text
    decreases v, 1
  {
    match v
    case Null => Lit("null")
    case Bool(b) => if b then Lit("true") else Lit("false")
    case Int(n) => ShowInt(n)
    case Str(t) => ShowString(t, ascii)
    case Arr(items) => [0x5B] + ShowItems(items, ascii) + [0x5D]
    case Obj(fields) => [0x7B] + ShowFields(fields, ascii) + [0x7D]
  }

  function Insert(f: Field, fields: seq<Field>): (r: seq<Field>) {
    if fields == [] then [f]
    else if Before(fields[0].key, f.key) then [fields[0]] + Insert(f, fields[1..])
    else [f] + fields
  }

  function Sort(fields: seq<Field>): seq<Field> {
    if fields == [] then [] else Insert(fields[0], Sort(fields[1..]))
  }

  function NormItems(items: seq<Value>): (r: seq<Value>)
    ensures |r| == |items|
    decreases items, 0
  {
    if items == [] then [] else [Norm(items[0])] + NormItems(items[1..])
  }

  function NormFields(fields: seq<Field>): (r: seq<Field>)
    ensures |r| == |fields|
    decreases fields, 0
  {
    if fields == [] then [] else [Field(fields[0].key, Norm(fields[0].value))] + NormFields(fields[1..])
  }

  /** `sort_keys`: every object's fields in key order. */
  function Norm(v: Value): Value
    decreases v, 1
  {
    match v
    case Arr(items) => Arr(NormItems(items))
    case Obj(fields) => Obj(Sort(NormFields(fields)))
    case _ => v
  }

  function Dumps(v: Value, ascii: bool): Text { Show(Norm(v), ascii) }

  // ------------------------------------------------------------------ reader

  predicate IsSpace(c: CodePoint) { c == 0x20 || c == 0x09 || c == 0x0A || c == 0x0D }

  function SkipSpace(s: Text): (r: Text)
    ensures |r| <= |s|
  {
    if s != [] && IsSpace(s[0]) then SkipSpace(s[1..]) else s
  }

  predicate Opens(s: Text, word: Text) { |word| <= |s| && s[..|word|] == word }

  /** `dict(pairs)`: a repeated key keeps its first place and its last value. */
  function Put(fields: seq<Field>, f: Field): seq<Field> {
    if fields == [] then [f]
    else if fields[0].key == f.key then [f] + fields[1..]
    else [fields[0]] + Put(fields[1..], f)
  }

  function ReadValue(s: Text): (r: Read<Value>)
    ensures r.Got? ==> |r.rest| < |s|
    decreases |s|, 0
  {
    if s == [] then Fail(Malformed)
    else if s[0] == QUOTE then
      match ReadChars(s[1..])
      case Got(t, rest) => Got(Str(t), rest)
      case Fail(why) => Fail(why)
    else if s[0] == 0x7B then
      var inner := SkipSpace(s[1..]);
      if inner != [] && inner[0] == 0x7D then Got(Obj([]), inner[1..]) else ReadFields(inner, [])
    else if s[0] == 0x5B then
      var inner := SkipSpace(s[1..]);
      if inner != [] && inner[0] == 0x5D then Got(Arr([]), inner[1..]) else ReadItems(inner, [])
    else if Opens(s, Lit("null")) then Got(Null, s[4..])
    else if Opens(s, Lit("true")) then Got(Bool(true), s[4..])
    else if Opens(s, Lit("false")) then Got(Bool(false), s[5..])
    else if Opens(s, Lit("NaN")) || Opens(s, Lit("Infinity")) || Opens(s, Lit("-Infinity")) then Fail(FloatLiteral)
    else
      match ReadInt(s)
      case Got(n, rest) => Got(Int(n), rest)
      case Fail(why) => Fail(why)
  }

  /** Reads the elements that remain after `before`, up to the closing bracket. */
  function ReadItems(s: Text, before: seq<Value>): (r: Read<Value>)
    ensures r.Got? ==> |r.rest| < |s|
    decreases |s|, 1
  {
    match ReadValue(s)
    case Fail(why) => Fail(why)
    case Got(v, more) =>
      var after := SkipSpace(more);
      if after == [] then Fail(Malformed)
      else if after[0] == 0x5D then Got(Arr(before + [v]), after[1..])
      else if after[0] == 0x2C then ReadItems(SkipSpace(after[1..]), before + [v])
      else Fail(Malformed)
  }

  /** Reads the members that remain after `before`, up to the closing brace. */
  function ReadFields(s: Text, before: seq<Field>): (r: Read<Value>)
    ensures r.Got? ==> |r.rest| < |s|
    decreases |s|, 1
  {
    if s == [] || s[0] != QUOTE then Fail(Malformed)
    else
      match ReadChars(s[1..])
      case Fail(why) => Fail(why)
      case Got(key, afterKey) =>
        var colon := SkipSpace(afterKey);
        if colon == [] || colon[0] != 0x3A then Fail(Malformed)
        else
          match ReadValue(SkipSpace(colon[1..]))
          case Fail(why) => Fail(why)
          case Got(v, more) =>
            var after := SkipSpace(more);
            var fields := Put(before, Field(key, v));
            if after == [] then Fail(Malformed)
            else if after[0] == 0x7D then Got(Obj(fields), after[1..])
            else if after[0] == 0x2C then ReadFields(SkipSpace(after[1..]), fields)
            else Fail(Malformed)
  }

  /** One document: a value with nothing but space around it. */
  function Loads(s: Text): Read<Value> {
    match ReadValue(SkipSpace(s))
    case Fail(why) => Fail(why)
    case Got(v, rest) => if SkipSpace(rest) == [] then Got(v, []) else Fail(Malformed)
  }
}
