/** JSON documents as Python's `json.load` returns them, with the conversions `str(v)` and
    `int(v)` that the engine applies to them. */
module JsonValues {
  import opened Outcomes
  import opened Dicts
  import opened PyStrings

  /** A parsed JSON value.  Objects keep their keys in document order, like Python dicts.
      Floating-point numbers are not part of this model. */
  datatype Json =
    | JNull
    | JBool(b: bool)
    | JInt(i: int)
    | JStr(s: string)
    | JArr(items: seq<Json>)
    | JObj(fields: Dict<Json>)

  /** `d[k1][k2]...[kn]` on nested objects: None as soon as a key is missing or a value on the
      way is not an object. */
  function Lookup(d: Json, keys: seq<string>): Option<Json>
    decreases |keys|
  {
    if keys == [] then Some(d)
    else if d.JObj? then
      match Get(d.fields, keys[0])
      case None => None
      case Some(c) => Lookup(c, keys[1..])
    else None
  }

  /** Looking a path up in two stages is looking it up at once. */
  lemma {:induction false} LookupConcat(d: Json, a: seq<string>, b: seq<string>)
    ensures Lookup(d, a + b) == match Lookup(d, a) case None => None case Some(x) => Lookup(x, b)
    decreases |a|
  {
    if a == [] {
      assert a + b == b;
    } else {
      assert (a + b)[0] == a[0] && (a + b)[1..] == a[1..] + b;
      if d.JObj? && Get(d.fields, a[0]).Some? {
        LookupConcat(Get(d.fields, a[0]).value, a[1..], b);
      }
    }
  }

  /** `str(v)`: a string is shown as itself, anything else as its `repr`. */
  function PyStr(v: Json): string {
    if v.JStr? then v.s else Repr(v)
  }

  /** `repr(v)` of the Python value `json.load` produces. */
  function Repr(v: Json): string
    decreases v, 1
  {
    match v
    case JNull => "None"
    case JBool(b) => if b then "True" else "False"
    case JInt(n) => IntToDecimal(n)
    case JStr(s) => "'" + s + "'"
    case JArr(items) => "[" + ReprItems(items) + "]"
    case JObj(fields) => "{" + ReprFields(fields) + "}"
  }

  function ReprItems(items: seq<Json>): string
    decreases items, 0
  {
    if items == [] then ""
    else if |items| == 1 then Repr(items[0])
    else Repr(items[0]) + ", " + ReprItems(items[1..])
  }

  function ReprFields(fields: Dict<Json>): string
    decreases fields, 0
  {
    if fields == [] then ""
    else
      var first := fields[0];
      assert first in fields;
      assert first.1 < first;
      var entry := "'" + first.0 + "': " + Repr(first.1);
      if |fields| == 1 then entry else entry + ", " + ReprFields(fields[1..])
  }

  /** `int(v)`: ints stay, booleans become 0 or 1, strings are parsed, None, lists and dicts
      raise TypeError. */
  function IntOf(v: Json): Result<int> {
    match v
    case JInt(n) => Ok(n)
    case JBool(b) => Ok(if b then 1 else 0)
    case JStr(s) => ParseInt(s)
    case _ => Err(TypeError)
  }

  /** A number typed into an Entry as `str(n)` comes back as `n` through `int()`. */
  lemma ShownIntReadsBack(n: int)
    ensures IntOf(JStr(PyStr(JInt(n)))) == Ok(n)
  {
    IntRoundTrip(n);
  }
}
