/** The Python values `resp.json()` yields, the subscripting the script applies
    to them, and `int()` coercion, with the exception each raises. */
module PyJson {
  import opened Wrappers
  import opened Decimal

  /** Exception kinds, named by the class a handler would test against. */
  datatype Exc =
    | ValueError       // also json decoding errors, which subclass it
    | RuntimeError
    | ConnectionError
    | KeyError
    | IndexError
    | TypeError
    | OtherError       // any class none of the script's handlers names

  /** A decoded JSON document. `Float` carries the exact value of the float. */
  datatype Json =
    | Null
    | Bool(b: bool)
    | Int(i: int)
    | Float(r: real)
    | Text(s: string)
    | List(items: seq<Json>)
    | Dict(entries: map<string, Json>)

  /** `xs[i]` on a Python sequence: negative indices count from the end. */
  function ListIndex<T>(xs: seq<T>, i: int): (r: Result<T, Exc>)
    ensures r.Ok? <==> -|xs| <= i < |xs|
    ensures r.Ok? && i >= 0 ==> r.value == xs[i]
    ensures r.Ok? && i < 0 ==> r.value == xs[|xs| + i]
    ensures r.Err? ==> r.error == IndexError
  {
    if 0 <= i < |xs| then Ok(xs[i])
    else if -|xs| <= i < 0 then Ok(xs[|xs| + i])
    else Err(IndexError)
  }

  /** `v[key]` with a string key. */
  function Lookup(v: Json, key: string): (r: Result<Json, Exc>)
    ensures r.Ok? <==> v.Dict? && key in v.entries
    ensures r.Ok? ==> r.value == v.entries[key]
    ensures r.Err? ==> r.error == (if v.Dict? then KeyError else TypeError)
  {
    match v
    case Dict(entries) => if key in entries then Ok(entries[key]) else Err(KeyError)
    case _ => Err(TypeError)
  }

  /** `v[i]` with an int index. JSON object keys are strings, so an int is
      never among them. */
  function Element(v: Json, i: int): (r: Result<Json, Exc>)
    ensures v.List? ==> r == ListIndex(v.items, i)
    ensures r.Ok? ==> v.List? || v.Text?
    ensures v.Dict? ==> r == Err(KeyError)
    ensures v.Null? || v.Bool? || v.Int? || v.Float? ==> r == Err(TypeError)
    ensures v.Text? ==> (r.Ok? <==> -|v.s| <= i < |v.s|)
    ensures v.Text? && r.Ok? ==> r.value == Text([v.s[if i >= 0 then i else |v.s| + i]])
    ensures v.Text? && r.Err? ==> r.error == IndexError
  {
    match v
    case List(items) => ListIndex(items, i)
    case Text(s) =>
      (match ListIndex(s, i)
       case Ok(c) => Ok(Text([c]))
       case Err(e) => Err(e))
    case Dict(_) => Err(KeyError)
    case _ => Err(TypeError)
  }

  /** Python's truncation of a float toward zero. */
  function Truncate(r: real): (n: int)
    ensures r >= 0.0 ==> n as real <= r < n as real + 1.0
    ensures r < 0.0 ==> n as real - 1.0 < r <= n as real
  {
    if r >= 0.0 then r.Floor else -((-r).Floor)
  }

  /** `int(v)`. */
  function IntOf(v: Json): (r: Result<int, Exc>)
    ensures v.Int? ==> r == Ok(v.i)
    ensures v.Null? || v.List? || v.Dict? ==> r == Err(TypeError)
    ensures v.Bool? ==> r == Ok(if v.b then 1 else 0)
    ensures v.Float? ==> r == Ok(Truncate(v.r))
    ensures v.Text? ==> (r.Ok? <==> ParseInt(v.s).Some?)
    ensures v.Text? && r.Ok? ==> r.value == ParseInt(v.s).value
    ensures v.Text? && r.Err? ==> r.error == ValueError
    ensures r.Err? ==> r.error == ValueError || r.error == TypeError
  {
    match v
    case Null => Err(TypeError)
    case Bool(b) => Ok(if b then 1 else 0)
    case Int(i) => Ok(i)
    case Float(x) => Ok(Truncate(x))
    case Text(s) =>
      (match ParseInt(s)
       case Some(n) => Ok(n)
       case None => Err(ValueError))
    case List(_) => Err(TypeError)
    case Dict(_) => Err(TypeError)
  }

  /** A number sent as its decimal text coerces to the same number. */
  lemma IntOfText(n: int)
    ensures IntOf(Text(Str(n))) == Ok(n)
  {
    ParseIntOfStr(n);
  }

  /** Every way the API could send the integer n converts back to n: as a
      JSON int, as its decimal text, or as a float with no fraction. */
  lemma IntOfEncodings(n: int)
    ensures IntOf(Int(n)) == Ok(n)
    ensures IntOf(Text(Str(n))) == Ok(n)
    ensures IntOf(Float(n as real)) == Ok(n)
  {
    IntOfText(n);
    if n < 0 {
      assert (-(n as real)).Floor == -n;
    }
  }
}
