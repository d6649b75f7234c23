/**
 * Typed reads of decoded JSON. Where the library reads a value of the
 * wrong JSON type (`.get` on a non-object, iteration over a non-array, a
 * non-string where a model field is `str`), Python raises; that exception
 * is the `MalformedBody` error here.
 */
module Fields {
  import opened Wrappers
  import opened Json
  import opened Exceptions

  /** The exception raised on a value of the wrong JSON type. */
  function Malformed(what: string): (e: Error)
    ensures e.kind == MalformedBody
  {
    Raise(MalformedBody, what)
  }

  /** A `str` field. */
  function AsStr(j: Json): (r: Result<string, Error>)
    ensures r.Success? <==> j.JStr?
    ensures r.Success? ==> r.value == j.s
    ensures r.Failure? ==> r.error.kind == MalformedBody
  {
    if j.JStr? then Success(j.s) else Failure(Malformed("expected a string"))
  }

  /** An `Optional[str]` field. */
  function AsOptStr(j: Json): (r: Result<Option<string>, Error>)
    ensures r.Success? <==> j.JNull? || j.JStr?
    ensures r.Success? ==> r.value == if j.JStr? then Some(j.s) else None
    ensures r.Success? ==> OptStr(r.value) == j
    ensures r.Failure? ==> r.error.kind == MalformedBody
  {
    match j
    case JNull => Success(None)
    case JStr(s) => Success(Some(s))
    case _ => Failure(Malformed("expected a string or null"))
  }

  /** A `Dict[str, str]` field. */
  function AsStrMap(m: map<string, Json>): (r: Result<map<string, string>, Error>)
    ensures r.Success? <==> forall k :: k in m ==> m[k].JStr?
    ensures r.Success? ==> StrMap(r.value) == m
    ensures r.Failure? ==> r.error.kind == MalformedBody
  {
    if forall k :: k in m ==> m[k].JStr? then
      var labels := map k | k in m :: m[k].s;
      assert StrMap(labels) == m;
      Success(labels)
    else
      Failure(Malformed("expected an object of strings"))
  }

  /** A value the library calls `.get` on. */
  function AsObject(j: Json): (r: Result<map<string, Json>, Error>)
    ensures r.Success? <==> j.JObj?
    ensures r.Success? ==> r.value == j.fields
    ensures r.Failure? ==> r.error.kind == MalformedBody
  {
    if j.JObj? then Success(j.fields) else Failure(Malformed("expected an object"))
  }

  /** A value the library iterates over. */
  function AsArray(j: Json): (r: Result<seq<Json>, Error>)
    ensures r.Success? <==> j.JArr?
    ensures r.Success? ==> r.value == j.items
    ensures r.Failure? ==> r.error.kind == MalformedBody
  {
    if j.JArr? then Success(j.items) else Failure(Malformed("expected an array"))
  }

  /** An `int` field (a JSON boolean is not taken for an integer). */
  function AsInt(j: Json): (r: Result<int, Error>)
    ensures r.Success? <==> j.JInt?
    ensures r.Success? ==> r.value == j.i
    ensures r.Failure? ==> r.error.kind == MalformedBody
  {
    if j.JInt? then Success(j.i) else Failure(Malformed("expected an integer"))
  }

  /** An `Optional[int]` field. */
  function AsOptInt(j: Json): (r: Result<Option<int>, Error>)
    ensures r.Success? <==> j.JNull? || j.JInt?
    ensures r.Success? ==> OptInt(r.value) == j
    ensures r.Failure? ==> r.error.kind == MalformedBody
  {
    match j
    case JNull => Success(None)
    case JInt(i) => Success(Some(i))
    case _ => Failure(Malformed("expected an integer or null"))
  }

  /** A `bool` field. */
  function AsBool(j: Json): (r: Result<bool, Error>)
    ensures r.Success? <==> j.JBool?
    ensures r.Success? ==> r.value == j.b
    ensures r.Failure? ==> r.error.kind == MalformedBody
  {
    if j.JBool? then Success(j.b) else Failure(Malformed("expected a boolean"))
  }

  /** A value `for x in j` accepts when every `x` must be an object: an array, or an empty object or string. */
  predicate IterableOfObjects(j: Json) {
    j.JArr? || j == JObj(map[]) || j == JStr("")
  }

  /**
   * `for x in j`, where each `x` is then read as an object (`x.get(...)`
   * or `Model(**x)`): an array gives its items and an empty object or
   * string gives none. A non-empty object or string yields strings (its
   * keys or its characters), and the first of them fails; any other value
   * is not iterable.
   */
  function Iterated(j: Json): (r: Result<seq<Json>, Error>)
    ensures r.Success? <==> IterableOfObjects(j)
    ensures r.Success? ==> r.value == if j.JArr? then j.items else []
    ensures r.Failure? ==> r.error.kind == MalformedBody
  {
    match j
    case JArr(items) => Success(items)
    case JObj(m) => if m == map[] then Success([]) else Failure(Malformed("a key is not an object"))
    case JStr(s) => if s == "" then Success([]) else Failure(Malformed("a character is not an object"))
    case _ => Failure(Malformed("object is not iterable"))
  }
}
