/**
 * Decoded JSON values as the Python code sees them (the output of `json.loads`),
 * together with the handful of Python operations the scraper applies to them:
 * truthiness, `dict.get(key, default)`, iteration in a `for` or a comprehension,
 * and slicing with `[:n]`.  An operation Python would refuse raises an exception;
 * here it yields a `Fault` that carries what `str(e)` of that exception reads.
 */
module PyValue {

  datatype Option<+T> = None | Some(value: T)

  /** A computation that either produced a value or raised an exception. */
  datatype Result<+T> = Ok(value: T) | Err(fault: Fault) {
    predicate IsFailure() { Err? }

    function PropagateFailure<U>(): Result<U>
      requires Err?
    {
      Err(fault)
    }

    function Extract(): T
      requires Ok?
    {
      value
    }
  }

  /** The exceptions the modelled code can raise, as the Python runtime reports them. */
  datatype Fault =
    | NoAttribute(owner: string, attr: string)   // AttributeError: calling .get on a non-dict
    | NotIterable(owner: string)                 // TypeError: iterating a None, bool or int
    | NotSubscriptable(owner: string)            // TypeError: slicing a None, bool or int
    | UnhashableSlice                            // TypeError: slicing a dict
    | FormatRejected(owner: string)              // TypeError: format(x, ",") for None, list, dict
    | CommaWithStr                               // ValueError: format(s, ",") for a str
    | InvalidUrl(owner: string)                  // TypeError: the HTTP client given a non-str URL
    | Unorderable                                // TypeError: `<` between keys of unrelated types
    | DecodeFailed(reason: string)               // json.JSONDecodeError
    | Raised(reason: string)                     // any other exception from I/O or decoding

  /** The text `str(e)` gives for the exception. */
  function Message(f: Fault): string
  {
    match f
    case NoAttribute(t, a) => "'" + t + "' object has no attribute '" + a + "'"
    case NotIterable(t) => "'" + t + "' object is not iterable"
    case NotSubscriptable(t) => "'" + t + "' object is not subscriptable"
    case UnhashableSlice => "unhashable type: 'slice'"
    case FormatRejected(t) => "unsupported format string passed to " + t + ".__format__"
    case CommaWithStr => "Cannot specify ',' with 's'."
    case InvalidUrl(t) => "Invalid type for url.  Expected str or httpx.URL, got <class '" + t + "'>"
    case Unorderable => "'<' not supported between instances of these types"
    case DecodeFailed(r) => r
    case Raised(r) => r
  }

  /**
   * A decoded JSON document.  An object keeps its members in document order,
   * duplicates included; `Lookup` applies the rule of `json.loads` that the
   * last duplicate wins.  Floating-point numbers are not part of the model.
   */
  datatype Json =
    | Null
    | Bool(b: bool)
    | Int(i: int)
    | Str(s: string)
    | Arr(items: seq<Json>)
    | Obj(fields: seq<(string, Json)>)

  const NA: Json := Str("N/A")
  const EmptyObj: Json := Obj([])
  const EmptyArr: Json := Arr([])

  /** The name of the Python type a value decodes to. */
  function TypeName(v: Json): string
  {
    match v
    case Null => "NoneType"
    case Bool(_) => "bool"
    case Int(_) => "int"
    case Str(_) => "str"
    case Arr(_) => "list"
    case Obj(_) => "dict"
  }

  /** Python truthiness: `None`, `False`, `0` and empty containers are false. */
  predicate Truthy(v: Json)
  {
    match v
    case Null => false
    case Bool(b) => b
    case Int(i) => i != 0
    case Str(s) => s != ""
    case Arr(items) => items != []
    case Obj(fields) => fields != []
  }

  /** The falsy values are exactly `None`, `False`, `0`, `""`, `[]` and `{}`. */
  lemma FalsyValues(v: Json)
    ensures !Truthy(v) <==> v in {Null, Bool(false), Int(0), Str(""), Arr([]), Obj([])}
  {
  }

  /** What `str(e)` reads for the two exceptions whose text names no type. */
  lemma FixedMessages()
    ensures Message(UnhashableSlice) == "unhashable type: 'slice'"
    ensures Message(CommaWithStr) == "Cannot specify ',' with 's'."
  {
  }

  function Min(a: int, b: int): int { if a <= b then a else b }

  /** True when the object's member list mentions `key`. */
  predicate HasKey(fields: seq<(string, Json)>, key: string)
  {
    exists i :: 0 <= i < |fields| && fields[i].0 == key
  }

  /** The value a decoded dict holds for `key`: that of the key's last occurrence. */
  function Lookup(fields: seq<(string, Json)>, key: string): (r: Option<Json>)
    ensures r.None? <==> !HasKey(fields, key)
    ensures r.Some? ==>
      exists i :: 0 <= i < |fields| && fields[i] == (key, r.value) &&
        forall j :: i < j < |fields| ==> fields[j].0 != key
  {
    if fields == [] then None
    else if fields[|fields| - 1].0 == key then Some(fields[|fields| - 1].1)
    else
      var r := Lookup(fields[..|fields| - 1], key);
      assert forall i :: 0 <= i < |fields| - 1 ==> fields[..|fields| - 1][i] == fields[i];
      r
  }

  /** `v.get(key, default)`: only a dict has `.get`. */
  function Get(v: Json, key: string, default: Json): (r: Result<Json>)
    ensures !v.Obj? ==> r == Err(NoAttribute(TypeName(v), "get"))
    ensures v.Obj? && !HasKey(v.fields, key) ==> r == Ok(default)
    ensures v.Obj? && HasKey(v.fields, key) ==> r == Ok(Lookup(v.fields, key).value)
  {
    match v
    case Obj(fields) =>
      (match Lookup(fields, key)
       case Some(x) => Ok(x)
       case None => Ok(default))
    case _ => Err(NoAttribute(TypeName(v), "get"))
  }

  /** What `obj.get(key, default)` yields on a dict: the value if the key is present, the default otherwise. */
  function Field(obj: Json, key: string, default: Json): Json
    requires obj.Obj?
  {
    if HasKey(obj.fields, key) then Lookup(obj.fields, key).value else default
  }

  /** The position of the first occurrence of `key` among the members. */
  function FirstAt(fields: seq<(string, Json)>, key: string): (p: nat)
    requires HasKey(fields, key)
    ensures p < |fields| && fields[p].0 == key
    ensures forall q :: 0 <= q < p ==> fields[q].0 != key
  {
    if fields[0].0 == key then 0
    else
      assert HasKey(fields[1..], key) by {
        var i :| 0 <= i < |fields| && fields[i].0 == key;
        assert fields[1..][i - 1] == fields[i];
      }
      1 + FirstAt(fields[1..], key)
  }

  /** A key is among the members when it is the first one's or among the rest. */
  lemma HasKeyCons(fields: seq<(string, Json)>)
    requires fields != []
    ensures forall k :: HasKey(fields, k) <==> k == fields[0].0 || HasKey(fields[1..], k)
  {
    forall k | HasKey(fields, k) && k != fields[0].0 ensures HasKey(fields[1..], k) {
      var i :| 0 <= i < |fields| && fields[i].0 == k;
      assert fields[1..][i - 1] == fields[i];
    }
    forall k | HasKey(fields[1..], k) ensures HasKey(fields, k) {
      var i :| 0 <= i < |fields| - 1 && fields[1..][i].0 == k;
      assert fields[i + 1] == fields[1..][i];
    }
  }

  /** A key other than the first one's first occurs one place later than among the rest. */
  lemma FirstAtCons(fields: seq<(string, Json)>, ks: seq<string>)
    requires fields != [] && forall x :: x in ks ==> x != fields[0].0 && HasKey(fields[1..], x)
    ensures forall x :: x in ks ==> HasKey(fields, x) && FirstAt(fields, x) == 1 + FirstAt(fields[1..], x)
  {
    HasKeyCons(fields);
  }

  /**
   * The keys of a dict in iteration order: each distinct key once, where it
   * first occurs (a later duplicate only replaces the value).  `seen` holds
   * the keys already produced.
   */
  function KeysAfter(fields: seq<(string, Json)>, seen: set<string>): (ks: seq<string>)
    ensures forall k :: k in ks <==> k !in seen && HasKey(fields, k)
    ensures forall i, j :: 0 <= i < j < |ks| ==> ks[i] != ks[j]
    ensures forall i :: 0 <= i < |ks| ==> ks[i] !in seen
    ensures fields != [] && fields[0].0 !in seen ==> ks != [] && ks[0] == fields[0].0
    ensures forall i, j :: 0 <= i < j < |ks| ==> FirstAt(fields, ks[i]) < FirstAt(fields, ks[j])
  {
    if fields == [] then []
    else
      var k := fields[0].0;
      var rest := KeysAfter(fields[1..], if k in seen then seen else seen + {k});
      HasKeyCons(fields);
      FirstAtCons(fields, rest);
      if k in seen then rest else [k] + rest
  }

  /** The elements a `for` loop over `v` visits. */
  function Iterate(v: Json): (r: Result<seq<Json>>)
    ensures r.Ok? <==> v.Arr? || v.Str? || v.Obj?
    ensures r.Err? ==> r.fault == NotIterable(TypeName(v))
    ensures r.Ok? ==> (r.value == [] <==> !Truthy(v))
    ensures v.Arr? ==> r == Ok(v.items)
    ensures v.Str? ==> |r.value| == |v.s| && forall i :: 0 <= i < |v.s| ==> r.value[i] == Str([v.s[i]])
    ensures v.Obj? ==>
      var ks := KeysAfter(v.fields, {});
      |r.value| == |ks| && forall i :: 0 <= i < |ks| ==> r.value[i] == Str(ks[i])
  {
    match v
    case Arr(items) => Ok(items)
    case Str(s) => Ok(seq(|s|, i requires 0 <= i < |s| => Str([s[i]])))
    case Obj(fields) =>
      var ks := KeysAfter(fields, {});
      Ok(seq(|ks|, i requires 0 <= i < |ks| => Str(ks[i])))
    case _ => Err(NotIterable(TypeName(v)))
  }

  /** `v[:n]` for a non-negative `n`. */
  function SliceTo(v: Json, n: nat): (r: Result<Json>)
    ensures r.Ok? <==> v.Arr? || v.Str?
    ensures v.Arr? ==> r == Ok(Arr(v.items[..Min(n, |v.items|)]))
    ensures v.Str? ==> r == Ok(Str(v.s[..Min(n, |v.s|)]))
    ensures v.Obj? ==> r == Err(UnhashableSlice)
    ensures v.Null? || v.Bool? || v.Int? ==> r == Err(NotSubscriptable(TypeName(v)))
  {
    match v
    case Arr(items) => Ok(Arr(items[..Min(n, |items|)]))
    case Str(s) => Ok(Str(s[..Min(n, |s|)]))
    case Obj(_) => Err(UnhashableSlice)
    case _ => Err(NotSubscriptable(TypeName(v)))
  }
}
