/** The Python values the core handles: JSON-shaped data (tool arguments,
    gateway bodies, record contents), insertion-ordered dictionaries,
    truthiness, `str()` rendering as f-strings apply it, and the exceptions
    the handlers raise, catch or let escape. */
module PyValues {
  import opened Wrappers
  import opened TextLines

  /** A Python value built from JSON: None, bool, int, float, str, list, dict.
      A float is carried as Python's `str()` of it (floating point itself is
      not modelled). A dict keeps its keys in insertion order, as CPython's
      does. */
  datatype Json =
    | JNull
    | JBool(b: bool)
    | JInt(i: int)
    | JFloat(text: string)
    | JStr(s: string)
    | JList(items: seq<Json>)
    | JObj(fields: Dict)

  /** A dict as its (key, value) pairs in insertion order. */
  type Dict = seq<(string, Json)>

  /** `list(d.keys())`. */
  function Keys(d: Dict): (ks: seq<string>)
    ensures |ks| == |d|
    ensures forall i :: 0 <= i < |d| ==> ks[i] == d[i].0
  {
    seq(|d|, i requires 0 <= i < |d| => d[i].0)
  }

  /** No key occurs twice, as in every Python dict. */
  predicate UniqueKeys(d: Dict)
  {
    forall i, j :: 0 <= i < j < |d| ==> d[i].0 != d[j].0
  }

  /** No string occurs twice in ks. */
  predicate Distinct(ks: seq<string>)
  {
    forall i, j :: 0 <= i < j < |ks| ==> ks[i] != ks[j]
  }

  /** A dict whose key list has no repeats has distinct keys. */
  lemma UniqueKeysOfKeys(d: Dict)
    requires Distinct(Keys(d))
    ensures UniqueKeys(d)
  {
    forall i, j | 0 <= i < j < |d|
      ensures d[i].0 != d[j].0
    {
      assert Keys(d)[i] == d[i].0 && Keys(d)[j] == d[j].0;
    }
  }

  /** `k in d`. */
  predicate Has(d: Dict, k: string) { k in Keys(d) }

  /** The position of k among d's keys, or |d| when k is absent. */
  function IndexOf(d: Dict, k: string): (i: nat)
    ensures i <= |d|
    ensures forall j :: 0 <= j < i ==> d[j].0 != k
    ensures i < |d| ==> d[i].0 == k
  {
    if |d| == 0 || d[0].0 == k then 0 else 1 + IndexOf(d[1..], k)
  }

  /** IndexOf is the only position that is k's first occurrence. */
  lemma IndexOfIs(d: Dict, k: string, i: nat)
    requires i <= |d|
    requires forall j :: 0 <= j < i ==> d[j].0 != k
    requires i < |d| ==> d[i].0 == k
    ensures IndexOf(d, k) == i
  {
  }

  /** `d.get(k)` as an option: the value stored under k, if any. */
  function Get(d: Dict, k: string): (r: Option<Json>)
  {
    var i := IndexOf(d, k);
    if i < |d| then Some(d[i].1) else None
  }

  /** `d.get(k, default)` on a dict. */
  function GetOr(d: Dict, k: string, default: Json): Json
  {
    match Get(d, k)
    case Some(v) => v
    case None => default
  }

  /** `d.get(k, default)` is the stored value when k is present and the
      default otherwise. */
  lemma GetOrSpec(d: Dict, k: string, default: Json)
    ensures Has(d, k) ==> Get(d, k).Some? && GetOr(d, k, default) == Get(d, k).value
    ensures !Has(d, k) ==> GetOr(d, k, default) == default
  {
    var i := IndexOf(d, k);
    if i < |d| {
      assert Keys(d)[i] == k;
    }
  }

  lemma KeysConcat(a: Dict, b: Dict)
    ensures Keys(a + b) == Keys(a) + Keys(b)
  {
  }

  /** Looking a key up in a + b finds it in a first. */
  lemma GetConcat(a: Dict, b: Dict, k: string)
    ensures Get(a + b, k) == if Has(a, k) then Get(a, k) else Get(b, k)
  {
    var i := IndexOf(a, k);
    if i < |a| {
      IndexOfIs(a + b, k, i);
    } else {
      IndexOfIs(a + b, k, |a| + IndexOf(b, k));
    }
  }

  /** `bool(j)`. */
  predicate Truthy(j: Json)
  {
    match j
    case JNull => false
    case JBool(b) => b
    case JInt(i) => i != 0
    case JFloat(t) => t != "0.0" && t != "-0.0"
    case JStr(s) => s != ""
    case JList(xs) => xs != []
    case JObj(fs) => fs != []
  }

  /** `j == 0` in Python (False, 0 and 0.0 all compare equal to 0). */
  predicate EqualsZero(j: Json)
  {
    match j
    case JBool(b) => !b
    case JInt(i) => i == 0
    case JFloat(t) => t == "0.0" || t == "-0.0"
    case _ => false
  }

  /** `type(j).__name__`. */
  function TypeName(j: Json): string
  {
    match j
    case JNull => "NoneType"
    case JBool(_) => "bool"
    case JInt(_) => "int"
    case JFloat(_) => "float"
    case JStr(_) => "str"
    case JList(_) => "list"
    case JObj(_) => "dict"
  }

  function DigitChar(d: int): char
    requires 0 <= d < 10
  {
    "0123456789"[d]
  }

  /** The decimal digits of n, without sign. */
  function NatToString(n: nat): (s: string)
    ensures |s| >= 1
    ensures forall i :: 0 <= i < |s| ==> '0' <= s[i] <= '9'
  {
    if n < 10 then [DigitChar(n)] else NatToString(n / 10) + [DigitChar(n % 10)]
  }

  /** `str(i)` for an int. */
  function IntToString(i: int): string
  {
    if i < 0 then "-" + NatToString(-i) else NatToString(i)
  }

  /** `repr(s)` for a str that needs no escaping. */
  function Quote(s: string): string { "'" + s + "'" }

  /** `str(j)`, which is what an f-string `{j}` inserts. Containers print
      their elements with repr(). */
  function Show(j: Json): string
    decreases j, 1
  {
    match j
    case JNull => "None"
    case JBool(b) => if b then "True" else "False"
    case JInt(i) => IntToString(i)
    case JFloat(t) => t
    case JStr(s) => s
    case JList(xs) => "[" + ReprItems(xs) + "]"
    case JObj(fs) => "{" + ReprFields(fs) + "}"
  }

  /** `repr(j)`: quoted for a str, as str() otherwise. */
  function Repr(j: Json): string
    decreases j, 2
  {
    if j.JStr? then Quote(j.s) else Show(j)
  }

  /** The reprs of a list's items, separated by ", ". */
  function ReprItems(xs: seq<Json>): string
    decreases xs, 0
  {
    if |xs| == 0 then ""
    else if |xs| == 1 then Repr(xs[0])
    else Repr(xs[0]) + ", " + ReprItems(xs[1..])
  }

  /** A dict's entries as `'key': repr(value)`, separated by ", ". */
  function ReprFields(fs: Dict): string
    decreases fs, 0
  {
    if |fs| == 0 then ""
    else
      var (key, value) := fs[0];
      assert value < fs[0];
      var entry := Quote(key) + ": " + Repr(value);
      if |fs| == 1 then entry else entry + ", " + ReprFields(fs[1..])
  }

  /** The exceptions the modelled code raises or catches. `RequestError` is
      every requests.RequestException other than a JSON decoding failure
      (HTTPError from raise_for_status, ConnectionError, Timeout);
      `JsonDecodeError` is requests' JSONDecodeError, which is both a
      RequestException and a ValueError. */
  datatype Exc =
    | RequestError(msg: string)
    | JsonDecodeError(msg: string)
    | ValueError(msg: string)
    | KeyError(key: string)
    | TypeError(msg: string)
    | AttributeError(msg: string)

  /** `isinstance(e, RequestException)`. */
  predicate IsRequestException(e: Exc) { e.RequestError? || e.JsonDecodeError? }

  /** `isinstance(e, ValueError)`. */
  predicate IsValueError(e: Exc) { e.ValueError? || e.JsonDecodeError? }

  /** `str(e)`; a KeyError prints the repr of its key. */
  function ExcStr(e: Exc): string
  {
    match e
    case RequestError(m) => m
    case JsonDecodeError(m) => m
    case ValueError(m) => m
    case KeyError(k) => Quote(k)
    case TypeError(m) => m
    case AttributeError(m) => m
  }

  /** A computation that returns a value or raises. */
  datatype Outcome<+T> = Ok(value: T) | Raised(exc: Exc)

  /** `j[k]` with a str key. */
  function Subscript(j: Json, k: string): (r: Outcome<Json>)
    ensures j.JObj? && Has(j.fields, k) ==> r == Ok(Get(j.fields, k).value)
    ensures j.JObj? && !Has(j.fields, k) ==> r == Raised(KeyError(k))
    ensures !j.JObj? ==> r.Raised? && r.exc.TypeError?
  {
    match j
    case JObj(fs) => if Has(fs, k) then Ok(Get(fs, k).value) else Raised(KeyError(k))
    case JList(_) => Raised(TypeError("list indices must be integers or slices, not str"))
    case JStr(_) => Raised(TypeError("string indices must be integers, not 'str'"))
    case _ => Raised(TypeError(Quote(TypeName(j)) + " object is not subscriptable"))
  }

  /** The AttributeError of looking up a method, such as `get` or
      `encode`, on a value whose type does not have it. */
  function NoAttribute(j: Json, attr: string): Exc
  {
    AttributeError(Quote(TypeName(j)) + " object has no attribute " + Quote(attr))
  }

  /** What `for x in j` iterates over: a list's items, a dict's keys, a str's
      characters; anything else is not iterable. */
  function Iterate(j: Json): Outcome<seq<Json>>
  {
    match j
    case JList(xs) => Ok(xs)
    case JObj(fs) => Ok(KeyStrs(fs))
    case JStr(s) => Ok(CharStrs(s))
    case _ => Raised(TypeError(Quote(TypeName(j)) + " object is not iterable"))
  }

  /** A dict's keys, each as a str value. */
  function KeyStrs(fs: Dict): (r: seq<Json>)
    ensures |r| == |fs|
    ensures forall i :: 0 <= i < |fs| ==> r[i] == JStr(fs[i].0)
  {
    if |fs| == 0 then [] else [JStr(fs[0].0)] + KeyStrs(fs[1..])
  }

  /** A str's characters, each as a one-character str value. */
  function CharStrs(s: string): (r: seq<Json>)
    ensures |r| == |s|
    ensures forall i :: 0 <= i < |s| ==> r[i] == JStr([s[i]])
  {
    if |s| == 0 then [] else [JStr([s[0]])] + CharStrs(s[1..])
  }
}
