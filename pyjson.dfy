/** Python values as the enrichment code sees them: the JSON-shaped records
    that the backends deliver, the exceptions that Python's dict, list and
    string operations raise on them, and the few string operations the
    connectors use (`in`, `split`, truthiness). */
module PyJson {

  /** A JSON value as decoded by Python's `json` module (numbers are integers here). */
  datatype Json =
    | Null
    | Bool(b: bool)
    | Int(i: int)
    | Str(s: string)
    | List(items: seq<Json>)
    | Object(fields: map<string, Json>)

  /** A Python dict with string keys: raw items, identities, enriched items. */
  type Dict = map<string, Json>

  /** The Python exceptions the modelled code can raise. */
  datatype PyError =
    | KeyError
    | IndexError
    | TypeError
    | AttributeError
    | UnicodeEncodeError
    | NameError

  datatype Option<+T> = None | Some(value: T)

  /** A computation that either returns a value or raises a Python exception. */
  datatype Result<+T> = Ok(value: T) | Err(error: PyError) {
    predicate IsFailure() { Err? }
    /** Only called on a failure; total so that a failure branch that cannot
        be taken needs no proof. */
    function PropagateFailure<U>(): (r: Result<U>)
      ensures r.Err? && (Err? ==> r.error == error)
    {
      match this
      case Err(e) => Err(e)
      case Ok(_) => Err(TypeError)
    }
    function Extract(): T
      requires Ok?
    { value }
  }

  /** The list `acc` followed by what `r` yields, or the exception `r` raised:
      a loop that appends to `acc` and then runs into `r`. */
  function Then<T>(acc: seq<T>, r: Result<seq<T>>): (t: Result<seq<T>>)
    ensures t.Ok? <==> r.Ok?
    ensures t.Ok? ==> t.value == acc + r.value
    ensures t.Err? ==> t.error == r.error
  {
    if r.Ok? then Ok(acc + r.value) else Err(r.error)
  }

  /** `d[k]` on a dict. */
  function Field(d: Dict, k: string): (r: Result<Json>)
    ensures r.Ok? <==> k in d
    ensures r.Ok? ==> r.value == d[k]
    ensures r.Err? ==> r.error == KeyError
  {
    if k in d then Ok(d[k]) else Err(KeyError)
  }

  /** `v[k]` with a string key. */
  function Get(v: Json, k: string): (r: Result<Json>)
    ensures r.Ok? <==> v.Object? && k in v.fields
    ensures r.Ok? ==> r.value == v.fields[k]
  {
    match v
    case Object(m) => if k in m then Ok(m[k]) else Err(KeyError)
    case _ => Err(TypeError)
  }

  /** `v[i]` with an integer index: a list element or a one-character string. */
  function At(v: Json, i: nat): (r: Result<Json>)
    ensures v.List? && i < |v.items| ==> r == Ok(v.items[i])
    ensures v.List? && i >= |v.items| ==> r == Err(IndexError)
    ensures r.Ok? ==> v.List? || v.Str?
  {
    match v
    case List(xs) => if i < |xs| then Ok(xs[i]) else Err(IndexError)
    case Str(s) => if i < |s| then Ok(Str([s[i]])) else Err(IndexError)
    case Object(_) => Err(KeyError)
    case _ => Err(TypeError)
  }

  /** Python's `k in s` on strings: substring search. */
  predicate IsSubstring(k: string, s: string)
    decreases |s|
  {
    k <= s || (|s| > 0 && IsSubstring(k, s[1..]))
  }

  lemma {:induction false} CharSubstring(c: char, s: string)
    ensures IsSubstring([c], s) <==> c in s
    decreases |s|
  {
    if |s| > 0 {
      CharSubstring(c, s[1..]);
      assert s == [s[0]] + s[1..];
      assert [c] <= s <==> c == s[0];
    }
  }

  /** `k in v`: substring for strings, membership for lists, key test for dicts. */
  function Contains(v: Json, k: string): (r: Result<bool>)
    ensures v.Object? ==> r == Ok(k in v.fields)
    ensures v.Str? ==> r == Ok(IsSubstring(k, v.s))
    ensures v.List? ==> r == Ok(Str(k) in v.items)
    ensures r.Err? <==> !(v.Object? || v.Str? || v.List?)
  {
    match v
    case Object(m) => Ok(k in m)
    case Str(s) => Ok(IsSubstring(k, s))
    case List(xs) => Ok(Str(k) in xs)
    case _ => Err(TypeError)
  }

  /** `len(v)`. */
  function Len(v: Json): (r: Result<nat>)
    ensures v.List? ==> r == Ok(|v.items|)
    ensures r.Err? <==> !(v.Object? || v.Str? || v.List?)
  {
    match v
    case List(xs) => Ok(|xs|)
    case Str(s) => Ok(|s|)
    case Object(m) => Ok(|m|)
    case _ => Err(TypeError)
  }

  /** The elements a `for x in v` loop visits. */
  function Iter(v: Json): (r: Result<seq<Json>>)
    ensures v.List? ==> r == Ok(v.items)
    ensures r.Ok? ==> v.List? || v.Str? || v == Object(map[])
  {
    match v
    case List(xs) => Ok(xs)
    case Str(s) => Ok(seq(|s|, i requires 0 <= i < |s| => Str([s[i]])))
    case Object(m) => if m == map[] then Ok([]) else Err(TypeError)
    case _ => Err(TypeError)
  }

  /** The string operand of a `+` concatenation. */
  function AsStr(v: Json): (r: Result<string>)
    ensures r.Ok? <==> v.Str?
    ensures r.Ok? ==> r.value == v.s
  {
    if v.Str? then Ok(v.s) else Err(TypeError)
  }

  /** Python truthiness (`if v:`). */
  predicate Truthy(v: Json) {
    match v
    case Null => false
    case Bool(b) => b
    case Int(i) => i != 0
    case Str(s) => s != ""
    case List(xs) => xs != []
    case Object(m) => m != map[]
  }

  /** `s.split(sep)` for a one-character separator. */
  function Split(s: string, sep: char): (parts: seq<string>)
    ensures |parts| >= 1
    ensures |parts| == 1 <==> sep !in s
    ensures parts[0] == TakeUntil(s, sep)
    decreases |s|
  {
    if s == [] then [""]
    else if s[0] == sep then [""] + Split(s[1..], sep)
    else
      var rest := Split(s[1..], sep);
      [[s[0]] + rest[0]] + rest[1..]
  }

  /** The text of `s` before the first `sep` (all of `s` when there is none). */
  function TakeUntil(s: string, sep: char): (r: string)
    ensures r <= s && sep !in r
    ensures |r| < |s| ==> s[|r|] == sep
    decreases |s|
  {
    if s == [] || s[0] == sep then "" else [s[0]] + TakeUntil(s[1..], sep)
  }

  /** The text of `s` after its first `sep`. */
  function DropThrough(s: string, sep: char): string
    decreases |s|
  {
    if s == [] then "" else if s[0] == sep then s[1..] else DropThrough(s[1..], sep)
  }

  /** The second field of `split` is the text between the first and the
      second separator (or the end of the string). */
  lemma {:induction false} SplitSecond(s: string, sep: char)
    requires sep in s
    ensures |Split(s, sep)| >= 2
    ensures Split(s, sep)[1] == TakeUntil(DropThrough(s, sep), sep)
    decreases |s|
  {
    if s[0] != sep {
      SplitSecond(s[1..], sep);
    }
  }

  /** `v.split(sep)`: only strings have a `split` method. */
  function SplitJson(v: Json, sep: char): (r: Result<seq<string>>)
    ensures r.Ok? <==> v.Str?
    ensures r.Ok? ==> r.value == Split(v.s, sep)
  {
    if v.Str? then Ok(Split(v.s, sep)) else Err(AttributeError)
  }

  /** The library routines the connectors call but that are not modelled:
      `json.dumps` and the `%s` conversion used in bulk directive lines. */
  datatype Codec = Codec(dumps: Dict -> string, str: Json -> string)
}
