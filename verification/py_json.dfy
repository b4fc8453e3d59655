/** Decoded JSON values as the integration's Python code sees them, the exceptions
    that code raises or lets through, and the handful of Python operations it
    applies to decoded values: truthiness, `==`, `d.get(k, default)`, `k in v`,
    `v[k]`, `for x in v`, hashing into an int-keyed table, `str.lower()` and
    f-string interpolation. */
module PyJson {

  datatype Json =
    | JNull
    | JBool(b: bool)
    | JInt(i: int)
    | JFloat(r: real)
    | JStr(s: string)
    | JArr(elems: seq<Json>)
    | JObj(fields: map<string, Json>)

  datatype Option<+T> = None | Some(value: T)

  /** The exceptions of the core, named after the Python classes they stand for. */
  datatype Exc =
    | ClientResponseError(status: int) // aiohttp, raised by raise_for_status() for a status >= 400
    | ClientConnectionError            // aiohttp, every other ClientError (refused, reset, DNS, ...)
    | Timeout                          // TimeoutError from asyncio.timeout
    | JsonDecodeError                  // the body is not JSON (a ValueError, not a ClientError)
    | KlereoApiError                   // the login answer carries no token
    | TypeError
    | AttributeError
    | KeyError

  /** `isinstance(e, aiohttp.ClientError)`: ClientResponseError is a ClientError too. */
  predicate IsClientError(e: Exc) {
    e.ClientResponseError? || e.ClientConnectionError?
  }

  /** A value, or the exception that was raised instead of producing it. */
  datatype Result<+T> = Ok(value: T) | Raise(exc: Exc) {
    predicate IsFailure() { Raise? }
    function PropagateFailure<U>(): Result<U>
      requires Raise?
    {
      Raise(exc)
    }
    function Extract(): T
      requires Ok?
    {
      value
    }
  }

  /** A call that returns None, or the exception it raised. */
  datatype Outcome = Done | Fail(exc: Exc)

  /** `bool(v)`: None, False, 0, 0.0 and empty strings, lists and dicts are false. */
  predicate Truthy(v: Json) {
    match v
    case JNull => false
    case JBool(b) => b
    case JInt(i) => i != 0
    case JFloat(r) => r != 0.0
    case JStr(s) => |s| > 0
    case JArr(xs) => |xs| > 0
    case JObj(m) => |m| > 0
  }

  /** The number a bool, int or float stands for when Python compares or hashes it. */
  function NumValue(v: Json): Option<real> {
    match v
    case JBool(b) => Some(if b then 1.0 else 0.0)
    case JInt(i) => Some(i as real)
    case JFloat(r) => Some(r)
    case _ => None
  }

  /** Python's `a == b` on decoded JSON: True == 1 == 1.0, and lists and dicts compare
      element by element. */
  predicate PyEq(a: Json, b: Json)
    decreases a
  {
    match a
    case JNull => b.JNull?
    case JStr(s) => b.JStr? && b.s == s
    case JArr(xs) =>
      b.JArr? && |xs| == |b.elems| && forall i :: 0 <= i < |xs| ==> PyEq(xs[i], b.elems[i])
    case JObj(m) =>
      b.JObj? && m.Keys == b.fields.Keys && forall k :: k in m ==> PyEq(m[k], b.fields[k])
    case _ => NumValue(b).Some? && NumValue(b) == NumValue(a)
  }

  lemma {:induction false} PyEqReflexive(a: Json)
    ensures PyEq(a, a)
    decreases a
  {
    match a
    case JArr(xs) =>
      forall i | 0 <= i < |xs| ensures PyEq(xs[i], xs[i]) {
        PyEqReflexive(xs[i]);
      }
    case JObj(m) =>
      forall k | k in m ensures PyEq(m[k], m[k]) {
        PyEqReflexive(m[k]);
      }
    case _ =>
  }

  /** `d.get(key)` on a value already known to be a dict. */
  function Field(d: map<string, Json>, key: string): Json {
    if key in d then d[key] else JNull
  }

  /** `v.get(key, default)`: only a dict has a `get` method. */
  function Get(v: Json, key: string, default: Json): Result<Json> {
    match v
    case JObj(m) => Ok(if key in m then m[key] else default)
    case _ => Raise(AttributeError)
  }

  predicate OccursAt(needle: string, s: string, i: int) {
    0 <= i && i + |needle| <= |s| && s[i..i + |needle|] == needle
  }

  /** `needle` occurs in `s` as a contiguous substring. */
  predicate IsSubstring(needle: string, s: string) {
    exists i :: 0 <= i <= |s| && OccursAt(needle, s, i)
  }

  /** `key in v` for a str `key`: membership of a key in a dict, of an element in a
      list, of a substring in a str; anything else is not a container. */
  function In(key: string, v: Json): Result<bool> {
    match v
    case JObj(m) => Ok(key in m)
    case JArr(xs) => Ok(JStr(key) in xs)
    case JStr(s) => Ok(IsSubstring(key, s))
    case _ => Raise(TypeError)
  }

  /** `v[key]` for a str `key`: only a dict accepts a str subscript. */
  function Subscript(v: Json, key: string): Result<Json> {
    match v
    case JObj(m) => if key in m then Ok(m[key]) else Raise(KeyError)
    case _ => Raise(TypeError)
  }

  /** The items a `for x in v:` loop visits when its body starts with `x.get(...)`, as
      every such loop of the integration does. Iterating a dict yields its keys and a
      str yields one-character strs; a str has no `get`, so a non-empty dict or str
      raises AttributeError on its first item. None and numbers are not iterable. */
  function LoopItems(v: Json): Result<seq<Json>> {
    match v
    case JArr(xs) => Ok(xs)
    case JObj(m) => if |m| == 0 then Ok([]) else Raise(AttributeError)
    case JStr(s) => if |s| == 0 then Ok([]) else Raise(AttributeError)
    case _ => Raise(TypeError)
  }

  /** Item `j` is a dict whose `key` entry is not equal to `want`: a search loop that
      tests `x.get(key) == want` moves past it. */
  predicate PassesOver(items: seq<Json>, j: int, key: string, want: Json)
    requires 0 <= j < |items|
  {
    items[j].JObj? && !PyEq(Field(items[j].fields, key), want)
  }

  /** `for x in items: if x.get(key) == want: return x`, then `return None`: the first
      match wins, and an item without `get` reached before any match raises. */
  function FindFirst(items: seq<Json>, key: string, want: Json): (r: Result<Option<map<string, Json>>>)
    ensures r == Ok(None) <==> forall j :: 0 <= j < |items| ==> PassesOver(items, j, key, want)
    ensures r.Ok? && r.value.Some? ==>
      exists i :: 0 <= i < |items| && items[i] == JObj(r.value.value)
        && PyEq(Field(r.value.value, key), want)
        && forall j :: 0 <= j < i ==> PassesOver(items, j, key, want)
    ensures r.Raise? ==>
      r.exc == AttributeError &&
      exists i :: 0 <= i < |items| && !items[i].JObj?
        && forall j :: 0 <= j < i ==> PassesOver(items, j, key, want)
  {
    if items == [] then Ok(None)
    else
      match items[0]
      case JObj(m) =>
        if PyEq(Field(m, key), want) then
          assert !PassesOver(items, 0, key, want);
          Ok(Some(m))
        else
          var r := FindFirst(items[1..], key, want);
          assert PassesOver(items, 0, key, want);
          assert forall j :: 1 <= j < |items| ==> (PassesOver(items, j, key, want) <==> PassesOver(items[1..], j - 1, key, want));
          assert forall k :: 0 <= k < |items| - 1 ==> (PassesOver(items[1..], k, key, want) <==> PassesOver(items, k + 1, key, want));
          r
      case _ =>
        assert !PassesOver(items, 0, key, want);
        Raise(AttributeError)
  }

  /** A search reaches item `i` when every earlier item is passed over, and stops there
      when item `i` matches. */
  lemma {:induction false} FindFirstAt(items: seq<Json>, key: string, want: Json, i: int)
    requires 0 <= i < |items| && items[i].JObj? && PyEq(Field(items[i].fields, key), want)
    requires forall j :: 0 <= j < i ==> PassesOver(items, j, key, want)
    ensures FindFirst(items, key, want) == Ok(Some(items[i].fields))
    decreases i
  {
    if i > 0 {
      assert PassesOver(items, 0, key, want);
      forall j | 0 <= j < i - 1
        ensures PassesOver(items[1..], j, key, want)
      {
        assert PassesOver(items, j + 1, key, want);
        assert items[1..][j] == items[j + 1];
      }
      FindFirstAt(items[1..], key, want, i - 1);
    }
  }

  /** Lists and dicts are unhashable: they cannot be dict keys. */
  predicate Hashable(v: Json) {
    !v.JArr? && !v.JObj?
  }

  /** The key `v` selects in a dict whose keys are all ints (`table.get(v)`): a bool,
      int or integral float hashes and compares equal to an int; None and strs match no
      int key; a list or dict raises TypeError. */
  function IntKey(v: Json): (r: Result<Option<int>>)
    ensures r.Raise? <==> !Hashable(v)
    ensures r.Ok? && r.value.Some? ==> PyEq(v, JInt(r.value.value))
    ensures r.Ok? && r.value.None? ==> forall k: int :: !PyEq(v, JInt(k))
  {
    match v
    case JBool(b) => Ok(Some(if b then 1 else 0))
    case JInt(i) => Ok(Some(i))
    case JFloat(x) => Ok(if x.Floor as real == x then Some(x.Floor) else None)
    case JNull => Ok(None)
    case JStr(_) => Ok(None)
    case _ => Raise(TypeError)
  }

  /** `str.lower()` restricted to ASCII letters. */
  function LowerChar(c: char): char {
    if 'A' <= c <= 'Z' then (c as int + 32) as char else c
  }

  function Lower(s: string): (r: string)
    ensures |r| == |s|
  {
    seq(|s|, i requires 0 <= i < |s| => LowerChar(s[i]))
  }

  function Digit(d: int): char
    requires 0 <= d < 10
  {
    ('0' as int + d) as char
  }

  /** `str(n)` for a non-negative int. */
  function Natural(n: nat): (r: string)
    ensures |r| > 0
    ensures n >= 10 ==> |r| >= 2
    ensures forall i :: 0 <= i < |r| ==> '0' <= r[i] <= '9'
  {
    if n < 10 then [Digit(n)] else Natural(n / 10) + [Digit(n % 10)]
  }

  /** `str(n)` for an int. */
  function Decimal(n: int): string {
    if n < 0 then "-" + Natural(-n) else Natural(n)
  }

  lemma {:induction false} NaturalInjective(a: nat, b: nat)
    requires Natural(a) == Natural(b)
    ensures a == b
    decreases a
  {
    if a >= 10 && b >= 10 {
      var x, y := Natural(a), Natural(b);
      assert x[|x| - 1] == Digit(a % 10) && y[|y| - 1] == Digit(b % 10);
      assert Natural(a / 10) == x[..|x| - 1] == y[..|y| - 1] == Natural(b / 10);
      NaturalInjective(a / 10, b / 10);
    }
  }

  lemma DecimalSign(n: int)
    ensures |Decimal(n)| > 0 && (Decimal(n)[0] == '-' <==> n < 0)
  {
  }

  /** Distinct ints print differently. */
  lemma DecimalInjective(a: int, b: int)
    requires Decimal(a) == Decimal(b)
    ensures a == b
  {
    DecimalSign(a);
    DecimalSign(b);
    if a < 0 {
      assert Natural(-a) == Decimal(a)[1..] == Decimal(b)[1..] == Natural(-b);
      NaturalInjective(-a, -b);
    } else {
      NaturalInjective(a, b);
    }
  }

  /** `str(v)` where its text is modelled: None for floats, lists and dicts, whose
      Python text (shortest round-trip float, repr of containers) is not. */
  function Str(v: Json): Option<string> {
    match v
    case JNull => Some("None")
    case JBool(b) => Some(if b then "True" else "False")
    case JInt(i) => Some(Decimal(i))
    case JStr(s) => Some(s)
    case _ => None
  }

  /** One part of an f-string: literal text, or a `{value}` replacement field. */
  datatype Piece = Text(t: string) | Value(v: Json)

  /** The text of an f-string, when the text of every interpolated value is modelled. */
  function Render(f: seq<Piece>): (r: Option<string>)
    ensures r.None? <==> exists i :: 0 <= i < |f| && f[i].Value? && Str(f[i].v).None?
  {
    if f == [] then Some("")
    else
      var head := match f[0] case Text(t) => Some(t) case Value(v) => Str(v);
      var tail := Render(f[1..]);
      if head.Some? && tail.Some? then Some(head.value + tail.value)
      else
        assert head.None? ==> f[0].Value? && Str(f[0].v).None?;
        assert tail.None? ==> exists i :: 1 <= i < |f| && f[i].Value? && Str(f[i].v).None?;
        None
  }
}
