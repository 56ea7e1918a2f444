/**
 * The values that flow through the workflow engine: the dynamically typed
 * values held in a run's state dictionary, the outcome of calling a node,
 * and the shape of a graph definition.
 */
module Data {

  datatype Option<T> = None | Some(value: T)

  datatype Result<T> = Ok(value: T) | Err(error: string)

  /** A Python value as it can appear in a run's state (floats are not modelled). */
  datatype Value =
    | VNone
    | VBool(b: bool)
    | VInt(i: int)
    | VStr(s: string)
    | VList(items: seq<Value>)
    | VMap(entries: map<string, Value>)

  /** A run's state dictionary: string keys to values. */
  type State = map<string, Value>

  /** What calling a node produced: a returned value or a raised exception with its text. */
  datatype Outcome = Returned(value: Value) | Raised(error: string)

  /**
   * A graph definition as the engine stores it: the optional "name",
   * "start", the "nodes" list, the "edges" dictionary and the optional "meta".
   */
  datatype GraphDef = GraphDef(
    name: Option<string>,
    start: Option<string>,
    nodes: seq<string>,
    edges: map<string, string>,
    meta: Option<map<string, Value>>)

  /** Python truthiness: None, False, 0 and empty containers are false. */
  predicate Truthy(v: Value)
  {
    match v
    case VNone => false
    case VBool(b) => b
    case VInt(i) => i != 0
    case VStr(s) => s != ""
    case VList(xs) => xs != []
    case VMap(m) => m != map[]
  }

  /** Python's `d.get(key, default)`. */
  function Get(s: State, key: string, default: Value): (v: Value)
    ensures key in s ==> v == s[key]
    ensures key !in s ==> v == default
  {
    if key in s then s[key] else default
  }

  /** The value a number-expecting operator sees: an int, or a bool as 0/1; anything else raises. */
  function AsInt(v: Value): (r: Option<int>)
    ensures r.Some? <==> (v.VInt? || v.VBool?)
    ensures v.VInt? ==> r == Some(v.i)
    ensures v.VBool? ==> r == Some(if v.b then 1 else 0)
  {
    match v
    case VInt(i) => Some(i)
    case VBool(b) => Some(if b then 1 else 0)
    case _ => None
  }

  /** `dict.update` with a mapping, as the new dictionary. */
  function Update(s: State, u: State): State
  {
    s + u
  }

  /** After `s.update(u)` every key of `u` has `u`'s value and every other key of `s` keeps its value. */
  lemma UpdateFacts(s: State, u: State)
    ensures Update(s, u).Keys == s.Keys + u.Keys
    ensures forall k :: k in u ==> Update(s, u)[k] == u[k]
    ensures forall k :: k in s && k !in u ==> Update(s, u)[k] == s[k]
  {
  }

  /** Updating twice with the same mapping is the same as once: the merge overwrites per key. */
  lemma UpdateIdempotent(s: State, u: State)
    ensures Update(Update(s, u), u) == Update(s, u)
  {
    assert Update(Update(s, u), u).Keys == Update(s, u).Keys;
  }

  /** Decimal text of a natural number, as `str()` prints it. */
  function NatText(n: nat): (r: string)
    ensures |r| >= 1
    ensures forall k :: 0 <= k < |r| ==> '0' <= r[k] <= '9'
  {
    var d := ['0' + (n % 10) as char];
    if n < 10 then d else NatText(n / 10) + d
  }

  /** The number a text of decimal digits spells. */
  function DigitsValue(s: string): int
  {
    if s == [] then 0 else 10 * DigitsValue(s[..|s| - 1]) + (s[|s| - 1] as int - '0' as int)
  }

  /** `str(n)` spells `n`, with no leading zero unless `n` is 0. */
  lemma {:induction false} NatTextValue(n: nat)
    ensures DigitsValue(NatText(n)) == n
    ensures n > 0 ==> NatText(n)[0] != '0'
  {
    var d := ['0' + (n % 10) as char];
    if n >= 10 {
      NatTextValue(n / 10);
      var t := NatText(n / 10) + d;
      assert t[..|t| - 1] == NatText(n / 10);
      assert t[0] == NatText(n / 10)[0];
    }
  }

  /**
   * `str(v)` for the values that can name a node: strings, ints, booleans and
   * None. Lists and dicts never reach it (they are unhashable, so looking them
   * up raises first); they get a placeholder.
   */
  function Show(v: Value): string
  {
    match v
    case VStr(s) => s
    case VInt(i) => if i < 0 then "-" + NatText(-i) else NatText(i)
    case VBool(b) => if b then "True" else "False"
    case VNone => "None"
    case VList(_) => "[...]"
    case VMap(_) => "{...}"
  }

  /** The name `type(v).__name__` gives, as Python's error messages quote it. */
  function TypeName(v: Value): string
  {
    match v
    case VNone => "NoneType"
    case VBool(_) => "bool"
    case VInt(_) => "int"
    case VStr(_) => "str"
    case VList(_) => "list"
    case VMap(_) => "dict"
  }
}
