/**
 * The Python values the agent framework handles: optional values, the two
 * exceptions the Q-learning agent can raise, observation payloads, and the
 * parts of Python's str()/repr() and string ordering that the agents rely on.
 */
module Values {

  datatype Option<+T> = None | Some(value: T)

  /** The built-in exceptions that escape from the modelled code. */
  datatype PyError = IndexError | ValueError

  /** A normal return or an exception that propagates to the caller. */
  datatype Result<+T> = Ok(value: T) | Err(error: PyError)

  /** A value stored inside a payload dict: a `str`, or any other value known by its repr() text. */
  datatype Scalar = Str(text: string) | Other(repr: string)

  /** One dict item: a string key and its value. */
  type Item = (string, Scalar)

  /**
   * An observation payload: a `str`, a `dict` with string keys whose items are
   * listed in insertion order, or any other value known by its str() text.
   */
  datatype Payload = Text(text: string) | Dict(items: seq<Item>) | Opaque(shown: string)

  /** A Python dict never holds the same key twice. */
  predicate DistinctKeys(items: seq<Item>) {
    forall i, j :: 0 <= i < j < |items| ==> items[i].0 != items[j].0
  }

  /** `d.get(key)`: the value stored under `key`, or None. */
  function Get(items: seq<Item>, key: string): (r: Option<Scalar>)
    ensures r.Some? <==> exists i :: 0 <= i < |items| && items[i].0 == key
    ensures r.Some? ==> (key, r.value) in items
  {
    if items == [] then None
    else if items[0].0 == key then Some(items[0].1)
    else Get(items[1..], key)
  }

  /** repr() of a string, with the quote choice and escaping of Python left out. */
  function Quote(s: string): string {
    "'" + s + "'"
  }

  function ReprScalar(v: Scalar): string {
    match v
    case Str(t) => Quote(t)
    case Other(r) => r
  }

  /** `sep.join(parts)` */
  function Join(sep: string, parts: seq<string>): string {
    if parts == [] then ""
    else if |parts| == 1 then parts[0]
    else parts[0] + sep + Join(sep, parts[1..])
  }

  /** str() of a dict: `{'k': v, ...}` in insertion order. */
  function ReprDict(items: seq<Item>): string {
    "{" + Join(", ", seq(|items|, i requires 0 <= i < |items| => Quote(items[i].0) + ": " + ReprScalar(items[i].1))) + "}"
  }

  /** str() of a list of (key, value) tuples: `[('k', v), ...]`. */
  function ReprItemList(items: seq<Item>): string {
    "[" + Join(", ", seq(|items|, i requires 0 <= i < |items| => "(" + Quote(items[i].0) + ", " + ReprScalar(items[i].1) + ")")) + "]"
  }

  /** str() of a payload; a string is its own str(). */
  function Show(p: Payload): (r: string)
    ensures p.Text? ==> r == p.text
  {
    match p
    case Text(t) => t
    case Dict(items) => ReprDict(items)
    case Opaque(s) => s
  }

  /** Python's `a < b` on strings: lexicographic by code point, a proper prefix first. */
  predicate Before(a: string, b: string) {
    if a == [] then b != []
    else if b == [] then false
    else a[0] < b[0] || (a[0] == b[0] && Before(a[1..], b[1..]))
  }

  lemma {:induction false} BeforeIrreflexive(a: string)
    ensures !Before(a, a)
  {
    if a != [] {
      BeforeIrreflexive(a[1..]);
    }
  }

  lemma {:induction false} BeforeTransitive(a: string, b: string, c: string)
    requires Before(a, b) && Before(b, c)
    ensures Before(a, c)
  {
    if a != [] && b != [] && c != [] && a[0] == b[0] == c[0] {
      BeforeTransitive(a[1..], b[1..], c[1..]);
    }
  }

  lemma {:induction false} BeforeTotal(a: string, b: string)
    requires a != b
    ensures Before(a, b) || Before(b, a)
  {
    if a != [] && b != [] && a[0] == b[0] {
      assert a == [a[0]] + a[1..] && b == [b[0]] + b[1..];
      BeforeTotal(a[1..], b[1..]);
    }
  }
}
