/** The Python values that flow from the fetchers into the evaluators: a
    string, a float, None, or a tuple of those (the AAII fetcher's
    `(bull, bear, diff)` or `(None, None, message)`). */
module PyValue {
  import opened Text

  /** A float keeps the text Python prints for it (`str(x)`), because the
      evaluators read numbers back out of that text. */
  datatype Atom = Str(s: string) | Float(x: real, repr: string) | Null

  datatype Value = Scalar(a: Atom) | Tuple(items: seq<Atom>)

  /** A Python `str` value. */
  function StrValue(s: string): Value { Scalar(Str(s)) }

  /** Python truthiness: `if value:` / `not value`. */
  predicate Truthy(v: Value) {
    match v
    case Scalar(Str(s)) => s != []
    case Scalar(Float(x, _)) => x != 0.0
    case Scalar(Null) => false
    case Tuple(items) => items != []
  }

  /** `str(a)` (also what an f-string interpolates). */
  function StrOf(a: Atom): string {
    match a
    case Str(s) => s
    case Float(_, r) => r
    case Null => "None"
  }

  /** `repr(a)` as it appears inside a printed tuple (escapes are not modelled). */
  function ReprOf(a: Atom): string {
    match a
    case Str(s) => "'" + s + "'"
    case Float(_, r) => r
    case Null => "None"
  }

  function JoinReprs(items: seq<Atom>): string {
    if items == [] then ""
    else if |items| == 1 then ReprOf(items[0])
    else ReprOf(items[0]) + ", " + JoinReprs(items[1..])
  }

  /** `str(v)`: a one-element tuple prints with a trailing comma. */
  function Show(v: Value): (r: string)
    ensures v.Tuple? ==> r != [] && r[0] == '('
  {
    match v
    case Scalar(a) => StrOf(a)
    case Tuple(items) => "(" + JoinReprs(items) + (if |items| == 1 then ",)" else ")")
  }

  /** Whether the printed value contains the text `t`. */
  predicate Mentions(v: Value, t: string) {
    Contains(Show(v), t)
  }
}
