/** Python-level values, exceptions and string helpers shared by the enrichment
    gateway, the record store, the person service and the seeder. */
module Values {

  /** An optional value; `None` means "absent" (not Python's `None`, which is `Null`). */
  datatype Option<+T> = None | Some(value: T)

  /** The outcome of a step that may raise: `Err` carries the exception. */
  datatype Result<+T> = Ok(value: T) | Err(error: Error) {
    predicate IsFailure() { Err? }
    function PropagateFailure<U>(): Result<U> requires Err? { Err(error) }
    function Extract(): T requires Ok? { value }
  }

  /** A dynamically typed Python value as it appears in a decoded JSON body or in a
      record's field: `None`, `bool`, `int`, `str`, `list`, `dict` (with its entries in
      insertion order). Floats are not modelled. */
  datatype Value =
    | Null
    | Bool(b: bool)
    | Int(i: int)
    | Str(s: string)
    | List(items: seq<Value>)
    | Dict(entries: seq<(string, Value)>)

  /** The exceptions the modelled code raises or lets through. */
  datatype Error =
    | ValueError(message: string)
    | KeyError(key: Value)
    | IndexError
    | TypeError
    | RequestFailed                 // network failure, or a body that is not JSON
    | InvalidEmail(address: string) // the e-mail format check rejected `address`
    | ValidationError               // the record schema rejected a record
    | IntegrityError                // the store's uniqueness constraint
    | NotFound                      // the store has no row with the given Id

  /** Python truthiness. */
  predicate Truthy(v: Value) {
    match v
    case Null => false
    case Bool(b) => b
    case Int(i) => i != 0
    case Str(s) => s != []
    case List(xs) => xs != []
    case Dict(es) => es != []
  }

  /** Python's `v or default`. */
  function Or(v: Value, default: Value): Value {
    if Truthy(v) then v else default
  }

  /** Python's `str.isspace` for one character: the separators `str.split()` and
      `str.strip()` use when called without arguments. */
  predicate IsSpace(c: char) {
    || c == ' ' || c == '\t' || c == '\n' || c == '\r'
    || c == '\U{000B}' || c == '\U{000C}'
    || ('\U{001C}' <= c <= '\U{001F}')
    || c == '\U{0085}' || c == '\U{00A0}' || c == '\U{1680}'
    || ('\U{2000}' <= c <= '\U{200A}')
    || c == '\U{2028}' || c == '\U{2029}' || c == '\U{202F}' || c == '\U{205F}' || c == '\U{3000}'
  }

  /** `not s.strip()`: the string is empty or made only of whitespace. */
  predicate IsBlank(s: string) {
    forall i :: 0 <= i < |s| ==> IsSpace(s[i])
  }

  /** `c.lower()` for ASCII letters. */
  function LowerChar(c: char): char {
    if 'A' <= c <= 'Z' then (c as int - 'A' as int + 'a' as int) as char else c
  }

  /** `s.lower()`, restricted to ASCII letters (it is only applied to the constant field names). */
  function Lower(s: string): (r: string)
    ensures |r| == |s|
    ensures forall i :: 0 <= i < |s| ==> r[i] == LowerChar(s[i])
  {
    seq(|s|, i requires 0 <= i < |s| => LowerChar(s[i]))
  }

  function DigitChar(d: nat): char
    requires d < 10
  {
    "0123456789"[d]
  }

  /** Decimal digits of a natural number. */
  function Digits(n: nat): (r: string)
    ensures r != []
    decreases n
  {
    if n < 10 then [DigitChar(n)] else Digits(n / 10) + [DigitChar(n % 10)]
  }

  /** `str(i)` for a Python integer. */
  function IntToString(i: int): (r: string)
    ensures r != []
  {
    if i < 0 then "-" + Digits(-i) else Digits(i)
  }
}
