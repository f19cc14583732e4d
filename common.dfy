/** Shared vocabulary of the payment platform model: optional values and
    results, the JSON-like values stored in transaction metadata and sent to
    webhook subscribers, HTTP replies, string predicates and the decimal
    rendering JavaScript uses when a number is interpolated into a string. */
module Common {

  datatype Option<T> = None | Some(value: T)

  /** A call that either returns a value or throws an `Error` whose
      `message` is `error`. */
  datatype Result<T, E> = Ok(value: T) | Err(error: E)

  /** The JSON-like values the application stores and sends.  `Undefined` is
      JavaScript's `undefined`: it can appear in an object literal but is
      dropped when the object is persisted (see `Persist`). */
  datatype Value =
    | Str(s: string)
    | Num(n: int)
    | Bool(b: bool)
    | Null
    | Undefined
    | Doc(fields: map<string, Value>)

  /** An HTTP reply: a status code and a JSON body. */
  datatype Response<B> = Response(status: nat, body: B)

  const StatusOk: nat := 200

  /** A reading of `Math.random()`: a real number in [0, 1). */
  type Draw = r: real | 0.0 <= r < 1.0

  /** `Math.floor(draw * n)` for a draw in [0, 1): an index below `n`. */
  function ScaledDraw(draw: Draw, n: nat): (k: nat)
    requires n > 0
    ensures k < n
  {
    var x := draw * n as real;
    assert x < n as real by {
      assert n as real - x == (1.0 - draw) * n as real;
      assert (1.0 - draw) > 0.0 && n as real > 0.0;
    }
    x.Floor
  }

  /** The message a Prisma client reports when an insert hits a unique
      constraint.  The exact wording is not part of this model. */
  const UniqueViolation := "Unique constraint failed"

  /** `s.startsWith(p)`. */
  predicate StartsWith(s: string, p: string) {
    |p| <= |s| && s[..|p|] == p
  }

  predicate IsDigit(c: char) {
    '0' <= c <= '9'
  }

  predicate AllDigits(s: string) {
    forall i :: 0 <= i < |s| ==> IsDigit(s[i])
  }

  /** `obj[key]` on a JSON object: `undefined` when the key is absent. */
  function Field(m: map<string, Value>, key: string): (v: Value)
    ensures key in m ==> v == m[key]
    ensures key !in m ==> v == Undefined
  {
    if key in m then m[key] else Undefined
  }

  /** JavaScript truthiness of a JSON value. */
  predicate Truthy(v: Value) {
    match v
    case Str(s) => s != ""
    case Num(n) => n != 0
    case Bool(b) => b
    case Null => false
    case Undefined => false
    case Doc(_) => true
  }

  /** A stored JSON object holds no `undefined` value. */
  predicate IsPersisted(m: map<string, Value>) {
    forall k :: k in m ==> !m[k].Undefined?
  }

  /** JSON persistence drops the keys whose value is `undefined`. */
  function Persist(m: map<string, Value>): (r: map<string, Value>)
    ensures forall k :: k in r <==> k in m && !m[k].Undefined?
    ensures forall k :: k in r ==> r[k] == m[k]
    ensures IsPersisted(r)
  {
    map k | k in m && !m[k].Undefined? :: m[k]
  }

  /** The persisted result of the object spread `{...base, ...updates}`. */
  function Spread(base: map<string, Value>, updates: map<string, Value>): (r: map<string, Value>)
    ensures forall k :: k in updates && !updates[k].Undefined? ==> k in r && r[k] == updates[k]
    ensures forall k :: k in updates && updates[k].Undefined? ==> k !in r
    ensures forall k :: k !in updates ==> (k in r <==> k in base && !base[k].Undefined?)
    ensures forall k :: k !in updates && k in r ==> r[k] == base[k]
  {
    Persist(base + updates)
  }

  /** Reading back a spread key gives the update, `undefined` included. */
  lemma SpreadField(base: map<string, Value>, updates: map<string, Value>, k: string)
    requires k in updates
    ensures Field(Spread(base, updates), k) == updates[k]
  {
  }

  /** Spreading the same updates twice is spreading them once. */
  lemma SpreadIdempotent(base: map<string, Value>, updates: map<string, Value>)
    ensures Spread(Spread(base, updates), updates) == Spread(base, updates)
  {
    var once := Spread(base, updates);
    var twice := Spread(once, updates);
    assert forall k :: k in twice <==> k in once;
    assert forall k :: k in twice ==> twice[k] == once[k];
  }

  /** `s.find(p)`, `findFirst`: the least index whose element satisfies `p`. */
  function FindFirst<T>(s: seq<T>, p: T -> bool): (k: Option<nat>)
    ensures k.Some? ==> k.value < |s| && p(s[k.value])
    ensures k.Some? ==> forall j :: 0 <= j < k.value ==> !p(s[j])
    ensures k.None? ==> forall j :: 0 <= j < |s| ==> !p(s[j])
  {
    if s == [] then None
    else if p(s[0]) then Some(0)
    else match FindFirst(s[1..], p)
      case None => None
      case Some(k) => Some(k + 1)
  }

  /** Appending a match to a sequence without one: the new element is the
      first match. */
  lemma FindFirstExtend<T>(s: seq<T>, p: T -> bool, x: T)
    requires FindFirst(s, p).None? && p(x)
    ensures FindFirst(s + [x], p) == Some(|s|)
  {
    assert (s + [x])[|s|] == x;
  }

  /** A match in a prefix stays the first match after an append. */
  lemma FindFirstPrefix<T>(s: seq<T>, p: T -> bool, x: T, k: nat)
    requires FindFirst(s, p) == Some(k)
    ensures FindFirst(s + [x], p) == Some(k)
  {
    assert forall j :: 0 <= j < |s| ==> (s + [x])[j] == s[j];
  }

  /** Two sequences whose elements match alike have the same first match. */
  lemma FindFirstAlike<T, U>(s: seq<T>, p: T -> bool, t: seq<U>, q: U -> bool)
    requires |s| == |t|
    requires forall j :: 0 <= j < |s| ==> p(s[j]) == q(t[j])
    ensures FindFirst(s, p) == FindFirst(t, q)
  {
  }

  function DigitChar(d: nat): (c: char)
    requires d < 10
    ensures IsDigit(c)
  {
    (('0' as int) + d) as char
  }

  function DigitValue(c: char): (d: nat)
    requires IsDigit(c)
    ensures d < 10
  {
    (c as int) - ('0' as int)
  }

  /** `String(n)` for a natural number: decimal, no leading zero. */
  function DecimalString(n: nat): (r: string)
    ensures 1 <= |r| && AllDigits(r)
    ensures r[0] == '0' ==> n == 0
    decreases n
  {
    if n < 10 then [DigitChar(n)] else DecimalString(n / 10) + [DigitChar(n % 10)]
  }

  /** The value of a string of decimal digits. */
  function ParseDecimal(s: string): nat
    requires AllDigits(s)
    decreases |s|
  {
    if s == [] then 0 else ParseDecimal(s[..|s| - 1]) * 10 + DigitValue(s[|s| - 1])
  }

  /** Reading back a rendered number gives the number. */
  lemma {:induction false} DecimalRoundTrip(n: nat)
    ensures ParseDecimal(DecimalString(n)) == n
    decreases n
  {
    if n >= 10 {
      var s := DecimalString(n);
      assert s[..|s| - 1] == DecimalString(n / 10);
      DecimalRoundTrip(n / 10);
    }
  }

  /** Numbers below 1000 render in at most three digits. */
  lemma DecimalStringShort(n: nat)
    requires n < 1000
    ensures |DecimalString(n)| <= 3
  {
    if n >= 10 {
      DecimalStringShort(n / 10);
    }
  }

  function Pow2(k: nat): (r: nat)
    ensures r >= 1
  {
    if k == 0 then 1 else 2 * Pow2(k - 1)
  }
}
