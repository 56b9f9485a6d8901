/** The slice of Python's runtime the fleet back end leans on: dynamically typed
    values as they arrive in JSON bodies and MongoDB documents, `float()`, `int()`,
    truthiness, `str.lower()`, `str.strip()`, `str()` and the "list every missing
    name" comprehension that several modules repeat. Exceptions become `Fault`s. */
module Python {

  datatype Option<T> = None | Some(value: T)

  datatype Result<T, E> = Ok(value: T) | Err(error: E)

  /** A point in time, in seconds since an epoch. */
  datatype DateTime = DateTime(ordinal: int)

  /** now + timedelta(days=n). */
  function AddDays(t: DateTime, n: int): (u: DateTime)
    ensures u.ordinal - t.ordinal == n * 86400
  {
    DateTime(t.ordinal + n * 86400)
  }

  /** A Python value. `DateText(d, f)` stands for the string `d.strftime(f)` (or
      `d.isoformat()` when `f` is "iso"): its characters are not modelled, only
      which instant and which format produced it. */
  datatype Value =
    | Null
    | Bool(b: bool)
    | Int(i: int)
    | Float(r: real)
    | Str(s: string)
    | List(items: seq<Value>)
    | Dict(entries: map<string, Value>)
    | Date(at: DateTime)
    | DateText(when: DateTime, format: string)

  /** A dict with string keys: a JSON body, a MongoDB document, a feature dict. */
  type Record = map<string, Value>

  /** The exceptions the modelled code raises or catches. */
  datatype Fault =
    | KeyMissing(key: string)              // KeyError on d[key]
    | NotNumeric(field: string)            // float(x) raised ValueError or TypeError
    | IndexOutOfRange                      // writing past the end of a numpy row
    | MissingNames(names: seq<string>)     // ValueError("Missing ...: [names]")
    | ScalerFailed                         // scaler.transform raised
    | NotInitialized                       // RuntimeError: prediction engine not initialised
    | BusIdRequired                        // ValueError: bus_id is required for telemetry export
    | NotComparable                        // TypeError from `x <= 1` on a non-number
    | DatabaseError                        // PyMongoError, re-raised as RuntimeError

  /** dict.get(key, default). */
  function Get(r: Record, key: string, default: Value): Value
  {
    if key in r then r[key] else default
  }

  /** isinstance(v, (int, float)); bool is a subclass of int in Python. */
  predicate IsNumber(v: Value)
  {
    v.Bool? || v.Int? || v.Float?
  }

  /** The number a bool, int or float stands for. */
  function NumberOf(v: Value): real
    requires IsNumber(v)
  {
    match v
    case Bool(b) => if b then 1.0 else 0.0
    case Int(i) => i as real
    case Float(r) => r
  }

  /** bool(v). */
  predicate Truthy(v: Value)
  {
    match v
    case Null => false
    case Bool(b) => b
    case Int(i) => i != 0
    case Float(r) => r != 0.0
    case Str(s) => s != ""
    case List(xs) => xs != []
    case Dict(m) => m != map[]
    case Date(_) => true
    case DateText(_, _) => true
  }

  /** `a or b`: the first operand when it is truthy, the second otherwise. */
  function Or(a: Value, b: Value): Value
  {
    if Truthy(a) then a else b
  }

  /** float(v); None where Python raises. */
  function ToFloat(v: Value): (r: Option<real>)
    ensures IsNumber(v) ==> r == Some(NumberOf(v))
    ensures v.Null? || v.List? || v.Dict? || v.Date? ==> r.None?
  {
    match v
    case Bool(_) => Some(NumberOf(v))
    case Int(_) => Some(NumberOf(v))
    case Float(_) => Some(NumberOf(v))
    case Str(s) => ParseFloat(s)
    case _ => None
  }

  /** max(a, b) on numbers. */
  function Max(a: real, b: real): (m: real)
    ensures m >= a && m >= b && (m == a || m == b)
  {
    if a >= b then a else b
  }

  /** min(a, b) on numbers. */
  function Min(a: real, b: real): (m: real)
    ensures m <= a && m <= b && (m == a || m == b)
  {
    if a <= b then a else b
  }

  /** int(x) on a float: truncation toward zero. */
  function Trunc(x: real): (n: int)
    ensures x >= 0.0 ==> n as real <= x < n as real + 1.0
    ensures x < 0.0 ==> n as real - 1.0 < x <= n as real
  {
    if x >= 0.0 then x.Floor else -((-x).Floor)
  }

  // ---------------------------------------------------------------
  // Strings
  // ---------------------------------------------------------------

  /** The ASCII characters str.isspace() accepts. */
  predicate IsSpace(c: char)
  {
    c == ' ' || (9 <= c as int <= 13) || (28 <= c as int <= 31)
  }

  function StripLeft(s: string): (t: string)
    ensures |t| <= |s|
    ensures t != [] ==> !IsSpace(t[0])
  {
    if s != [] && IsSpace(s[0]) then StripLeft(s[1..]) else s
  }

  /** lstrip() only removes characters at the front. */
  lemma {:induction false} StripLeftSuffix(s: string)
    ensures StripLeft(s) == s[|s| - |StripLeft(s)|..]
  {
    if s != [] && IsSpace(s[0]) {
      StripLeftSuffix(s[1..]);
    }
  }

  function StripRight(s: string): (t: string)
    ensures |t| <= |s|
    ensures t != [] ==> !IsSpace(t[|t| - 1])
  {
    if s != [] && IsSpace(s[|s| - 1]) then StripRight(s[..|s| - 1]) else s
  }

  /** rstrip() only removes characters at the back. */
  lemma {:induction false} StripRightPrefix(s: string)
    ensures StripRight(s) == s[..|StripRight(s)|]
  {
    if s != [] && IsSpace(s[|s| - 1]) {
      StripRightPrefix(s[..|s| - 1]);
    }
  }

  /** str.strip(): no white space is left at either end. */
  function Strip(s: string): (t: string)
    ensures |t| <= |s|
    ensures t != [] ==> !IsSpace(t[0]) && !IsSpace(t[|t| - 1])
  {
    var u := StripLeft(s);
    StripRightPrefix(u);
    StripRight(u)
  }

  /** strip() only removes characters: what is left is the slice of the input
      that starts at k. */
  lemma StripSlice(s: string) returns (k: nat)
    ensures k + |Strip(s)| <= |s| && Strip(s) == s[k..k + |Strip(s)|]
  {
    var u := StripLeft(s);
    StripLeftSuffix(s);
    StripRightPrefix(u);
    k := |s| - |u|;
  }

  /** A string that already has no white space at either end is left alone. */
  lemma StripUnchanged(t: string)
    requires t != [] ==> !IsSpace(t[0]) && !IsSpace(t[|t| - 1])
    ensures Strip(t) == t
  {
    assert StripLeft(t) == t;
    assert StripRight(t) == t;
  }

  function LowerChar(c: char): char
  {
    if 'A' <= c <= 'Z' then (c as int + 32) as char else c
  }

  /** str.lower() on ASCII letters. */
  function Lower(s: string): (t: string)
    ensures |t| == |s|
    ensures forall i :: 0 <= i < |t| ==> !('A' <= t[i] <= 'Z')
  {
    seq(|s|, i requires 0 <= i < |s| => LowerChar(s[i]))
  }

  /** Lower-casing and stripping a second time changes nothing. */
  lemma {:induction false} LowerStripIdempotent(s: string)
    ensures Strip(Lower(Strip(Lower(s)))) == Strip(Lower(s))
  {
    var u := Lower(s);
    var t := Strip(u);
    assert forall i :: 0 <= i < |t| ==> LowerChar(t[i]) == t[i] by {
      var k := StripSlice(u);
      forall i | 0 <= i < |t|
        ensures LowerChar(t[i]) == t[i]
      {
        assert t[i] == u[k + i];
      }
    }
    assert Lower(t) == t;
    StripUnchanged(t);
  }

  predicate IsDigit(c: char)
  {
    '0' <= c <= '9'
  }

  predicate AllDigits(s: string)
  {
    s == [] || (IsDigit(s[|s| - 1]) && AllDigits(s[..|s| - 1]))
  }

  function DigitsValue(s: string): nat
    requires AllDigits(s)
  {
    if s == [] then 0 else DigitsValue(s[..|s| - 1]) * 10 + (s[|s| - 1] as int - '0' as int)
  }

  /** The value of the digits after a decimal point, 0.d1d2…dn: the first
      digit, plus the value of the rest, shifted one place to the right. */
  function FractionValue(s: string): real
  {
    if s == [] then 0.0 else ((s[0] as int - '0' as int) as real + FractionValue(s[1..])) * 0.1
  }

  /** The index of the first '.', or |s| when there is none. */
  function DotIndex(s: string): (k: nat)
    ensures k <= |s|
    ensures k < |s| ==> s[k] == '.'
  {
    if s == [] then 0
    else if s[0] == '.' then 0
    else 1 + DotIndex(s[1..])
  }

  /** Unsigned decimal text: digits, optionally a point, optionally more digits,
      at least one digit in all. */
  function ParseDecimal(u: string): Option<real>
  {
    var k := DotIndex(u);
    var whole := u[..k];
    var frac := if k < |u| then u[k + 1..] else [];
    if whole == [] && frac == [] then None
    else if !AllDigits(whole) || !AllDigits(frac) then None
    else Some(DigitsValue(whole) as real + FractionValue(frac))
  }

  /** float(s) for a string: surrounding white space, then an optional sign and
      decimal text. */
  function ParseFloat(s: string): Option<real>
  {
    var t := Strip(s);
    if t == [] then None
    else
      var body := if t[0] == '-' || t[0] == '+' then t[1..] else t;
      match ParseDecimal(body)
      case None => None
      case Some(x) => Some(if t[0] == '-' then -x else x)
  }

  function DigitChar(d: nat): char
    requires d < 10
  {
    ('0' as int + d) as char
  }

  function NatText(n: nat): (s: string)
    ensures s != [] && AllDigits(s) && IsDigit(s[0])
  {
    if n < 10 then [DigitChar(n)] else NatText(n / 10) + [DigitChar(n % 10)]
  }

  /** str(i) for an int. */
  function IntText(i: int): string
  {
    if i < 0 then "-" + NatText(-i) else NatText(i)
  }

  /** int(s) for a string: surrounding white space, an optional sign, then one
      or more decimal digits. */
  function ParseInt(s: string): Option<int>
  {
    var t := Strip(s);
    var body := if t != [] && (t[0] == '-' || t[0] == '+') then t[1..] else t;
    if body == [] || !AllDigits(body) then None
    else Some(if t[0] == '-' then -(DigitsValue(body) as int) else DigitsValue(body))
  }

  /** The digits of a natural number read back give that number. */
  lemma {:induction false} NatTextValue(n: nat)
    ensures DigitsValue(NatText(n)) == n
  {
    if n >= 10 {
      NatTextValue(n / 10);
      var s := NatText(n / 10) + [DigitChar(n % 10)];
      assert s[..|s| - 1] == NatText(n / 10);
    }
  }

  /** int(str(i)) == i. */
  lemma IntTextRoundTrip(i: int)
    ensures ParseInt(IntText(i)) == Some(i)
  {
    var n := if i < 0 then -i else i;
    var digits := NatText(n);
    NatTextValue(n);
    assert IsDigit(digits[|digits| - 1]);
    var t := IntText(i);
    assert !IsSpace(t[0]) && !IsSpace(t[|t| - 1]);
    StripUnchanged(t);
    if i < 0 {
      assert t[0] == '-' && t[1..] == digits;
    } else {
      assert t == digits && IsDigit(t[0]);
    }
  }

  /** str(v). Strings, None, booleans and ints are rendered exactly; `show` stands
      for Python's rendering of floats, containers and dates. */
  function Text(v: Value, show: Value -> string): (t: string)
    ensures v.Str? ==> t == v.s
  {
    match v
    case Str(s) => s
    case Null => "None"
    case Bool(b) => if b then "True" else "False"
    case Int(i) => IntText(i)
    case _ => show(v)
  }

  // ---------------------------------------------------------------
  // "Report every missing name"
  // ---------------------------------------------------------------

  /** [name for name in required if name not in present]. */
  function Missing(required: seq<string>, present: set<string>): (missing: seq<string>)
    ensures forall x :: x in missing <==> x in required && x !in present
    ensures |missing| <= |required|
    ensures missing == [] <==> forall i :: 0 <= i < |required| ==> required[i] in present
  {
    if required == [] then []
    else (if required[0] in present then [] else [required[0]]) + Missing(required[1..], present)
  }

  /** The missing names keep the order of `required`: the list of a concatenation
      is the concatenation of the lists. */
  lemma {:induction false} MissingAppend(a: seq<string>, b: seq<string>, present: set<string>)
    ensures Missing(a + b, present) == Missing(a, present) + Missing(b, present)
  {
    if a == [] {
      assert a + b == b;
    } else {
      assert (a + b)[0] == a[0] && (a + b)[1..] == a[1..] + b;
      MissingAppend(a[1..], b, present);
    }
  }

  // ---------------------------------------------------------------
  // A loop that converts element by element until one conversion raises
  // ---------------------------------------------------------------

  /** The index of the first failed conversion, or the length when none failed. */
  function FirstNone<T>(ps: seq<Option<T>>): (k: nat)
    ensures k <= |ps|
    ensures forall j :: 0 <= j < k ==> ps[j].Some?
    ensures k < |ps| ==> ps[k].None?
  {
    if ps == [] || ps[0].None? then 0
    else
      var k := 1 + FirstNone(ps[1..]);
      assert forall j :: 1 <= j < k ==> ps[j] == ps[1..][j - 1];
      k
  }

  /** The results of conversions that all succeeded. */
  function Values<T>(ps: seq<Option<T>>): (xs: seq<T>)
    requires forall j :: 0 <= j < |ps| ==> ps[j].Some?
    ensures |xs| == |ps|
    ensures forall j :: 0 <= j < |ps| ==> xs[j] == ps[j].value
  {
    if ps == [] then [] else Values(ps[..|ps| - 1]) + [ps[|ps| - 1].value]
  }

  /** A failure preceded only by successes is the first failure. */
  lemma FirstNoneAt<T>(ps: seq<Option<T>>, k: nat)
    requires k < |ps| && ps[k].None?
    requires forall j :: 0 <= j < k ==> ps[j].Some?
    ensures FirstNone(ps) == k
  {
  }

  /** A loop stopped by a failure has produced the results before it. */
  lemma ConvertedStops<T>(ps: seq<Option<T>>, xs: seq<T>)
    requires |xs| < |ps| && ps[|xs|].None?
    requires forall j :: 0 <= j < |xs| ==> ps[j] == Some(xs[j])
    ensures FirstNone(ps) == |xs| && Converted(ps) == xs
  {
    FirstNoneAt(ps, |xs|);
  }

  /** One more successful conversion extends the results by its value. */
  lemma ConvertedStep<T>(ps: seq<Option<T>>, xs: seq<T>, x: T)
    requires |xs| < |ps| && ps[|xs|] == Some(x)
    requires forall j :: 0 <= j < |xs| ==> ps[j] == Some(xs[j])
    ensures forall j :: 0 <= j < |xs + [x]| ==> ps[j] == Some((xs + [x])[j])
  {
    forall j | 0 <= j < |xs + [x]|
      ensures ps[j] == Some((xs + [x])[j])
    {
      if j < |xs| {
        assert (xs + [x])[j] == xs[j];
      }
    }
  }

  /** A loop that got through every conversion has produced all the results. */
  lemma ConvertedAll<T>(ps: seq<Option<T>>, xs: seq<T>)
    requires |xs| == |ps|
    requires forall j :: 0 <= j < |ps| ==> ps[j] == Some(xs[j])
    ensures FirstNone(ps) == |ps| && Converted(ps) == xs
  {
    assert ps[..|ps|] == ps;
  }

  /** What a converting loop has produced when it stops: the results before the
      first failure. */
  function Converted<T>(ps: seq<Option<T>>): (xs: seq<T>)
    ensures |xs| == FirstNone(ps)
    ensures forall j :: 0 <= j < |xs| ==> ps[j] == Some(xs[j])
  {
    Values(ps[..FirstNone(ps)])
  }
}
