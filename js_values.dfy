/** The slice of JavaScript's value domain that the request table and the
    socket wrapper look at: ids, payloads, events and option bags.
    Numbers are integers (no fractions, NaN or infinities); an object is a
    record of its own properties. */
module JsValues {

  datatype Option<T> = None | Some(value: T)

  datatype Value =
    | Undefined
    | Null
    | Bool(b: bool)
    | Num(n: int)
    | Str(s: string)
    | Obj(props: map<string, Value>)

  /** JavaScript truthiness: `if (v)`. */
  predicate Truthy(v: Value)
  {
    match v
    case Undefined => false
    case Null => false
    case Bool(b) => b
    case Num(n) => n != 0
    case Str(s) => s != ""
    case Obj(_) => true
  }

  /** Property read `v[key]`: an object's own property, `undefined` when it
      is missing and for every non-object. */
  function Get(v: Value, key: string): (r: Value)
  {
    if v.Obj? && key in v.props then v.props[key] else Undefined
  }

  /** Property write `v[key] = x` on an object. */
  function Put(v: Value, key: string, x: Value): (r: Value)
    requires v.Obj?
    ensures r.Obj? && Get(r, key) == x
    ensures forall k :: k != key ==> Get(r, k) == Get(v, k)
  {
    Obj(v.props[key := x])
  }

  /** `String(v)`, which is also what a template literal `${v}` produces. */
  function Text(v: Value): (r: string)
  {
    match v
    case Undefined => "undefined"
    case Null => "null"
    case Bool(b) => if b then "true" else "false"
    case Num(n) => IntText(n)
    case Str(s) => s
    case Obj(_) => "[object Object]"
  }

  predicate IsDigit(c: char) { '0' <= c <= '9' }

  function DigitChar(d: nat): (c: char)
    requires d < 10
    ensures IsDigit(c)
  {
    "0123456789"[d]
  }

  function DigitValue(c: char): (r: nat)
    requires IsDigit(c)
  {
    (c as int - '0' as int) as nat
  }

  /** Decimal numeral of a natural number, without leading zeros. */
  function NatText(n: nat): (s: string)
    ensures |s| > 0
  {
    if n < 10 then [DigitChar(n)] else NatText(n / 10) + [DigitChar(n % 10)]
  }

  function IntText(n: int): (r: string)
  {
    if n < 0 then "-" + NatText(-n) else NatText(n)
  }

  predicate AllDigits(s: string)
  {
    forall i :: 0 <= i < |s| ==> IsDigit(s[i])
  }

  /** Value of a string of decimal digits. */
  function DigitsValue(s: string): (r: nat)
    requires AllDigits(s)
  {
    if s == [] then 0 else DigitsValue(s[..|s| - 1]) * 10 + DigitValue(s[|s| - 1])
  }

  /** The longest prefix of `s` made of decimal digits. */
  function DigitPrefix(s: string): (p: string)
    ensures AllDigits(p) && p <= s
    ensures |p| < |s| ==> !IsDigit(s[|p|])
  {
    if s != [] && IsDigit(s[0]) then [s[0]] + DigitPrefix(s[1..]) else []
  }

  /** `s` without its prefix `p`, when `s` starts with `p`. */
  function StripPrefix(p: string, s: string): (r: Option<string>)
  {
    if |p| <= |s| && s[..|p|] == p then Some(s[|p|..]) else None
  }

  /** Reads a decimal natural number at the head of `s`, and returns it with
      the rest of `s`. */
  function ReadNat(s: string): (r: Option<(nat, string)>)
  {
    var digits := DigitPrefix(s);
    if digits == [] then None else Some((DigitsValue(digits), s[|digits|..]))
  }

  /** Reads an optionally signed decimal integer at the head of `s`, and
      returns it with the rest of `s`. */
  function ReadInt(s: string): (r: Option<(int, string)>)
  {
    if |s| > 0 && s[0] == '-' then
      match ReadNat(s[1..])
      case None => None
      case Some((m, rest)) => Some((-(m as int), rest))
    else
      match ReadNat(s)
      case None => None
      case Some((m, rest)) => Some((m as int, rest))
  }

  lemma {:induction false} NatTextAllDigits(n: nat)
    ensures AllDigits(NatText(n))
  {
    if n >= 10 {
      NatTextAllDigits(n / 10);
    }
  }

  lemma {:induction false} NatTextValue(n: nat)
    ensures AllDigits(NatText(n)) && DigitsValue(NatText(n)) == n
  {
    NatTextAllDigits(n);
    if n >= 10 {
      var s := NatText(n);
      assert s[..|s| - 1] == NatText(n / 10);
      NatTextValue(n / 10);
    }
  }

  lemma {:induction false} DigitPrefixOfDigits(ds: string, rest: string)
    requires AllDigits(ds)
    requires rest == [] || !IsDigit(rest[0])
    ensures DigitPrefix(ds + rest) == ds
  {
    if ds != [] {
      assert (ds + rest)[1..] == ds[1..] + rest;
      DigitPrefixOfDigits(ds[1..], rest);
    }
  }

  lemma StripPrefixOf(p: string, s: string)
    ensures StripPrefix(p, p + s) == Some(s)
  {
    assert (p + s)[..|p|] == p;
    assert (p + s)[|p|..] == s;
  }

  lemma ReadNatDigits(ds: string, rest: string)
    requires AllDigits(ds) && ds != []
    requires rest == [] || !IsDigit(rest[0])
    ensures ReadNat(ds + rest) == Some((DigitsValue(ds), rest))
  {
    DigitPrefixOfDigits(ds, rest);
    assert (ds + rest)[|ds|..] == rest;
  }

  lemma ReadIntMinus(body: string)
    ensures ReadInt("-" + body) == match ReadNat(body)
                                   case None => None
                                   case Some((m, rest)) => Some((-(m as int), rest))
  {
    assert ("-" + body)[1..] == body;
  }

  lemma ReadIntDigit(body: string)
    requires body != [] && IsDigit(body[0])
    ensures ReadInt(body) == match ReadNat(body)
                             case None => None
                             case Some((m, rest)) => Some((m as int, rest))
  {
  }

  lemma ReadIntNegative(n: nat, rest: string)
    requires n > 0
    requires rest == [] || !IsDigit(rest[0])
    ensures ReadInt("-" + (NatText(n) + rest)) == Some((-(n as int), rest))
  {
    NatTextValue(n);
    ReadNatDigits(NatText(n), rest);
    ReadIntMinus(NatText(n) + rest);
  }

  lemma ReadIntNonNegative(n: nat, rest: string)
    requires rest == [] || !IsDigit(rest[0])
    ensures ReadInt(NatText(n) + rest) == Some((n, rest))
  {
    var ds := NatText(n);
    NatTextValue(n);
    ReadNatDigits(ds, rest);
    assert (ds + rest)[0] == ds[0];
    ReadIntDigit(ds + rest);
  }

  lemma NegativeText(n: int, rest: string)
    requires n < 0
    ensures IntText(n) + rest == "-" + (NatText(-n) + rest)
  {
  }

  /** Reading back the numeral of `n` followed by text that does not start
      with a digit gives `n` and exactly that text. */
  lemma ReadIntText(n: int, rest: string)
    requires rest == [] || !IsDigit(rest[0])
    ensures ReadInt(IntText(n) + rest) == Some((n, rest))
  {
    if n < 0 {
      ReadIntNegative(-n, rest);
      NegativeText(n, rest);
    } else {
      ReadIntNonNegative(n, rest);
    }
  }

  /** Reads text of the shape `prefix + <integer> + middle + tail` back
      into the integer and the tail. */
  function ReadIntBetween(prefix: string, middle: string, s: string): (r: Option<(int, string)>)
  {
    match StripPrefix(prefix, s)
    case None => None
    case Some(body) =>
      match ReadInt(body)
      case None => None
      case Some((n, rest)) =>
        match StripPrefix(middle, rest)
        case None => None
        case Some(tail) => Some((n, tail))
  }

  lemma Regroup(p: string, a: string, b: string, c: string)
    ensures p + a + b + c == p + (a + (b + c))
  {
  }

  lemma ReadIntBetweenText(prefix: string, middle: string, n: int, tail: string)
    requires middle != [] && !IsDigit(middle[0])
    ensures ReadIntBetween(prefix, middle, prefix + IntText(n) + middle + tail) == Some((n, tail))
  {
    var rest := middle + tail;
    assert rest[0] == middle[0];
    ReadIntText(n, rest);
    Regroup(prefix, IntText(n), middle, tail);
    StripPrefixOf(prefix, IntText(n) + rest);
    StripPrefixOf(middle, tail);
  }
}
