/** The JSON-shaped values the backend builds with dicts, lists and `str()`. */
module Json {

  /** A Python value as it appears in the backend's serialisable dicts.
      `JShown(v)` is the string `str(v)` of a value whose text form is not
      modelled character by character (a Decimal); ints are rendered exactly
      by IntToStr. */
  datatype Json =
    | JInt(i: int)
    | JDec(d: real)
    | JStr(s: string)
    | JShown(shown: Json)
    | JList(elems: seq<Json>)
    | JObj(fields: map<string, Json>)

  /** A Python `str` value. */
  predicate IsText(v: Json) {
    v.JStr? || v.JShown?
  }

  /** Python's `str(v)`. */
  function Str(v: Json): (r: Json)
    ensures IsText(r)
    ensures IsText(v) ==> r == v
    ensures v.JInt? ==> r == JStr(IntToStr(v.i))
    ensures v.JDec? ==> r.JShown? && r.shown == v
  {
    match v
    case JStr(_) => v
    case JShown(_) => v
    case JInt(n) => JStr(IntToStr(n))
    case _ => JShown(v)
  }

  function DigitChar(d: int): (c: char)
    requires 0 <= d < 10
    ensures '0' <= c <= '9'
  {
    (48 + d) as char
  }

  /** Decimal digits of a natural number, most significant first. */
  function NatToStr(n: nat): (s: string)
    ensures |s| >= 1
    ensures forall k :: 0 <= k < |s| ==> '0' <= s[k] <= '9'
  {
    if n < 10 then [DigitChar(n)] else NatToStr(n / 10) + [DigitChar(n % 10)]
  }

  /** `str(n)` for a Python int. */
  function IntToStr(n: int): string {
    if n < 0 then "-" + NatToStr(-n) else NatToStr(n)
  }

  /** The value of a string of decimal digits (`int(s)` on digit text). */
  function ParseNat(s: string): int {
    if s == [] then 0 else ParseNat(s[..|s| - 1]) * 10 + (s[|s| - 1] as int - 48)
  }

  /** `int(s)` on the text IntToStr produces. */
  function ParseInt(s: string): int {
    if |s| > 0 && s[0] == '-' then -ParseNat(s[1..]) else ParseNat(s)
  }

  lemma {:induction false} NatToStrRoundTrip(n: nat)
    ensures ParseNat(NatToStr(n)) == n
  {
    var s := NatToStr(n);
    if n < 10 {
      assert s[..|s| - 1] == [];
    } else {
      assert s[..|s| - 1] == NatToStr(n / 10);
      NatToStrRoundTrip(n / 10);
    }
  }

  /** `int(str(n)) == n`: the text form of an int determines it. */
  lemma IntToStrRoundTrip(n: int)
    ensures ParseInt(IntToStr(n)) == n
  {
    var m: nat := if n < 0 then -n else n;
    ParseIntSign(NatToStr(m));
    NatToStrRoundTrip(m);
  }

  lemma ParseIntSign(digits: string)
    requires |digits| >= 1 && '0' <= digits[0] <= '9'
    ensures ParseInt(digits) == ParseNat(digits)
    ensures ParseInt("-" + digits) == -ParseNat(digits)
  {
    assert ("-" + digits)[0] == '-' && ("-" + digits)[1..] == digits;
  }

  lemma IntToStrInjective(a: int, b: int)
    requires IntToStr(a) == IntToStr(b)
    ensures a == b
  {
    IntToStrRoundTrip(a);
    IntToStrRoundTrip(b);
  }
}
