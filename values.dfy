/**
 * The values a YAML configuration document parses into, and the Python conversions
 * `bool(v)`, `str(v)` and `int(v)` that radar/config.py and radar/score.py apply to them.
 */
module Values {
  import opened Wrappers
  import opened Text

  /** A node of a parsed document. */
  datatype Json =
    | JNull
    | JBool(b: bool)
    | JInt(i: int)
    | JStr(s: string)
    | JList(items: seq<Json>)
    | JObj(fields: map<string, Json>)

  /** `bool(v)`: empty containers, zero, the empty string and None are false. */
  predicate Truthy(j: Json) {
    match j
    case JNull => false
    case JBool(b) => b
    case JInt(i) => i != 0
    case JStr(s) => s != ""
    case JList(es) => es != []
    case JObj(m) => m != map[]
  }

  /** `d.get(k, default)` on a mapping. */
  function Get(d: Json, k: string, default: Json): Json {
    if d.JObj? && k in d.fields then d.fields[k] else default
  }

  /** `str(v)` on a scalar; the repr of a list or mapping is not modelled (None). */
  function StrOf(j: Json): (r: Option<string>)
    ensures r.Some? <==> !j.JList? && !j.JObj?
    ensures j.JStr? ==> r == Some(j.s)
  {
    match j
    case JNull => Some("None")
    case JBool(b) => Some(if b then "True" else "False")
    case JInt(i) => Some(IntToString(i))
    case JStr(s) => Some(s)
    case _ => None
  }

  predicate AllDigits(s: string) {
    forall k :: 0 <= k < |s| ==> '0' <= s[k] <= '9'
  }

  /** The value of a string of decimal digits, most significant first. */
  function DigitsValue(s: string): nat
    requires AllDigits(s)
    decreases |s|
  {
    if s == [] then 0 else DigitsValue(s[..|s| - 1]) * 10 + (s[|s| - 1] as int - '0' as int)
  }

  /** `int(s)` on a string: white space around an optional sign and at least one digit. */
  function ParseInt(s: string): Option<int> {
    var t := Strip(s);
    var signed := |t| > 0 && (t[0] == '-' || t[0] == '+');
    var body := if signed then t[1..] else t;
    if body != "" && AllDigits(body) then
      var v: int := DigitsValue(body);
      Some(if signed && t[0] == '-' then -v else v)
    else None
  }

  /** `int(v)`: integers as they are, booleans as 1 and 0, numeric strings parsed. */
  function IntOf(j: Json): Option<int> {
    match j
    case JInt(i) => Some(i)
    case JBool(b) => Some(if b then 1 else 0)
    case JStr(s) => ParseInt(s)
    case _ => None
  }

  // ---------------------------------------------------------------------------
  // Lemmas

  lemma {:induction false} DigitsOfNat(n: nat)
    ensures AllDigits(NatToString(n)) && DigitsValue(NatToString(n)) == n
    decreases n
  {
    if n >= 10 {
      DigitsOfNat(n / 10);
      var s := NatToString(n);
      assert s[..|s| - 1] == NatToString(n / 10);
    }
  }

  /** `int(str(i)) == i`: reading back a printed integer gives the integer. */
  lemma IntRoundTrip(i: int)
    ensures IntOf(JStr(StrOf(JInt(i)).value)) == Some(i)
  {
    var s := IntToString(i);
    NumeralUnstripped(s);
    if i < 0 {
      DigitsOfNat(-i);
      assert s[1..] == NatToString(-i);
    } else {
      DigitsOfNat(i);
    }
  }

  lemma NumeralUnstripped(s: string)
    requires |s| > 0 && forall k :: 0 <= k < |s| ==> s[k] == '-' || '0' <= s[k] <= '9'
    ensures Strip(s) == s
  {
    StripFacts(s);
  }

  /** Strings without a digit are rejected, the empty string and a lone sign included. */
  lemma NoDigitNoInt(s: string)
    requires forall k :: 0 <= k < |s| ==> !('0' <= s[k] <= '9')
    ensures ParseInt(s) == None
  {
    StripFacts(s);
    var t := Strip(s);
    if |t| > 1 {
      assert t[1] in t;
    } else if |t| == 1 {
      assert t[0] in t;
    }
  }
}
