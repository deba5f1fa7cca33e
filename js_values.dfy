/**
  The few JavaScript semantics the façade relies on: truthiness of optional
  strings and numbers, how a template literal renders `undefined` and `null`,
  `String()` of a number, and `toLocaleLowerCase` on ASCII letters.
*/
module JsValues {
  import opened Wrappers

  /** A value typed `string|number` in the source (a route `param`, a query `val`). */
  datatype Scalar = Text(s: string) | Number(n: int)

  const Undefined: string := "undefined"
  const Null: string := "null"

  /** How `${o}` renders an optional string: a missing value is spelled `absent`. */
  function Show(o: Option<string>, absent: string): string
  {
    if o.Some? then o.value else absent
  }

  /** `if (s)` on an optional string: defined and not empty. */
  predicate TruthyText(o: Option<string>)
  {
    o.Some? && o.value != ""
  }

  /** `if (n)` on an optional number: defined and not zero. */
  predicate TruthyNumber(o: Option<int>)
  {
    o.Some? && o.value != 0
  }

  /** `if (v)` on an optional `string|number`. */
  predicate TruthyScalar(o: Option<Scalar>)
  {
    o.Some? && (match o.value
                case Text(s) => s != ""
                case Number(n) => n != 0)
  }

  predicate AllDigits(s: string)
  {
    forall i :: 0 <= i < |s| ==> '0' <= s[i] <= '9'
  }

  function DigitChar(d: nat): (c: char)
    requires d < 10
    ensures '0' <= c <= '9' && c as int - '0' as int == d
  {
    ('0' as int + d) as char
  }

  /** The decimal rendering of a natural number, as `String(n)` gives it. */
  function NatToString(n: nat): (s: string)
    ensures |s| > 0 && AllDigits(s)
    decreases n
  {
    if n < 10 then [DigitChar(n)] else NatToString(n / 10) + [DigitChar(n % 10)]
  }

  /** `String(i)` for an integer. */
  function IntToString(i: int): string
  {
    if i < 0 then "-" + NatToString(-i) else NatToString(i)
  }

  /** Reads a string of digits back as a number: the inverse of NatToString. */
  function DecimalValue(s: string): nat
    requires AllDigits(s)
  {
    if s == [] then 0
    else 10 * DecimalValue(s[..|s| - 1]) + (s[|s| - 1] as int - '0' as int)
  }

  /** `String(val)` and `${val}` for a `string|number`. */
  function ScalarToString(v: Scalar): string
  {
    match v
    case Text(s) => s
    case Number(n) => IntToString(n)
  }

  predicate IsUpper(c: char)
  {
    'A' <= c <= 'Z'
  }

  function LowerChar(c: char): char
  {
    if IsUpper(c) then (c as int - 'A' as int + 'a' as int) as char else c
  }

  function UpperChar(c: char): char
  {
    if 'a' <= c <= 'z' then (c as int - 'a' as int + 'A' as int) as char else c
  }

  /** Text with no upper-case ASCII letter, such as a verb name `'get'`. */
  predicate NoUpper(w: string)
  {
    forall i :: 0 <= i < |w| ==> !IsUpper(w[i])
  }

  /**
    `toLocaleLowerCase` restricted to ASCII: no upper-case letter is left,
    each upper-case letter becomes its lower-case partner, and every other
    character stays where and what it was.
  */
  function ToLower(s: string): (r: string)
    ensures |r| == |s| && NoUpper(r)
    ensures forall i :: 0 <= i < |s| && !IsUpper(s[i]) ==> r[i] == s[i]
    ensures forall i :: 0 <= i < |s| && IsUpper(s[i]) ==> r[i] as int == s[i] as int + 32
  {
    seq(|s|, i requires 0 <= i < |s| => LowerChar(s[i]))
  }

  /**
    A text lower-cases to a lower-case word exactly when it spells that word
    letter by letter, each letter as written or in upper case.
  */
  lemma ToLowerMatches(s: string, w: string)
    requires NoUpper(w)
    ensures ToLower(s) == w <==>
              |s| == |w| && forall i :: 0 <= i < |s| ==> s[i] == w[i] || s[i] == UpperChar(w[i])
  {
    if |s| == |w| {
      forall i | 0 <= i < |s|
        ensures ToLower(s)[i] == w[i] <==> (s[i] == w[i] || s[i] == UpperChar(w[i]))
      {
      }
      if forall i :: 0 <= i < |s| ==> s[i] == w[i] || s[i] == UpperChar(w[i]) {
        assert forall i :: 0 <= i < |s| ==> ToLower(s)[i] == w[i];
      }
    }
  }

  /** The eight spellings of `get` in any mix of cases. */
  const GetSpellings: set<string> := {"get", "geT", "gEt", "gET", "Get", "GeT", "GEt", "GET"}

  /** A method lower-cases to `'get'` exactly when it is one of the eight case variants of `get`. */
  lemma LowerGetSpellings(m: string)
    ensures ToLower(m) == "get" <==> m in GetSpellings
  {
    ToLowerMatches(m, "get");
    if |m| == 3 {
      assert m == [m[0], m[1], m[2]];
    }
  }

  /** Rendering a number in decimal loses nothing: reading it back gives the number. */
  lemma {:induction false} DecimalValueOfNatToString(n: nat)
    ensures DecimalValue(NatToString(n)) == n
    decreases n
  {
    if n >= 10 {
      var s := NatToString(n);
      assert s[..|s| - 1] == NatToString(n / 10);
      DecimalValueOfNatToString(n / 10);
    }
  }

  /** Distinct numbers render as distinct strings. */
  lemma NatToStringInjective(m: nat, n: nat)
    requires NatToString(m) == NatToString(n)
    ensures m == n
  {
    DecimalValueOfNatToString(m);
    DecimalValueOfNatToString(n);
  }
}
