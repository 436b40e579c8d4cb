/** `_get_env(key, default=None, cast_type=str)` of
    lumen_logger/logging_conf.py, over the Python values it meets: the
    environment holds strings, defaults are `None`, bools, ints or strings,
    and the casts are `str`, `bool` and `int`. */
module Env {
  import opened Options
  import opened Ascii

  datatype PyValue = PyNone | PyBool(b: bool) | PyInt(i: int) | PyStr(s: string)

  datatype CastType = StrCast | BoolCast | IntCast

  /** The strings the bool cast accepts as true, after lower-casing. */
  const TrueWords: set<string> := {"1", "true", "yes"}

  predicate IsDigit(c: char) { '0' <= c <= '9' }

  predicate AllDigits(s: string) { forall i :: 0 <= i < |s| ==> IsDigit(s[i]) }

  /** The value of a string of decimal digits. */
  function DigitsValue(s: string): nat
    requires AllDigits(s)
  {
    if s == [] then 0 else DigitsValue(s[..|s| - 1]) * 10 + (s[|s| - 1] as int - '0' as int)
  }

  /** The decimal digits of `n`, without leading zeros. */
  function NatDigits(n: nat): (s: string)
    ensures |s| >= 1 && AllDigits(s)
    ensures |s| > 1 ==> s[0] != '0'
  {
    if n < 10 then [('0' as int + n) as char]
    else NatDigits(n / 10) + [('0' as int + n % 10) as char]
  }

  /** The literals `int()` accepts here: an optional sign and one or more
      ASCII digits. */
  predicate IsIntLiteral(s: string)
  {
    |s| >= 1 && (if s[0] == '+' || s[0] == '-' then |s| >= 2 && AllDigits(s[1..]) else AllDigits(s))
  }

  /** `int(s)` on a string; `None` where Python raises `ValueError`. */
  function ParseInt(s: string): (r: Option<int>)
    ensures r.Some? <==> IsIntLiteral(s)
    ensures r.Some? && s[0] == '-' ==> r.value <= 0
    ensures r.Some? && s[0] != '-' ==> r.value >= 0
  {
    if !IsIntLiteral(s) then None
    else if s[0] == '-' then Some(0 - DigitsValue(s[1..]) as int)
    else if s[0] == '+' then Some(DigitsValue(s[1..]) as int)
    else Some(DigitsValue(s) as int)
  }

  /** `str(i)`. */
  function Decimal(i: int): (s: string)
    ensures IsIntLiteral(s)
    ensures s[0] != '+'
  {
    if i < 0 then "-" + NatDigits(-i) else NatDigits(i)
  }

  lemma {:induction false} NatDigitsRoundTrip(n: nat)
    ensures DigitsValue(NatDigits(n)) == n
  {
    if n >= 10 {
      var s := NatDigits(n);
      assert s[..|s| - 1] == NatDigits(n / 10);
      NatDigitsRoundTrip(n / 10);
    }
  }

  /** `int(str(i)) == i` for every integer. */
  lemma DecimalRoundTrip(i: int)
    ensures ParseInt(Decimal(i)) == Some(i)
  {
    if i < 0 {
      assert Decimal(i)[1..] == NatDigits(-i);
      NatDigitsRoundTrip(-i);
    } else {
      NatDigitsRoundTrip(i);
    }
  }

  /** `str(v)`. */
  function PyStrOf(v: PyValue): string
  {
    match v
    case PyNone => "None"
    case PyBool(b) => if b then "True" else "False"
    case PyInt(i) => Decimal(i)
    case PyStr(s) => s
  }

  /** `int(v)`; `None` where Python raises (`int(None)`, a malformed string). */
  function PyIntOf(v: PyValue): Option<int>
  {
    match v
    case PyNone => None
    case PyBool(b) => Some(if b then 1 else 0)
    case PyInt(i) => Some(i)
    case PyStr(s) => ParseInt(s)
  }

  /** The `try` block: the cast, or `None` where it raises. */
  function Cast(v: PyValue, cast: CastType): Option<PyValue>
  {
    match cast
    case BoolCast => Some(PyBool(Lower(PyStrOf(v)) in TrueWords))
    case IntCast => (match PyIntOf(v) case Some(n) => Some(PyInt(n)) case None => None)
    case StrCast => Some(PyStr(PyStrOf(v)))
  }

  /** `_get_env(key, default, cast_type)` for the environment `env`. */
  function GetEnv(env: map<string, string>, key: string, default: PyValue, cast: CastType): (r: PyValue)
    ensures key !in env && default == PyNone ==> r == PyNone
    ensures key in env && cast == BoolCast ==> r == PyBool(Lower(env[key]) in TrueWords)
    ensures key in env && cast == IntCast ==> r == (match ParseInt(env[key]) case Some(n) => PyInt(n) case None => default)
    ensures key in env && cast == StrCast ==> r == PyStr(env[key])
    ensures cast == BoolCast && (key in env || default != PyNone) ==> r.PyBool?
    ensures cast == IntCast ==> r.PyInt? || r == default
    ensures cast == StrCast && (key in env || default != PyNone) ==> r.PyStr?
  {
    var value := if key in env then PyStr(env[key]) else default;
    if value == PyNone then default
    else match Cast(value, cast)
      case Some(c) => c
      case None => default
  }

  /** An unset variable hands its default through the cast unchanged when
      the default already has the cast's type: `True` stays `True`, `10`
      stays `10`, `"INFO"` stays `"INFO"`. */
  lemma DefaultPassesThrough(env: map<string, string>, key: string, default: PyValue, cast: CastType)
    requires key !in env
    requires (cast == BoolCast && default.PyBool?) || (cast == IntCast && default.PyInt?) || (cast == StrCast && default.PyStr?)
    ensures GetEnv(env, key, default, cast) == default
  {
    if cast == BoolCast {
      assert Lower("True") == "true";
      assert Lower("False") != "1" && Lower("False") != "true" && Lower("False") != "yes" by {
        assert |Lower("False")| == 5;
        assert Lower("False")[0] == 'f';
      }
    }
  }

  /** A set variable that reads as no integer makes the int cast fall back
      to the default; one that does is read as that integer. */
  lemma IntCastFallsBack(env: map<string, string>, key: string, default: PyValue)
    requires key in env
    ensures !IsIntLiteral(env[key]) ==> GetEnv(env, key, default, IntCast) == default
    ensures IsIntLiteral(env[key]) ==> GetEnv(env, key, default, IntCast) == PyInt(ParseInt(env[key]).value)
  {
  }
}
