/** The loosely typed values that `requests`' `.json()` hands to the bot, and the few
    pieces of Python semantics the bot applies to them: truthiness, `dict.get`,
    `type(v).__name__` and `str(v)`. */
module Json {

  /** A decoded JSON value: `None`, `bool`, `int`, `str`, `list` or `dict` in Python. */
  datatype JValue =
    | JNull
    | JBool(b: bool)
    | JInt(i: int)
    | JStr(s: string)
    | JList(items: seq<JValue>)
    | JObj(fields: map<string, JValue>)

  /** Python's `bool(v)`: `None`, `False`, `0`, `''`, `[]` and `{}` are falsy. */
  predicate Truthy(v: JValue)
    ensures !Truthy(v) <==> v in {JNull, JBool(false), JInt(0), JStr(""), JList([]), JObj(map[])}
  {
    match v
    case JNull => false
    case JBool(b) => b
    case JInt(i) => i != 0
    case JStr(s) => s != ""
    case JList(items) => items != []
    case JObj(fields) => fields != map[]
  }

  /** `d.get(key)` on a dict: the value under `key`, or `None` when the key is absent. */
  function Get(fields: map<string, JValue>, key: string): (v: JValue)
    ensures key in fields ==> v == fields[key]
    ensures key !in fields ==> v == JNull && !Truthy(v)
  {
    if key in fields then fields[key] else JNull
  }

  /** `type(v).__name__`, as it appears in Python's own error messages. */
  function TypeName(v: JValue): (name: string)
    ensures name in {"NoneType", "bool", "int", "str", "list", "dict"}
    ensures name == "dict" <==> v.JObj?
    ensures name == "list" <==> v.JList?
    ensures name == "str" <==> v.JStr?
  {
    match v
    case JNull => "NoneType"
    case JBool(_) => "bool"
    case JInt(_) => "int"
    case JStr(_) => "str"
    case JList(_) => "list"
    case JObj(_) => "dict"
  }

  function DigitChar(d: nat): (c: char)
    requires d < 10
    ensures '0' <= c <= '9'
  {
    (('0' as int) + d) as char
  }

  predicate AllDigits(s: string) {
    forall k :: 0 <= k < |s| ==> '0' <= s[k] <= '9'
  }

  /** Decimal digits as `str()` writes them: at least one, and no leading zero. */
  predicate Canonical(s: string) {
    |s| >= 1 && AllDigits(s) && (|s| > 1 ==> s[0] != '0')
  }

  /** The decimal digits of `n`, most significant first, without leading zeros. */
  function Digits(n: nat): (s: string)
    ensures Canonical(s)
    decreases n
  {
    if n < 10 then [DigitChar(n)] else Digits(n / 10) + [DigitChar(n % 10)]
  }

  /** The number a string of decimal digits denotes: the inverse of `Digits`. */
  function DigitsValue(s: string): nat
    requires AllDigits(s)
  {
    if s == [] then 0
    else DigitsValue(s[..|s| - 1]) * 10 + (s[|s| - 1] as int - '0' as int)
  }

  lemma {:induction false} DigitsRoundTrip(n: nat)
    ensures DigitsValue(Digits(n)) == n
    decreases n
  {
    if n >= 10 {
      var front := Digits(n / 10);
      var s := front + [DigitChar(n % 10)];
      assert s[..|s| - 1] == front;
      DigitsRoundTrip(n / 10);
    }
  }

  /** `str(i)` for a Python `int`. */
  function Decimal(i: int): (s: string)
    ensures i >= 0 ==> Canonical(s) && DigitsValue(s) == i
    ensures i < 0 ==> |s| >= 2 && s[0] == '-' && Canonical(s[1..]) && DigitsValue(s[1..]) == -i
  {
    if i < 0 then
      DigitsRoundTrip(-i);
      assert ("-" + Digits(-i))[1..] == Digits(-i);
      "-" + Digits(-i)
    else
      DigitsRoundTrip(i);
      Digits(i)
  }

  /** `str(v)` as an f-string interpolation renders it. Strings render as themselves,
      numbers in decimal, booleans and `None` by their Python names. Arrays and objects
      are rendered only as `[...]` and `{...}`: Python's `repr` of a container is not
      modelled. */
  function Render(v: JValue): (r: string)
    ensures v.JStr? ==> r == v.s
    ensures v.JInt? && v.i >= 0 ==> Canonical(r) && DigitsValue(r) == v.i
    ensures v.JInt? && v.i < 0 ==> |r| >= 2 && r[0] == '-' && Canonical(r[1..]) && DigitsValue(r[1..]) == -v.i
    ensures v.JBool? ==> r == (if v.b then "True" else "False")
    ensures v.JNull? ==> r == "None"
  {
    match v
    case JNull => "None"
    case JBool(b) => if b then "True" else "False"
    case JInt(i) => Decimal(i)
    case JStr(s) => s
    case JList(_) => "[...]"
    case JObj(_) => "{...}"
  }
}
