/** JavaScript value semantics that the client's decision rules depend on:
    truthiness, `||` defaulting, `Number(...)` and `String(...)` conversions,
    `parseInt`, `trim`, `toLowerCase`, `includes` and string comparison. */
module Js {

  datatype Option<T> = None | Some(value: T)

  /** A JavaScript number. The model keeps integers only; `NaN` is the
      result of every conversion that does not yield an integer. */
  datatype Number = NaN | Int(i: int)

  /** The JavaScript values that appear in filter objects and payloads. */
  datatype Value = Str(s: string) | Num(n: Number) | Bool(b: bool)

  /** A plain JavaScript object; a key that is absent reads as `undefined`. */
  type Object = map<string, Value>

  /** `!!v` */
  predicate Truthy(v: Value) {
    match v
    case Str(s) => s != ""
    case Num(n) => n.Int? && n.i != 0
    case Bool(b) => b
  }

  /** `!!o[k]`, where a missing key reads as the falsy `undefined` */
  predicate TruthyAt(o: Object, k: string) {
    k in o && Truthy(o[k])
  }

  /** `o[k] || d` */
  function OrDefault(o: Object, k: string, d: Value): (r: Value)
    ensures TruthyAt(o, k) ==> r == o[k]
    ensures !TruthyAt(o, k) ==> r == d
  {
    if TruthyAt(o, k) then o[k] else d
  }

  /** `o[k]`, `None` standing for `undefined`. */
  function Prop(o: Object, k: string): (r: Option<Value>)
    ensures r.Some? <==> k in o
    ensures k in o ==> r.value == o[k]
  {
    if k in o then Some(o[k]) else None
  }

  /** `a === b` between two possibly `undefined` values: the same value, or
      both `undefined`, except that NaN equals nothing. */
  predicate StrictEquals(a: Option<Value>, b: Option<Value>) {
    a == b && a != Some(Num(NaN))
  }

  /** `a < b` on two numbers: false whenever either side is NaN. */
  predicate NumLess(a: Number, b: Number) {
    a.Int? && b.Int? && a.i < b.i
  }

  // ---------------------------------------------------------------------
  // Characters

  /** The characters JavaScript's `trim` and the regular-expression class
      `\s` treat as white space (WhiteSpace and LineTerminator). */
  predicate IsSpace(c: char) {
    c == ' ' || c == '\t' || c == '\n' || c == '\r' || c == '\U{000B}' || c == '\U{000C}'
    || c == '\U{00A0}' || c == '\U{1680}' || ('\U{2000}' <= c <= '\U{200A}')
    || c == '\U{2028}' || c == '\U{2029}' || c == '\U{202F}' || c == '\U{205F}'
    || c == '\U{3000}' || c == '\U{FEFF}'
  }

  predicate IsDigit(c: char) {
    '0' <= c <= '9'
  }

  function DigitValue(c: char): (d: nat)
    requires IsDigit(c)
    ensures d < 10
  {
    (c as int) - ('0' as int)
  }

  function DigitChar(d: nat): (c: char)
    requires d < 10
    ensures IsDigit(c) && DigitValue(c) == d
  {
    (('0' as int) + d) as char
  }

  predicate AllDigits(s: string) {
    forall i :: 0 <= i < |s| ==> IsDigit(s[i])
  }

  // ---------------------------------------------------------------------
  // trim

  function TrimStart(s: string): (r: string)
    ensures |r| <= |s| && r == s[|s| - |r|..]
    ensures r == [] || !IsSpace(r[0])
    ensures forall i :: 0 <= i < |s| - |r| ==> IsSpace(s[i])
  {
    if s != [] && IsSpace(s[0]) then TrimStart(s[1..]) else s
  }

  function TrimEnd(s: string): (r: string)
    ensures |r| <= |s| && r == s[..|r|]
    ensures r == [] || !IsSpace(r[|r| - 1])
    ensures forall i :: |r| <= i < |s| ==> IsSpace(s[i])
  {
    if s != [] && IsSpace(s[|s| - 1]) then TrimEnd(s[..|s| - 1]) else s
  }

  /** `s.trim()` */
  function Trim(s: string): (r: string)
  {
    TrimEnd(TrimStart(s))
  }

  /** Trimming yields the empty string exactly when every character is white space. */
  lemma {:induction false} TrimEmptyIff(s: string)
    ensures Trim(s) == "" <==> forall i :: 0 <= i < |s| ==> IsSpace(s[i])
  {
    var t := TrimStart(s);
    if Trim(s) != "" {
      var k := |s| - |t|;
      assert s[k] == t[0];
    }
  }

  // ---------------------------------------------------------------------
  // toLowerCase

  /** Lower-case mapping of one character. Covers ASCII, Latin-1, the
      case pairs of Latin Extended-A, the Vietnamese letters Ơ and Ư, and
      the Vietnamese block of Latin Extended Additional; every other
      character is left unchanged. */
  function LowerChar(c: char): char {
    var n := c as int;
    if 'A' <= c <= 'Z' then (n + 32) as char
    else if 0xC0 <= n <= 0xDE && n != 0xD7 then (n + 32) as char
    else if (0x100 <= n <= 0x12F || 0x132 <= n <= 0x137 || 0x14A <= n <= 0x177) && n % 2 == 0 then (n + 1) as char
    else if (0x139 <= n <= 0x148 || 0x179 <= n <= 0x17E) && n % 2 == 1 then (n + 1) as char
    else if n == 0x178 then 0xFF as char
    else if n == 0x1A0 || n == 0x1AF then (n + 1) as char
    else if 0x1EA0 <= n <= 0x1EFF && n % 2 == 0 then (n + 1) as char
    else c
  }

  /** `s.toLowerCase()` (character by character, see LowerChar) */
  function ToLower(s: string): (r: string)
    ensures |r| == |s|
    ensures forall i :: 0 <= i < |s| ==> r[i] == LowerChar(s[i])
  {
    if s == [] then [] else [LowerChar(s[0])] + ToLower(s[1..])
  }

  // ---------------------------------------------------------------------
  // includes, join, comparison

  /** `s.includes(sub)` */
  predicate Includes(s: string, sub: string) {
    exists i :: 0 <= i <= |s| - |sub| && OccursAt(s, sub, i)
  }

  predicate OccursAt(s: string, sub: string, i: int)
    requires 0 <= i <= |s| - |sub|
  {
    s[i..i + |sub|] == sub
  }

  /** `parts.join(sep)` */
  function Join(parts: seq<string>, sep: string): (r: string)
    ensures parts == [] ==> r == ""
    ensures |parts| == 1 ==> r == parts[0]
  {
    if parts == [] then ""
    else if |parts| == 1 then parts[0]
    else parts[0] + sep + Join(parts[1..], sep)
  }

  /** `a < b` on two strings: lexicographic order of their characters. */
  predicate LexLess(a: string, b: string) {
    if a == [] then b != []
    else if b == [] then false
    else if a[0] != b[0] then a[0] < b[0]
    else LexLess(a[1..], b[1..])
  }

  lemma {:induction false} LexLessIrreflexive(a: string)
    ensures !LexLess(a, a)
  {
    if a != [] {
      LexLessIrreflexive(a[1..]);
    }
  }

  lemma {:induction false} LexLessTransitive(a: string, b: string, c: string)
    requires LexLess(a, b) && LexLess(b, c)
    ensures LexLess(a, c)
  {
    if a != [] && b != [] && c != [] && a[0] == b[0] && b[0] == c[0] {
      LexLessTransitive(a[1..], b[1..], c[1..]);
    }
  }

  lemma {:induction false} LexLessTotal(a: string, b: string)
    requires a != b
    ensures LexLess(a, b) || LexLess(b, a)
  {
    if a != [] && b != [] && a[0] == b[0] {
      assert a == [a[0]] + a[1..] && b == [b[0]] + b[1..];
      LexLessTotal(a[1..], b[1..]);
    }
  }

  // ---------------------------------------------------------------------
  // Number(...) and String(...)

  /** The value of a non-empty string of decimal digits. */
  function DigitsValue(s: string): (n: nat)
    requires AllDigits(s)
  {
    if s == [] then 0 else 10 * DigitsValue(s[..|s| - 1]) + DigitValue(s[|s| - 1])
  }

  /** `Number(s)` for a string: white space is trimmed, the empty string is 0,
      an optionally signed run of decimal digits is that integer, and every
      other string is NaN. */
  function StringToNumber(s: string): (n: Number)
    ensures Trim(s) == "" ==> n == Int(0)
  {
    TrimmedToNumber(Trim(s))
  }

  /** `Number` of a string that has already been trimmed. */
  function TrimmedToNumber(t: string): Number {
    if t == "" then Int(0)
    else if AllDigits(t) then Int(DigitsValue(t))
    else if |t| >= 2 && t[0] == '-' && AllDigits(t[1..]) then Int(-(DigitsValue(t[1..]) as int))
    else if |t| >= 2 && t[0] == '+' && AllDigits(t[1..]) then Int(DigitsValue(t[1..]))
    else NaN
  }

  /** `Number(v)` */
  function ToNumber(v: Value): Number {
    match v
    case Str(s) => StringToNumber(s)
    case Num(n) => n
    case Bool(b) => Int(if b then 1 else 0)
  }

  /** Decimal digits of a natural number, without leading zeros. */
  function NatToString(n: nat): (s: string)
    ensures s != [] && AllDigits(s)
    ensures DigitsValue(s) == n
    ensures n > 0 ==> s[0] != '0'
    decreases n
  {
    if n < 10 then [DigitChar(n)]
    else
      var p := NatToString(n / 10);
      var s := p + [DigitChar(n % 10)];
      assert s[..|s| - 1] == p;
      s
  }

  /** `String(i)` for an integer */
  function IntToString(i: int): (s: string)
    ensures s != []
    ensures i >= 0 <==> AllDigits(s)
  {
    if i >= 0 then NatToString(i)
    else
      var s := "-" + NatToString(-i);
      assert !IsDigit(s[0]);
      s
  }

  /** `String(n)` */
  function NumberToString(n: Number): string {
    match n
    case NaN => "NaN"
    case Int(i) => IntToString(i)
  }

  /** `String(v)`, as template literals and `setItem` convert values. */
  function ToText(v: Value): string {
    match v
    case Str(s) => s
    case Num(n) => NumberToString(n)
    case Bool(b) => if b then "true" else "false"
  }

  /** A string that neither starts nor ends with white space is its own trim. */
  lemma TrimOfUnspaced(s: string)
    requires s != [] && !IsSpace(s[0]) && !IsSpace(s[|s| - 1])
    ensures Trim(s) == s
  {
    assert TrimStart(s) == s;
  }

  /** Reading back the decimal text of an integer gives the integer. */
  lemma IntToStringRoundTrip(i: int)
    ensures StringToNumber(IntToString(i)) == Int(i)
  {
    var s := IntToString(i);
    TrimOfUnspaced(s);
    if i < 0 {
      assert s[1..] == NatToString(-i);
    }
  }

  lemma NaNTextRoundTrip()
    ensures StringToNumber("NaN") == NaN
  {
    NaNTextTrimmed();
    NaNTextNotNumeric();
  }

  lemma NaNTextTrimmed()
    ensures Trim("NaN") == "NaN"
  {
    var t := "NaN";
    assert t[0] == 'N' && t[|t| - 1] == 'N';
    TrimOfUnspaced(t);
  }

  lemma NaNTextNotNumeric()
    ensures TrimmedToNumber("NaN") == NaN
  {
    var t := "NaN";
    assert t[0] == 'N' && !IsDigit(t[0]);
  }

  /** `Number(String(n)) == n`: the decimal text of a number converts back
      to that number, NaN included. */
  lemma NumberTextRoundTrip(n: Number)
    ensures ToNumber(Str(NumberToString(n))) == n
  {
    match n
    case NaN => NaNTextRoundTrip();
    case Int(i) => IntToStringRoundTrip(i);
  }

  // ---------------------------------------------------------------------
  // parseInt

  /** The longest prefix of `s` made of decimal digits. */
  function DigitPrefix(s: string): (p: string)
    ensures AllDigits(p) && |p| <= |s| && p == s[..|p|]
    ensures |p| < |s| ==> !IsDigit(s[|p|])
  {
    if s != [] && IsDigit(s[0]) then
      var rest := DigitPrefix(s[1..]);
      assert ([s[0]] + rest)[1..] == rest;
      [s[0]] + rest
    else []
  }

  /** `parseInt(s)` on decimal text: leading white space is skipped, an
      optional sign is read, then the longest run of digits; no digits gives
      NaN. A `0x` prefix is not recognised. */
  function ParseInt(s: string): Number {
    var t := TrimStart(s);
    var neg := t != [] && t[0] == '-';
    var body := if t != [] && (t[0] == '-' || t[0] == '+') then t[1..] else t;
    var p := DigitPrefix(body);
    if p == [] then NaN else Int(if neg then -(DigitsValue(p) as int) else DigitsValue(p))
  }

  /** A string of digits has no leading white space to skip. */
  lemma DigitsUnspaced(s: string)
    requires s != [] && AllDigits(s)
    ensures TrimStart(s) == s && s[0] != '-' && s[0] != '+'
  {
    var c := s[0];
    assert '0' <= c <= '9';
    assert !IsSpace(c);
  }

  /** A string of digits is its own digit prefix. */
  lemma DigitPrefixOfDigits(s: string)
    requires AllDigits(s)
    ensures DigitPrefix(s) == s
  {
  }

  /** `parseInt(String(n)) == n` for the decimal text of a natural number. */
  lemma ParseIntOfNatText(n: nat)
    ensures ParseInt(NatToString(n)) == Int(n)
  {
    var s := NatToString(n);
    DigitsUnspaced(s);
    DigitPrefixOfDigits(s);
  }

  // ---------------------------------------------------------------------
  // Dates

  /** Reads date text the way `new Date(text)` does; `None` is an invalid
      date. */
  type DateParser = string -> Option<int>

  /** `new Date(v).getTime()` for a filter value. */
  function TimeOfValue(v: Value, parse: DateParser): (t: Number)
    ensures v.Str? && parse(v.s).Some? ==> t == Int(parse(v.s).value)
    ensures v.Str? && parse(v.s).None? ==> t == NaN
  {
    match v
    case Str(s) => if parse(s).Some? then Int(parse(s).value) else NaN
    case Num(n) => n
    case Bool(b) => Int(if b then 1 else 0)
  }

  /** `new Date(job.postDate).getTime()`: a missing date is invalid. */
  function TimeOfText(t: Option<string>, parse: DateParser): (r: Number)
    ensures t.None? ==> r == NaN
    ensures t.Some? ==> r == TimeOfValue(Str(t.value), parse)
  {
    if t.Some? then TimeOfValue(Str(t.value), parse) else NaN
  }
}
