/**
 * The pieces of Ruby's core library that `CheckMySQL#run` relies on:
 * truthiness (for `config[:x] && ...`), `String#to_i` (for the port),
 * `nil.to_f`, and `Array#inspect` / `String#inspect` (for the result text
 * interpolated into the status messages).
 */
module RubyValues {
  import opened Wrappers

  /** A Ruby object as the threshold evaluator may return it. */
  datatype RubyObject = NilObject | BoolObject(b: bool) | NumberObject(n: real) | StringObject(s: string)

  /** Ruby truthiness: only `nil` and `false` are falsy; `0` and `""` are truthy. */
  predicate Truthy(o: RubyObject)
    ensures o.NilObject? ==> !Truthy(o)
    ensures o.BoolObject? ==> (Truthy(o) <==> o.b)
    ensures o.NumberObject? || o.StringObject? ==> Truthy(o)
  {
    o != NilObject && o != BoolObject(false)
  }

  /** A result field as the driver hands it to Ruby: a String, or nil for SQL NULL. */
  type Field = Option<string>

  // ---------------------------------------------------------------------------
  // String#to_i

  predicate IsDigit(c: char)
  {
    '0' <= c <= '9'
  }

  predicate IsSpace(c: char)
  {
    c == ' ' || c == '\t' || c == '\n' || c == '\r' || c == '\U{000B}' || c == '\U{000C}'
  }

  function DigitValue(c: char): (d: nat)
    requires IsDigit(c)
    ensures d < 10
  {
    c as int - '0' as int
  }

  function DigitChar(d: nat): (c: char)
    requires d < 10
    ensures IsDigit(c) && DigitValue(c) == d
  {
    ('0' as int + d) as char
  }

  predicate AllDigits(s: string)
  {
    forall i :: 0 <= i < |s| ==> IsDigit(s[i])
  }

  /**
   * The numeral at the head of `s`: its digits, with every underscore that
   * stands between two digits dropped. Reading stops at the first other character.
   */
  function LeadingDigits(s: string): (ds: string)
    ensures AllDigits(ds)
    ensures |ds| <= |s|
    ensures |ds| > 0 <==> |s| > 0 && IsDigit(s[0])
  {
    if |s| == 0 || !IsDigit(s[0]) then ""
    else if |s| >= 3 && s[1] == '_' && IsDigit(s[2]) then [s[0]] + LeadingDigits(s[2..])
    else [s[0]] + LeadingDigits(s[1..])
  }

  /** The value of a decimal numeral, most significant digit first. */
  function DigitsValue(ds: string): nat
    requires AllDigits(ds)
  {
    if |ds| == 0 then 0 else 10 * DigitsValue(ds[..|ds| - 1]) + DigitValue(ds[|ds| - 1])
  }

  function TrimLeadingSpace(s: string): (t: string)
    ensures |t| <= |s| && t == s[|s| - |t|..]
    ensures |t| > 0 ==> !IsSpace(t[0])
  {
    if |s| > 0 && IsSpace(s[0]) then TrimLeadingSpace(s[1..]) else s
  }

  /**
   * `String#to_i`: skips leading white space, reads an optional sign and the
   * numeral after it; a string with no numeral there gives 0.
   */
  function ToI(s: string): (n: int)
    ensures var t := TrimLeadingSpace(s);
      n != 0 ==> (|t| > 0 && IsDigit(t[0])) || (|t| > 1 && (t[0] == '-' || t[0] == '+') && IsDigit(t[1]))
    ensures n < 0 ==> var t := TrimLeadingSpace(s); |t| > 0 && t[0] == '-'
  {
    var t := TrimLeadingSpace(s);
    if |t| > 0 && (t[0] == '-' || t[0] == '+') then
      var m: int := DigitsValue(LeadingDigits(t[1..]));
      if t[0] == '-' then -m else m
    else
      DigitsValue(LeadingDigits(t))
  }

  /** The canonical decimal numeral of `n` (no sign, no leading zeros). */
  function Decimal(n: nat): (s: string)
    ensures |s| > 0 && AllDigits(s)
  {
    if n < 10 then [DigitChar(n)] else Decimal(n / 10) + [DigitChar(n % 10)]
  }

  lemma {:induction false} DecimalValue(n: nat)
    ensures DigitsValue(Decimal(n)) == n
  {
    if n >= 10 {
      var s := Decimal(n);
      assert s[..|s| - 1] == Decimal(n / 10);
      DecimalValue(n / 10);
    }
  }

  /** What may follow a numeral without being read as part of it. */
  predicate EndsNumeral(rest: string)
  {
    |rest| == 0 || (!IsDigit(rest[0]) && !(rest[0] == '_' && |rest| >= 2 && IsDigit(rest[1])))
  }

  /**
   * A numeral followed by anything that cannot continue it (the end of the
   * string, or a character that is neither a digit nor an underscore
   * followed by a digit) is read back whole.
   */
  lemma {:induction false} LeadingDigitsOfNumeral(ds: string, rest: string)
    requires |ds| > 0 && AllDigits(ds)
    requires EndsNumeral(rest)
    ensures LeadingDigits(ds + rest) == ds
  {
    var s := ds + rest;
    if |ds| == 1 {
      assert s[1..] == rest;
      assert LeadingDigits(rest) == "";
    } else {
      assert s[1] == ds[1];
      assert s[1..] == ds[1..] + rest;
      LeadingDigitsOfNumeral(ds[1..], rest);
    }
  }

  lemma ToIUnsigned(s: string)
    requires |s| > 0 && IsDigit(s[0])
    ensures ToI(s) == DigitsValue(LeadingDigits(s))
  {
    assert !IsSpace(s[0]) && s[0] != '-' && s[0] != '+';
    assert TrimLeadingSpace(s) == s;
  }

  lemma ToINegative(s: string)
    requires |s| > 0 && IsDigit(s[0])
    ensures ToI("-" + s) == -(DigitsValue(LeadingDigits(s)) as int)
  {
    var t := "-" + s;
    assert TrimLeadingSpace(t) == t;
    assert t[1..] == s;
  }

  /** `to_i` reads back what `to_s` writes, whatever follows that cannot continue the numeral. */
  lemma ToIDecimal(n: nat, rest: string)
    requires EndsNumeral(rest)
    ensures ToI(Decimal(n) + rest) == n
  {
    var ds := Decimal(n);
    ToIUnsigned(ds + rest);
    LeadingDigitsOfNumeral(ds, rest);
    DecimalValue(n);
  }

  /** The same for a negative number written with a minus sign. */
  lemma ToINegativeDecimal(n: nat, rest: string)
    requires EndsNumeral(rest)
    ensures ToI("-" + Decimal(n) + rest) == -(n as int)
  {
    var ds := Decimal(n);
    assert "-" + ds + rest == "-" + (ds + rest);
    ToINegative(ds + rest);
    LeadingDigitsOfNumeral(ds, rest);
    DecimalValue(n);
  }

  // ---------------------------------------------------------------------------
  // nil.to_f

  /** `field.to_f`: a String is coerced by the given `String#to_f`; nil gives 0.0. */
  function FieldToF(f: Field, toF: string -> real): (r: real)
    ensures f.None? ==> r == 0.0
    ensures f.Some? ==> r == toF(f.value)
  {
    match f
    case None => 0.0
    case Some(s) => toF(s)
  }

  // ---------------------------------------------------------------------------
  // Array#inspect of rows of fields (what `"#{res.values}"` prints)

  /**
   * `String#inspect` for one character: quote, backslash and the common
   * control characters are escaped; `#` is escaped when it would start an
   * interpolation (`#{`, `#$`, `#@`).
   */
  function EscapeChar(c: char, next: Option<char>): string
  {
    if c == '"' then "\\\""
    else if c == '\\' then "\\\\"
    else if c == '\n' then "\\n"
    else if c == '\t' then "\\t"
    else if c == '\r' then "\\r"
    else if c == '#' && next.Some? && (next.value == '{' || next.value == '$' || next.value == '@') then "\\#"
    else [c]
  }

  function Escape(s: string): string
  {
    if |s| == 0 then ""
    else EscapeChar(s[0], if |s| > 1 then Some(s[1]) else None) + Escape(s[1..])
  }

  function InspectField(f: Field): string
  {
    match f
    case None => "nil"
    case Some(s) => "\"" + Escape(s) + "\""
  }

  function JoinFields(fs: seq<Field>): string
  {
    if |fs| == 0 then ""
    else if |fs| == 1 then InspectField(fs[0])
    else InspectField(fs[0]) + ", " + JoinFields(fs[1..])
  }

  function JoinRows(rows: seq<seq<Field>>): string
  {
    if |rows| == 0 then ""
    else if |rows| == 1 then InspectRow(rows[0])
    else InspectRow(rows[0]) + ", " + JoinRows(rows[1..])
  }

  function InspectRow(fs: seq<Field>): string
  {
    "[" + JoinFields(fs) + "]"
  }

  /** `rows.inspect` for an array of arrays of Strings and nils. */
  function Inspect(rows: seq<seq<Field>>): (r: string)
    ensures |r| >= 2 && r[0] == '[' && r[|r| - 1] == ']'
  {
    "[" + JoinRows(rows) + "]"
  }
}
