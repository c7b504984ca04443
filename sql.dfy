/**
 * How the sqlite3 driver and SQLite treat the Python values bound as query
 * parameters: which values can be bound at all, what a TEXT column stores,
 * and what an INTEGER comparison sees.
 */
module Sql {
  import opened Wrappers
  import opened Text
  import opened Json

  /** A bound parameter: SQL NULL, an integer (Python `bool` binds as 0 or 1), or text. */
  datatype SqlValue = Null | Integer(i: int) | Text(s: string)

  /** The range of SQLite's 64-bit signed INTEGER. */
  const MinInt64: int := -0x8000_0000_0000_0000
  const MaxInt64: int := 0x7FFF_FFFF_FFFF_FFFF

  predicate FitsInt64(i: int) {
    MinInt64 <= i <= MaxInt64
  }

  /** Binding a decoded value: lists and dicts are refused by the driver, and so is an integer outside
      the 64-bit range (`None` here). */
  function Bind(j: Json): (r: Option<SqlValue>)
    ensures r.None? <==> (j.JList? || j.JObject? || (j.JInt? && !FitsInt64(j.i)))
    ensures r.Some? && j.JInt? ==> r.value == Integer(j.i)
  {
    match j
    case JNull => Some(Null)
    case JBool(b) => Some(Integer(if b then 1 else 0))
    case JInt(i) => if FitsInt64(i) then Some(Integer(i)) else None
    case JString(s) => Some(Text(s))
    case JList(_) => None
    case JObject(_) => None
  }

  /** The message sqlite3 raises when parameter `index` (1-based) cannot be bound. */
  function BindErrorMessage(index: nat, j: Json): string {
    "Error binding parameter " + IntToString(index) + ": type '" + TypeName(j) + "' is not supported"
  }

  /** What a column with TEXT affinity stores for a bound value: NULL stays NULL, an integer becomes its decimal text. */
  function TextValue(v: SqlValue): (r: Option<string>)
    ensures r.None? <==> v.Null?
  {
    match v
    case Null => None
    case Integer(i) => Some(IntToString(i))
    case Text(s) => Some(s)
  }

  predicate IsDigit(c: char) { '0' <= c <= '9' }

  /** Every character of `s` is a decimal digit (true of the empty string). */
  predicate AllDigits(s: string) {
    forall i :: 0 <= i < |s| ==> IsDigit(s[i])
  }

  function DigitValue(c: char): (d: nat)
    requires IsDigit(c)
    ensures d < 10
  {
    c as int - '0' as int
  }

  /** The value of a string of decimal digits. */
  function DigitsValue(s: string): (n: nat)
    requires AllDigits(s)
    decreases |s|
  {
    if s == [] then 0 else DigitsValue(s[..|s| - 1]) * 10 + DigitValue(s[|s| - 1])
  }

  lemma DigitRoundTrip(d: nat)
    requires d < 10
    ensures IsDigit(Digit(d)) && DigitValue(Digit(d)) == d
  {
  }

  /** Reading the decimal text of a natural number back as digits gives the number. */
  lemma {:induction false} NatToStringValue(n: nat)
    ensures DigitsValue(NatToString(n)) == n
    decreases n
  {
    var s := NatToString(n);
    DigitRoundTrip(n % 10);
    if n >= 10 {
      NatToStringValue(n / 10);
      assert s[..|s| - 1] == NatToString(n / 10);
    } else {
      assert s[..|s| - 1] == [];
    }
  }

  /** The integer a bound value denotes when compared with an INTEGER column (`WHERE id = ?`); text counts only when it is an optionally signed run of digits. */
  function IntegerKey(v: SqlValue): (r: Option<int>)
    ensures v.Integer? ==> r == Some(v.i)
    ensures v.Null? ==> r.None?
  {
    match v
    case Null => None
    case Integer(i) => Some(i)
    case Text(s) =>
      if s != [] && AllDigits(s) then Some(DigitsValue(s))
      else if |s| > 1 && s[0] == '-' && AllDigits(s[1..]) then Some(0 - DigitsValue(s[1..]))
      else None
  }

  /** An integer written with `str()` into a TEXT column reads back as the same integer when compared
      with an INTEGER column: the round trip of the ids the tools render and the model passes back. */
  lemma IntToStringRoundTrip(i: int)
    ensures IntegerKey(SqlValue.Text(IntToString(i))) == Some(i)
  {
    if i < 0 {
      NegativeKey(i);
    } else {
      NonNegativeKey(i);
    }
  }

  /** `str()` of a negative integer is a minus sign before the digits of its magnitude. */
  lemma NegativeKey(i: int)
    requires i < 0
    ensures IntegerKey(SqlValue.Text(IntToString(i))) == Some(i)
  {
    var t := NatToString(-i);
    assert IntToString(i) == "-" + t;
    NegatedDigitsKey(t);
    NatToStringValue(-i);
  }

  /** `str()` of a non-negative integer is its digits. */
  lemma NonNegativeKey(i: int)
    requires i >= 0
    ensures IntegerKey(SqlValue.Text(IntToString(i))) == Some(i)
  {
    var t := NatToString(i);
    assert IntToString(i) == t;
    DigitsKey(t);
    NatToStringValue(i);
  }

  /** A run of digits reads as its value. */
  lemma DigitsKey(t: string)
    requires t != [] && AllDigits(t)
    ensures IntegerKey(SqlValue.Text(t)) == Some(DigitsValue(t))
  {
  }

  /** A minus sign before a run of digits reads as the negated value. */
  lemma NegatedDigitsKey(t: string)
    requires t != [] && AllDigits(t)
    ensures IntegerKey(SqlValue.Text("-" + t)) == Some(0 - DigitsValue(t))
  {
    var s := "-" + t;
    assert s[1..] == t;
    assert !IsDigit(s[0]);
  }

  /** Python's `str()` of a decoded scalar, as f-strings render tool arguments. */
  function PyStr(j: Json): string
    requires !j.JList? && !j.JObject?
  {
    match j
    case JNull => "None"
    case JBool(b) => if b then "True" else "False"
    case JInt(i) => IntToString(i)
    case JString(s) => s
  }

  /** The errors the store raises: a NOT NULL constraint, a parameter of a type the driver cannot bind,
      or an integer parameter too wide for SQLite (Python's `OverflowError`). */
  datatype SqlError = NotNull(table: string, column: string) | Unbindable(index: nat, value: Json) | Overflow

  /** `str(e)` for the raised exception. */
  function ErrorMessage(e: SqlError): (m: string)
    ensures m != []
  {
    match e
    case NotNull(t, c) => "NOT NULL constraint failed: " + t + "." + c
    case Unbindable(i, j) => BindErrorMessage(i, j)
    case Overflow => "Python int too large to convert to SQLite INTEGER"
  }

  /** The exception for a value that cannot be bound at 1-based position `index`. */
  function BindError(j: Json, index: nat): (e: SqlError)
    requires Bind(j).None?
    ensures e.Overflow? <==> j.JInt?
    ensures e.Unbindable? ==> e == Unbindable(index, j) && (j.JList? || j.JObject?)
  {
    if j.JInt? then Overflow else Unbindable(index, j)
  }

  /** Binds a parameter at 1-based position `index`, or reports that it cannot be bound. */
  function BindAt(j: Json, index: nat): (r: Result<SqlValue, SqlError>)
    ensures r.Failure? <==> (j.JList? || j.JObject? || (j.JInt? && !FitsInt64(j.i)))
    ensures r.Failure? ==> Bind(j).None? && r.error == BindError(j, index)
    ensures r.Success? ==> Bind(j) == Some(r.value)
  {
    match Bind(j)
    case Some(v) => Success(v)
    case None => Failure(BindError(j, index))
  }
}
