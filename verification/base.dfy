/** Java-level vocabulary shared by the whole model: nullable references, the
    exceptions the application raises or lets escape, the decimal text of a
    `long`, and the 32-bit `int` arithmetic behind `hashCode`. */
module Base {

  datatype Option<+T> = None | Some(value: T)

  /** A `java.lang.String` reference; `None` is `null`. */
  type JString = Option<string>

  /** The exceptions that leave a call. */
  datatype Failure =
    | DaoError(cause: string)          // DaoException wrapping an SQLException with this message
    | IllegalArgument(message: string) // IllegalArgumentException thrown by a service guard
    | NullPointer                      // a null reference dereferenced or unboxed
    | NoSuchElement                    // Optional.get() on an empty Optional
    | NumberFormat                     // Long.valueOf / Long.parseLong on a malformed string

  /** A call that returns a value or throws. */
  datatype Result<+T> = Ok(value: T) | Err(failure: Failure)

  /** A `void` call: it completes normally or throws. */
  datatype Completion = Normal | Abrupt(failure: Failure)

  const LONG_MIN: int := -0x8000_0000_0000_0000
  const LONG_MAX: int := 0x7FFF_FFFF_FFFF_FFFF

  predicate IsLong(n: int) { LONG_MIN <= n <= LONG_MAX }

  /** What string concatenation appends for a String reference. */
  function Show(s: JString): string {
    if s.None? then "null" else s.value
  }

  // ---------------------------------------------------------------- decimal text

  predicate IsDigit(c: char) { '0' <= c <= '9' }

  predicate AllDigits(s: string) { forall i :: 0 <= i < |s| ==> IsDigit(s[i]) }

  function DigitChar(d: nat): (c: char)
    requires d < 10
    ensures IsDigit(c) && (c as int) - ('0' as int) == d
  {
    ['0', '1', '2', '3', '4', '5', '6', '7', '8', '9'][d]
  }

  /** The decimal digits of `n`, most significant first, without leading zeros. */
  function Digits(n: nat): (s: string)
    ensures |s| > 0 && AllDigits(s)
    ensures s[0] == '0' ==> n == 0
  {
    if n < 10 then [DigitChar(n)] else Digits(n / 10) + [DigitChar(n % 10)]
  }

  /** The number a string of decimal digits denotes. */
  function DigitsValue(s: string): nat
    requires AllDigits(s)
  {
    if s == [] then 0 else 10 * DigitsValue(s[..|s| - 1]) + ((s[|s| - 1] as int) - ('0' as int))
  }

  /** `Long.toString(n)`, which is also what `"" + n` appends for a Long. */
  function LongToString(n: int): string {
    if n < 0 then "-" + Digits(-n) else Digits(n)
  }

  /** The text a `Long` reference contributes to a concatenation. */
  function ShowLong(n: Option<int>): string {
    if n.None? then "null" else LongToString(n.value)
  }

  /** `Long.parseLong(s)` in radix 10 (and so `Long.valueOf(s)`): an optional
      sign followed by at least one digit, inside the range of `long`.
      `None` stands for the NumberFormatException. */
  function ParseLong(s: string): (r: Option<int>)
    ensures r.Some? ==> IsLong(r.value)
    ensures s == [] ==> r.None?
    ensures r.Some? ==> exists i :: 0 <= i < |s| && IsDigit(s[i])
  {
    if |s| == 0 then None
    else if s[0] == '-' || s[0] == '+' then
      var digits := s[1..];
      if |digits| == 0 || !AllDigits(digits) then None
      else
        var v: int := if s[0] == '-' then 0 - (DigitsValue(digits) as int) else DigitsValue(digits);
        if IsLong(v) then (assert IsDigit(s[1]); Some(v)) else None
    else if !AllDigits(s) then None
    else if IsLong(DigitsValue(s)) then (assert IsDigit(s[0]); Some(DigitsValue(s)))
    else None
  }

  lemma {:induction false} DigitsRoundTrip(n: nat)
    ensures DigitsValue(Digits(n)) == n
  {
    if n >= 10 {
      DigitsRoundTrip(n / 10);
      var s := Digits(n);
      assert s[..|s| - 1] == Digits(n / 10);
    }
  }

  /** Parsing the decimal text of a `long` gives the `long` back. */
  lemma ParseLongRoundTrip(n: int)
    requires IsLong(n)
    ensures ParseLong(LongToString(n)) == Some(n)
  {
    DigitsRoundTrip(if n < 0 then -n else n);
    if n < 0 {
      assert LongToString(n)[1..] == Digits(-n);
    }
  }

  lemma DigitsInjective(m: nat, n: nat)
    requires Digits(m) == Digits(n)
    ensures m == n
  {
    DigitsRoundTrip(m);
    DigitsRoundTrip(n);
  }

  /** The text of a `long` starts with '-' exactly when it is negative. */
  lemma LongToStringSign(x: int)
    ensures |LongToString(x)| > 0
    ensures LongToString(x)[0] == '-' <==> x < 0
    ensures x < 0 ==> LongToString(x)[1..] == Digits(-x)
  {
    if x >= 0 {
      assert IsDigit(Digits(x)[0]);
    }
  }

  /** Different `long` values never print the same. */
  lemma LongToStringInjective(x: int, y: int)
    requires LongToString(x) == LongToString(y)
    ensures x == y
  {
    var t := LongToString(x);
    if x < 0 && y < 0 {
      assert Digits(-x) == t[1..] == Digits(-y);
      DigitsInjective(-x, -y);
    } else if x >= 0 && y >= 0 {
      DigitsInjective(x, y);
    } else {
      LongToStringSign(x);
      LongToStringSign(y);
    }
  }

  /** Different `Long` references never print the same. */
  lemma ShowLongInjective(a: Option<int>, b: Option<int>)
    requires ShowLong(a) == ShowLong(b)
    ensures a == b
  {
    if a.Some? && b.Some? {
      LongToStringInjective(a.value, b.value);
    } else if a.Some? || b.Some? {
      var n := if a.Some? then a.value else b.value;
      LongToStringSign(n);
    }
  }

  /** The text of a `Long` reference never contains a comma. */
  lemma ShowLongHasNoComma(n: Option<int>)
    ensures ',' !in ShowLong(n)
  {
    var s := ShowLong(n);
    if n.Some? {
      var d := Digits(if n.value < 0 then -n.value else n.value);
      assert forall i :: 0 <= i < |d| ==> d[i] != ',';
    }
  }

  /** In `prefix + x + rest` where `x` holds no comma and `rest` starts with one,
      the text `x` is determined: it runs up to the first comma after the prefix. */
  lemma {:induction false} FieldBeforeComma(prefix: string, x1: string, rest1: string, x2: string, rest2: string)
    requires prefix + x1 + rest1 == prefix + x2 + rest2
    requires ',' !in x1 && ',' !in x2
    requires |rest1| > 0 && rest1[0] == ',' && |rest2| > 0 && rest2[0] == ','
    ensures x1 == x2 && rest1 == rest2
  {
    var s := prefix + x1 + rest1;
    var p := |prefix|;
    assert forall i :: 0 <= i < |x1| ==> s[p + i] == x1[i] != ',';
    assert forall i :: 0 <= i < |x2| ==> s[p + i] == x2[i] != ',';
    assert s[p + |x1|] == rest1[0] == ',' && s[p + |x2|] == rest2[0] == ',';
    assert |x1| == |x2|;
    assert x1 == s[p..p + |x1|] == x2;
    assert rest1 == s[p + |x1|..] == rest2;
  }

  /** In `head + x + mid + y + tail` where `x` holds no comma and `mid` starts
      with one, both `x` and `y` are determined by the whole text. */
  lemma {:induction false} TwoFieldsDetermined(head: string, x1: string, y1: string, x2: string, y2: string,
                                               mid: string, tail: string)
    requires head + x1 + mid + y1 + tail == head + x2 + mid + y2 + tail
    requires ',' !in x1 && ',' !in x2
    requires |mid| > 0 && mid[0] == ','
    ensures x1 == x2 && y1 == y2
  {
    var r1 := mid + y1 + tail;
    var r2 := mid + y2 + tail;
    assert head + x1 + mid + y1 + tail == head + x1 + r1;
    assert head + x2 + mid + y2 + tail == head + x2 + r2;
    FieldBeforeComma(head, x1, r1, x2, r2);
    var n := |mid|;
    assert |y1| == |y2|;
    forall i | 0 <= i < |y1| ensures y1[i] == y2[i] {
      assert r1[n + i] == y1[i];
      assert r2[n + i] == y2[i];
    }
  }

  // ---------------------------------------------------------------- 32-bit hashing

  const TWO_TO_32: int := 0x1_0000_0000

  predicate IsInt(x: int) { -0x8000_0000 <= x < 0x8000_0000 }

  /** Java `int` overflow: the value of `x` wrapped into 32-bit two's complement. */
  function ToInt(x: int): (r: int)
    ensures IsInt(r)
    ensures (x - r) % TWO_TO_32 == 0
    ensures IsInt(x) ==> r == x
  {
    (x + 0x8000_0000) % TWO_TO_32 - 0x8000_0000
  }

  /** `String.hashCode()`: `s[0]*31^(n-1) + ... + s[n-1]` in `int` arithmetic. */
  function StringHash(s: string): (h: int)
    ensures IsInt(h)
  {
    if s == [] then 0 else ToInt(31 * StringHash(s[..|s| - 1]) + (s[|s| - 1] as int))
  }

  /** `Objects.hashCode(o)` of a String reference: 0 for null. */
  function HashOf(s: JString): (h: int)
    ensures IsInt(h)
  {
    if s.None? then 0 else StringHash(s.value)
  }

  /** One step of `Objects.hash(a, b, ...)`, which starts at 1 and folds
      `result = 31 * result + hash(element)`. */
  function HashStep(acc: int, h: int): (r: int)
    ensures IsInt(r)
  {
    ToInt(31 * acc + h)
  }
}
