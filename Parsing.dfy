/** Text parsing the component relies on: Python's `int()` and `float()` on a
    string (ASCII forms), `str.split`, and the rule engine's time-of-day parsing
    and overnight-aware range test. */
module Parsing {
  import opened Values

  /** The ASCII characters `str.strip()` and `int()` treat as whitespace. */
  predicate IsSpace(c: char) {
    c == ' ' || ('\t' <= c <= '\r') || ('\U{1C}' <= c <= '\U{1F}')
  }

  predicate IsDigit(c: char) { '0' <= c <= '9' }

  function DigitValue(c: char): (d: nat)
    requires IsDigit(c)
    ensures d < 10
  {
    (c as int) - ('0' as int)
  }

  function TrimLeft(s: string): string
  {
    if s != [] && IsSpace(s[0]) then TrimLeft(s[1..]) else s
  }

  function TrimRight(s: string): string
  {
    if s != [] && IsSpace(s[|s| - 1]) then TrimRight(s[..|s| - 1]) else s
  }

  /** `lstrip` removes a prefix of whitespace and stops at the first non-space. */
  lemma {:induction false} TrimLeftRemovesSpace(s: string)
    ensures var t := TrimLeft(s);
      && |t| <= |s| && t == s[|s| - |t|..]
      && (t == [] || !IsSpace(t[0]))
      && forall k :: 0 <= k < |s| - |t| ==> IsSpace(s[k])
    decreases |s|
  {
    if s != [] && IsSpace(s[0]) {
      TrimLeftRemovesSpace(s[1..]);
      var t := TrimLeft(s);
      assert t == TrimLeft(s[1..]);
      assert s[1..][|s| - 1 - |t|..] == s[|s| - |t|..];
      forall k | 1 <= k < |s| - |t|
        ensures IsSpace(s[k])
      {
        assert s[k] == s[1..][k - 1];
      }
    }
  }

  /** `rstrip` removes a suffix of whitespace and stops at the last non-space. */
  lemma {:induction false} TrimRightRemovesSpace(s: string)
    ensures var t := TrimRight(s);
      && |t| <= |s| && t == s[..|t|]
      && (t == [] || !IsSpace(t[|t| - 1]))
      && forall k :: |t| <= k < |s| ==> IsSpace(s[k])
    decreases |s|
  {
    if s != [] && IsSpace(s[|s| - 1]) {
      TrimRightRemovesSpace(s[..|s| - 1]);
      var t := TrimRight(s);
      forall k | |t| <= k < |s| - 1
        ensures IsSpace(s[k])
      {
        assert s[k] == s[..|s| - 1][k];
      }
    }
  }

  function Strip(s: string): string {
    TrimRight(TrimLeft(s))
  }

  lemma StripUnspaced(s: string)
    requires forall k :: 0 <= k < |s| ==> !IsSpace(s[k])
    ensures Strip(s) == s
  {
  }

  /** A run of decimal digits: its value and how many digits it has. */
  datatype DigitRun = DigitRun(value: nat, count: nat)

  function Pow10(n: nat): (p: nat)
    ensures p >= 1
  {
    if n == 0 then 1 else 10 * Pow10(n - 1)
  }

  /** Python's `digitpart`: `digit (["_"] digit)*`, matching all of `s`. */
  function DigitPart(s: string): Option<DigitRun> {
    if s != [] && IsDigit(s[0]) then DigitsAfter(s[1..], DigitRun(DigitValue(s[0]), 1)) else None
  }

  /** The rest of a digit part after at least one digit, `acc` being what came before. */
  function DigitsAfter(s: string, acc: DigitRun): Option<DigitRun>
    decreases |s|
  {
    if s == [] then Some(acc)
    else if IsDigit(s[0]) then DigitsAfter(s[1..], DigitRun(acc.value * 10 + DigitValue(s[0]), acc.count + 1))
    else if s[0] == '_' && |s| >= 2 && IsDigit(s[1]) then
      DigitsAfter(s[2..], DigitRun(acc.value * 10 + DigitValue(s[1]), acc.count + 1))
    else None
  }

  /** CPython's default limit on the digits of a decimal integer text
      (`sys.get_int_max_str_digits()`); leading zeros count, underscores do not. */
  const MAX_STR_DIGITS: nat := 4300

  /** `int(s)` for a `str`: surrounding whitespace, an optional sign, a digit part
      of at most MAX_STR_DIGITS digits. `None` is the ValueError Python raises. */
  function ParseInt(s: string): Option<int> {
    var t := Strip(s);
    if t != [] && (t[0] == '+' || t[0] == '-') then
      match DigitPart(t[1..])
      case Some(d) =>
        if d.count > MAX_STR_DIGITS then None
        else Some(if t[0] == '-' then -(d.value as int) else d.value)
      case None => None
    else
      match DigitPart(t)
      case Some(d) => if d.count > MAX_STR_DIGITS then None else Some(d.value)
      case None => None
  }

  lemma TwoDigitsParse(a: char, b: char)
    requires IsDigit(a) && IsDigit(b)
    ensures DigitPart([a, b]) == Some(DigitRun(10 * DigitValue(a) + DigitValue(b), 2))
    ensures ParseInt([a, b]) == Some(10 * DigitValue(a) + DigitValue(b))
  {
    var s := [a, b];
    assert s[1..] == [b];
    assert [b][1..] == [];
    var d := DigitRun(10 * DigitValue(a) + DigitValue(b), 2);
    assert DigitsAfter([], d) == Some(d);
    assert DigitsAfter([b], DigitRun(DigitValue(a), 1)) == DigitsAfter([], d);
    assert DigitPart(s) == Some(d);
    assert !IsSpace(a) && !IsSpace(b);
    assert TrimLeft(s) == s;
    assert TrimRight(s) == s;
  }

  function IndexOf(s: string, c: char): (k: nat)
    ensures k <= |s|
    ensures k < |s| ==> s[k] == c
  {
    if s == [] then 0 else if s[0] == c then 0 else 1 + IndexOf(s[1..], c)
  }

  /** The parts of `float(s)` after the sign: mantissa and optional exponent. */
  function ParseMantissa(m: string): Option<real> {
    var dot := IndexOf(m, '.');
    if dot == |m| then
      match DigitPart(m)
      case Some(d) => Some(d.value as real)
      case None => None
    else
      var whole := m[..dot];
      var frac := m[dot + 1..];
      if whole == [] && frac == [] then None
      else
        var w := if whole == [] then Some(DigitRun(0, 0)) else DigitPart(whole);
        var f := if frac == [] then Some(DigitRun(0, 0)) else DigitPart(frac);
        if w.None? || f.None? then None
        else Some(PointValue(w.value.value, f.value.value, f.value.count))
  }

  /** The number written `whole.frac`, where `frac` has `digits` digits. */
  function PointValue(whole: nat, frac: nat, digits: nat): real {
    whole as real + (frac as real) / (Pow10(digits) as real)
  }

  function ParseExponent(e: string): Option<int> {
    if e != [] && (e[0] == '+' || e[0] == '-') then
      match DigitPart(e[1..])
      case Some(d) => Some(if e[0] == '-' then -(d.value as int) else d.value)
      case None => None
    else
      match DigitPart(e)
      case Some(d) => Some(d.value)
      case None => None
  }

  function Scale(x: real, e: int): real {
    if e >= 0 then x * (Pow10(e) as real) else x / (Pow10(-e) as real)
  }

  /** `float(s)` for the decimal forms of a `str` (digits, point, exponent).
      `None` is the ValueError Python raises. */
  function ParseFloat(s: string): Option<real> {
    var t := Strip(s);
    var neg := t != [] && t[0] == '-';
    var body := if t != [] && (t[0] == '+' || t[0] == '-') then t[1..] else t;
    match ParseUnsignedFloat(body)
    case Some(v) => Some(if neg then -v else v)
    case None => None
  }

  /** The text of a `float` after its sign: a mantissa, then an optional exponent. */
  function ParseUnsignedFloat(body: string): Option<real> {
    var ei := IndexOf(body, 'e');
    var eI := IndexOf(body, 'E');
    var cut := if ei < eI then ei else eI;
    var mantissa := ParseMantissa(body[..cut]);
    var exponent := if cut == |body| then Some(0) else ParseExponent(body[cut + 1..]);
    if mantissa.None? || exponent.None? then None
    else Some(Scale(mantissa.value, exponent.value))
  }

  // ---------------------------------------------------------------- numerals

  predicate AllDigits(s: string) {
    forall k :: 0 <= k < |s| ==> IsDigit(s[k])
  }

  /** The value of a string of decimal digits, most significant digit first. */
  function DecimalValue(s: string): nat
    requires AllDigits(s)
  {
    if s == [] then 0 else DigitValue(s[0]) * Pow10(|s| - 1) + DecimalValue(s[1..])
  }

  lemma ShiftDigit(v: nat, d: nat, p: nat, r: nat, whole: nat, shifted: nat)
    requires whole == d * p + r && shifted == 10 * p
    ensures (v * 10 + d) * p + r == v * shifted + whole
  {
  }

  /** Digits after a digit run shift its value left by their count and add theirs. */
  lemma {:induction false} DigitsAfterValue(s: string, acc: DigitRun)
    requires AllDigits(s)
    ensures DigitsAfter(s, acc) == Some(DigitRun(acc.value * Pow10(|s|) + DecimalValue(s), acc.count + |s|))
    decreases |s|
  {
    if s != [] {
      var rest, d := s[1..], DigitValue(s[0]);
      assert AllDigits(rest);
      var p, r := Pow10(|rest|), DecimalValue(rest);
      var next := DigitRun(acc.value * 10 + d, acc.count + 1);
      assert DigitsAfter(s, acc) == DigitsAfter(rest, next);
      DigitsAfterValue(rest, next);
      ShiftDigit(acc.value, d, p, r, DecimalValue(s), Pow10(|s|));
    }
  }

  /** A non-empty digit string is a digit part worth its decimal value. */
  lemma DigitPartValue(s: string)
    requires s != [] && AllDigits(s)
    ensures DigitPart(s) == Some(DigitRun(DecimalValue(s), |s|))
  {
    var rest, d := s[1..], DigitValue(s[0]);
    assert DigitPart(s) == DigitsAfter(rest, DigitRun(d, 1));
    DigitsAfterValue(rest, DigitRun(d, 1));
    assert DecimalValue(s) == d * Pow10(|rest|) + DecimalValue(rest);
  }

  /** `int()` of a digit string is its decimal value, and a leading '-' negates
      it; a string of more than MAX_STR_DIGITS digits is refused either way. */
  lemma ParseIntDigits(s: string)
    requires s != [] && AllDigits(s)
    ensures ParseInt(s) == if |s| <= MAX_STR_DIGITS then Some(DecimalValue(s)) else None
    ensures ParseInt(['-'] + s) == if |s| <= MAX_STR_DIGITS then Some(-(DecimalValue(s) as int)) else None
  {
    DigitPartValue(s);
    DigitsUnspaced(s);
    ParseIntUnsigned(s, DigitRun(DecimalValue(s), |s|));
    ParseIntNegated(s, DigitRun(DecimalValue(s), |s|));
  }

  lemma DigitsUnspaced(s: string)
    requires AllDigits(s)
    ensures forall k :: 0 <= k < |s| ==> !IsSpace(s[k]) && s[k] != '+' && s[k] != '-'
  {
  }

  /** `int()` of an unpadded, unsigned digit part. */
  lemma ParseIntUnsigned(t: string, d: DigitRun)
    requires t != [] && t[0] != '+' && t[0] != '-'
    requires forall k :: 0 <= k < |t| ==> !IsSpace(t[k])
    requires DigitPart(t) == Some(d)
    ensures ParseInt(t) == if d.count > MAX_STR_DIGITS then None else Some(d.value)
  {
    StripUnspaced(t);
  }

  /** `int()` of '-' before an unpadded digit part. */
  lemma ParseIntNegated(u: string, d: DigitRun)
    requires forall k :: 0 <= k < |u| ==> !IsSpace(u[k])
    requires DigitPart(u) == Some(d)
    ensures ParseInt(['-'] + u) == if d.count > MAX_STR_DIGITS then None else Some(-(d.value as int))
  {
    var n := ['-'] + u;
    assert n[1..] == u;
    StripUnspaced(n);
  }

  lemma {:induction false} IndexOfAbsent(s: string, c: char)
    requires forall k :: 0 <= k < |s| ==> s[k] != c
    ensures IndexOf(s, c) == |s|
    decreases |s|
  {
    if s != [] {
      IndexOfAbsent(s[1..], c);
    }
  }

  lemma {:induction false} IndexOfAfter(a: string, c: char, b: string)
    requires forall k :: 0 <= k < |a| ==> a[k] != c
    ensures IndexOf(a + [c] + b, c) == |a|
    decreases |a|
  {
    if a != [] {
      assert (a + [c] + b)[1..] == a[1..] + [c] + b;
      IndexOfAfter(a[1..], c, b);
    }
  }

  /** A text with no exponent marker is all mantissa. */
  lemma UnsignedFloatMantissa(body: string)
    requires forall k :: 0 <= k < |body| ==> body[k] != 'e' && body[k] != 'E'
    ensures ParseUnsignedFloat(body) == ParseMantissa(body)
  {
    IndexOfAbsent(body, 'e');
    IndexOfAbsent(body, 'E');
    assert body[..|body|] == body;
    assert Pow10(0) == 1;
    if ParseMantissa(body).Some? {
      assert Scale(ParseMantissa(body).value, 0) == ParseMantissa(body).value;
    }
  }

  /** A text that is neither signed nor padded is its own unsigned body. */
  lemma FloatUnsigned(t: string)
    requires t != [] && t[0] != '+' && t[0] != '-'
    requires forall k :: 0 <= k < |t| ==> !IsSpace(t[k])
    ensures ParseFloat(t) == ParseUnsignedFloat(t)
  {
    StripUnspaced(t);
  }

  /** `float()` of "digits.digits" is the whole part plus the fraction over
      ten to the number of fraction digits (which may be none). */
  lemma ParseFloatPoint(a: string, b: string)
    requires a != [] && AllDigits(a) && AllDigits(b)
    ensures ParseFloat(a + ['.'] + b) == Some(PointValue(DecimalValue(a), DecimalValue(b), |b|))
  {
    var s := a + ['.'] + b;
    assert forall k :: 0 <= k < |s| ==> IsDigit(s[k]) || s[k] == '.';
    FloatUnsigned(s);
    UnsignedFloatMantissa(s);
    MantissaPoint(a, b);
  }

  lemma MantissaPoint(a: string, b: string)
    requires a != [] && AllDigits(a) && AllDigits(b)
    ensures ParseMantissa(a + ['.'] + b) == Some(PointValue(DecimalValue(a), DecimalValue(b), |b|))
  {
    var s := a + ['.'] + b;
    IndexOfAfter(a, '.', b);
    SliceAround(a, '.', b);
    DigitPartValue(a);
    var f := DigitRun(DecimalValue(b), |b|);
    if b != [] {
      DigitPartValue(b);
    }
    MantissaParts(s, |a|, DigitRun(DecimalValue(a), |a|), f);
  }

  lemma SliceAround<T>(a: seq<T>, x: T, b: seq<T>)
    ensures (a + [x] + b)[..|a|] == a && (a + [x] + b)[|a| + 1..] == b
  {
  }

  lemma MantissaParts(m: string, dot: nat, w: DigitRun, f: DigitRun)
    requires IndexOf(m, '.') == dot < |m| && dot > 0
    requires DigitPart(m[..dot]) == Some(w)
    requires (if m[dot + 1..] == [] then Some(DigitRun(0, 0)) else DigitPart(m[dot + 1..])) == Some(f)
    ensures ParseMantissa(m) == Some(PointValue(w.value, f.value, f.count))
  {
  }

  /** `float()` of a digit string is its decimal value, which has no digit limit;
      it agrees with `int()` wherever `int()` accepts the string. */
  lemma ParseFloatInteger(s: string)
    requires s != [] && AllDigits(s)
    ensures ParseFloat(s) == Some(DecimalValue(s) as real)
    ensures ParseInt(s).Some? <==> |s| <= MAX_STR_DIGITS
    ensures ParseInt(s).Some? ==> ParseFloat(s) == Some(ParseInt(s).value as real)
  {
    FloatUnsigned(s);
    UnsignedFloatMantissa(s);
    IndexOfAbsent(s, '.');
    DigitPartValue(s);
    ParseIntDigits(s);
  }

  /** A leading '-' negates what `float()` gives for an unsigned text, and
      leaves an unparsable one unparsable. */
  lemma ParseFloatNegative(u: string)
    requires u != [] && u[0] != '+' && u[0] != '-'
    requires forall k :: 0 <= k < |u| ==> !IsSpace(u[k])
    ensures ParseFloat(['-'] + u) == if ParseFloat(u).Some? then Some(-ParseFloat(u).value) else None
  {
    FloatUnsigned(u);
    FloatNegated(u);
  }

  /** '-' before an unpadded text negates its unsigned value. */
  lemma FloatNegated(u: string)
    requires forall k :: 0 <= k < |u| ==> !IsSpace(u[k])
    ensures ParseFloat(['-'] + u) == if ParseUnsignedFloat(u).Some? then Some(-ParseUnsignedFloat(u).value) else None
  {
    var n := ['-'] + u;
    assert Strip(n) == n by {
      assert forall k :: 1 <= k < |n| ==> n[k] == u[k - 1];
      StripUnspaced(n);
    }
    assert n[1..] == u;
  }


  /** `s.split(sep)`. */
  function Split(s: string, sep: char): (parts: seq<string>)
    ensures |parts| >= 1
    decreases |s|
  {
    if s == [] then [""]
    else
      var rest := Split(s[1..], sep);
      if s[0] == sep then [""] + rest else [[s[0]] + rest[0]] + rest[1..]
  }

  function Join(parts: seq<string>, sep: char): string
    requires |parts| >= 1
  {
    if |parts| == 1 then parts[0] else parts[0] + [sep] + Join(parts[1..], sep)
  }

  /** Joining the parts with the separator gives back the string. */
  lemma {:induction false} SplitJoin(s: string, sep: char)
    ensures Join(Split(s, sep), sep) == s
    decreases |s|
  {
    if s != [] {
      var rest := Split(s[1..], sep);
      SplitJoin(s[1..], sep);
      if s[0] == sep {
        assert ([""] + rest)[1..] == rest;
      } else {
        var parts := [[s[0]] + rest[0]] + rest[1..];
        if |rest| == 1 {
          assert parts == [[s[0]] + rest[0]];
        } else {
          assert parts[1..] == rest[1..];
          assert Join(rest, sep) == rest[0] + [sep] + Join(rest[1..], sep);
        }
      }
    }
  }

  /** A string without the separator splits into itself alone. */
  lemma {:induction false} SplitWithoutSeparator(s: string, sep: char)
    requires forall k :: 0 <= k < |s| ==> s[k] != sep
    ensures Split(s, sep) == [s]
    decreases |s|
  {
    if s != [] {
      SplitWithoutSeparator(s[1..], sep);
      assert s == [s[0]] + s[1..];
    }
  }

  /** `s.split(sep)[0]`: the text before the first separator. */
  function FirstPart(s: string, sep: char): string {
    s[..IndexOf(s, sep)]
  }

  /** `s.split(sep)[1]` when `s` holds the separator: the text between the
      first separator and the next one (or the end). */
  function SecondPart(s: string, sep: char): string
    requires IndexOf(s, sep) < |s|
  {
    var rest := s[IndexOf(s, sep) + 1..];
    rest[..IndexOf(rest, sep)]
  }

  /** The first two parts of `split` are `FirstPart` and `SecondPart`, and there
      is a second part exactly when the separator occurs. */
  lemma {:induction false} SplitParts(s: string, sep: char)
    ensures Split(s, sep)[0] == FirstPart(s, sep)
    ensures |Split(s, sep)| >= 2 <==> IndexOf(s, sep) < |s|
    ensures |Split(s, sep)| >= 2 ==> Split(s, sep)[1] == SecondPart(s, sep)
    decreases |s|
  {
    if s != [] {
      SplitParts(s[1..], sep);
      if s[0] == sep {
        SplitPartsAtSeparator(s, sep);
      } else {
        SplitPartsStep(s, sep);
      }
    }
  }

  /** A string that starts with the separator: an empty first part, then the parts of the rest. */
  lemma SplitPartsAtSeparator(s: string, sep: char)
    requires s != [] && s[0] == sep
    requires Split(s[1..], sep)[0] == FirstPart(s[1..], sep)
    ensures Split(s, sep)[0] == FirstPart(s, sep)
    ensures |Split(s, sep)| >= 2 && IndexOf(s, sep) < |s|
    ensures Split(s, sep)[1] == SecondPart(s, sep)
  {
    assert IndexOf(s, sep) == 0;
    assert s[1..] == s[IndexOf(s, sep) + 1..];
  }

  /** A string that starts with another character: it joins the first part of the rest. */
  lemma SplitPartsStep(s: string, sep: char)
    requires s != [] && s[0] != sep
    requires Split(s[1..], sep)[0] == FirstPart(s[1..], sep)
    requires |Split(s[1..], sep)| >= 2 <==> IndexOf(s[1..], sep) < |s[1..]|
    requires |Split(s[1..], sep)| >= 2 ==> Split(s[1..], sep)[1] == SecondPart(s[1..], sep)
    ensures Split(s, sep)[0] == FirstPart(s, sep)
    ensures |Split(s, sep)| >= 2 <==> IndexOf(s, sep) < |s|
    ensures |Split(s, sep)| >= 2 ==> Split(s, sep)[1] == SecondPart(s, sep)
  {
    var t := s[1..];
    var rest := Split(t, sep);
    var j := IndexOf(t, sep);
    assert Split(s, sep) == [[s[0]] + rest[0]] + rest[1..];
    assert IndexOf(s, sep) == j + 1;
    ConsSlices(s, j + 1);
  }

  lemma ConsSlices<T>(s: seq<T>, k: nat)
    requires 0 < k <= |s|
    ensures s[..k] == [s[0]] + s[1..][..k - 1]
    ensures k < |s| ==> s[k + 1..] == s[1..][k..]
  {
  }

  function ClockTime(h: int, m: int): (t: TimeOfDay)
    requires 0 <= h < 24 && 0 <= m < 60
  {
    ((h * 60 + m) * 60) as real
  }

  /** The range of a C `int`, to which `datetime.time` converts its arguments
      before it checks them. */
  const INT_MIN: int := -0x8000_0000
  const INT_MAX: int := 0x7FFF_FFFF

  predicate FitsCInt(n: int) {
    INT_MIN <= n <= INT_MAX
  }

  /** `RuleCondition._parse_time`: a `datetime.time` passes through; a string is
      split on ':' and its first two parts become `time(int(parts[0]), int(parts[1]))`.
      An unparsable part raises ValueError, a string without ':' raises
      IndexError once its first part parsed, a part outside the C `int` range
      raises OverflowError when `time` converts it, an out-of-range hour or
      minute then raises ValueError, and any other value has no `split`
      (AttributeError). */
  function ParseTime(v: Value): (r: Result<TimeOfDay, PyError>)
    ensures r.Failure? ==> r.error == ValueError || r.error == IndexError || r.error == AttributeError || r.error == OverflowError
    ensures r.Failure? && r.error == AttributeError <==> !v.Str? && !v.Time?
    ensures v.Time? ==> r == Success(v.t)
  {
    if v.Time? then Success(v.t)
    else if !v.Str? then Failure(AttributeError)
    else
      var h := ParseInt(FirstPart(v.s, ':'));
      if h.None? then Failure(ValueError)
      else if IndexOf(v.s, ':') == |v.s| then Failure(IndexError)
      else
        var m := ParseInt(SecondPart(v.s, ':'));
        if m.None? then Failure(ValueError)
        else if !FitsCInt(h.value) || !FitsCInt(m.value) then Failure(OverflowError)
        else if 0 <= h.value < 24 && 0 <= m.value < 60 then Success(ClockTime(h.value, m.value))
        else Failure(ValueError)
  }

  function DigitChar(d: nat): (c: char)
    requires d < 10
    ensures IsDigit(c) && DigitValue(c) == d
  {
    ('0' as int + d) as char
  }

  /** The zero-padded "HH:MM" text of an hour and a minute. */
  function ClockText(h: nat, m: nat): string
    requires h < 24 && m < 60
  {
    [DigitChar(h / 10), DigitChar(h % 10), ':', DigitChar(m / 10), DigitChar(m % 10)]
  }

  /** Splitting `a + [sep] + b`, neither part holding the separator, gives `[a, b]`. */
  lemma {:induction false} SplitAtSeparator(a: string, sep: char, b: string)
    requires forall k :: 0 <= k < |a| ==> a[k] != sep
    requires forall k :: 0 <= k < |b| ==> b[k] != sep
    ensures Split(a + [sep] + b, sep) == [a, b]
    decreases |a|
  {
    var s := a + [sep] + b;
    if a == [] {
      assert s == [sep] + b && s[1..] == b;
      SplitWithoutSeparator(b, sep);
    } else {
      assert s[1..] == a[1..] + [sep] + b;
      SplitAtSeparator(a[1..], sep, b);
      assert [a[0]] + a[1..] == a;
    }
  }

  /** The two parts of "ab:cd" for digits a, b, c, d. */
  lemma ColonParts(a: char, b: char, c: char, d: char)
    requires IsDigit(a) && IsDigit(b) && IsDigit(c) && IsDigit(d)
    ensures IndexOf([a, b, ':', c, d], ':') == 2
    ensures IndexOf([c, d], ':') == 2
    ensures FirstPart([a, b, ':', c, d], ':') == [a, b]
    ensures SecondPart([a, b, ':', c, d], ':') == [c, d]
  {
    var text := [a, b, ':', c, d];
    assert text[1..][1..] == [':', c, d];
    assert IndexOf(text[1..][1..], ':') == 0;
    assert IndexOf(text[1..], ':') == 1;
    assert IndexOf(text, ':') == 2;
    var rest := text[3..];
    assert rest == [c, d] && rest[1..] == [d] && rest[1..][1..] == [];
    assert IndexOf(rest[1..][1..], ':') == 0;
    assert IndexOf(rest, ':') == 2;
  }

  /** "ab:cd" with two-digit hour and minute values in range parses to that time. */
  lemma ParseDigitsTime(a: char, b: char, c: char, d: char, h: nat, m: nat)
    requires IsDigit(a) && IsDigit(b) && IsDigit(c) && IsDigit(d)
    requires h == 10 * DigitValue(a) + DigitValue(b) < 24
    requires m == 10 * DigitValue(c) + DigitValue(d) < 60
    ensures ParseTime(Str([a, b, ':', c, d])) == Success(ClockTime(h, m))
  {
    ColonParts(a, b, c, d);
    TwoDigitsParse(a, b);
    TwoDigitsParse(c, d);
  }

  lemma TwoDigitText(n: nat)
    requires n < 100
    ensures ParseInt([DigitChar(n / 10), DigitChar(n % 10)]) == Some(n)
  {
    var a, b := DigitChar(n / 10), DigitChar(n % 10);
    TwoDigitsParse(a, b);
    assert 10 * DigitValue(a) + DigitValue(b) == 10 * (n / 10) + n % 10 == n;
  }

  /** Every zero-padded "HH:MM" text parses to that time of day. */
  lemma ParseClockText(h: nat, m: nat)
    requires h < 24 && m < 60
    ensures ParseTime(Str(ClockText(h, m))) == Success(ClockTime(h, m))
  {
    var a, b, c, d := DigitChar(h / 10), DigitChar(h % 10), DigitChar(m / 10), DigitChar(m % 10);
    assert 10 * DigitValue(a) + DigitValue(b) == h;
    assert 10 * DigitValue(c) + DigitValue(d) == m;
    ParseDigitsTime(a, b, c, d, h, m);
  }

  /** A text whose first part parses but that has no ':' raises IndexError,
      which the rule engine does not catch. */
  lemma ParseTimeWithoutColon(s: string)
    requires forall k :: 0 <= k < |s| ==> s[k] != ':'
    requires ParseInt(s).Some?
    ensures ParseTime(Str(s)) == Failure(IndexError)
  {
    assert FirstPart(s, ':') == s;
  }

  /** A text whose first part does not parse raises ValueError before the
      missing second part is looked at. */
  lemma ParseTimeBadFirstPart(s: string)
    requires ParseInt(Split(s, ':')[0]).None?
    ensures ParseTime(Str(s)) == Failure(ValueError)
  {
    SplitParts(s, ':');
  }

  /** A text whose first two parts are integers (so of at most MAX_STR_DIGITS
      digits each) raises OverflowError exactly when one of them does not fit a
      C `int`: `time` converts both arguments before it checks the hour and the
      minute. */
  lemma ParseTimeOverflow(s: string, h: int, m: int)
    requires |Split(s, ':')| >= 2
    requires ParseInt(Split(s, ':')[0]) == Some(h) && ParseInt(Split(s, ':')[1]) == Some(m)
    ensures ParseTime(Str(s)) == Failure(OverflowError) <==> !FitsCInt(h) || !FitsCInt(m)
  {
    SplitParts(s, ':');
  }

  /** Zeros after a digit run multiply its value by ten each. */
  lemma {:induction false} ZerosAfter(s: string, acc: DigitRun)
    requires forall k :: 0 <= k < |s| ==> s[k] == '0'
    ensures DigitsAfter(s, acc) == Some(DigitRun(acc.value * Pow10(|s|), acc.count + |s|))
    decreases |s|
  {
    if s != [] {
      var next := DigitRun(acc.value * 10, acc.count + 1);
      assert DigitsAfter(s, acc) == DigitsAfter(s[1..], next);
      ZerosAfter(s[1..], next);
      assert next.value * Pow10(|s| - 1) == acc.value * (10 * Pow10(|s| - 1));
    }
  }

  /** An hour of three thousand million overflows a C `int`: "3000000000:00"
      raises OverflowError. */
  lemma HugeHourOverflows(hour: string, s: string)
    requires |hour| == 10 && hour[0] == '3' && forall k :: 1 <= k < 10 ==> hour[k] == '0'
    requires s == hour + [':', '0', '0']
    ensures ParseTime(Str(s)) == Failure(OverflowError)
  {
    ZerosAfter(hour[1..], DigitRun(3, 1));
    assert Pow10(9) == 1000000000;
    assert DigitPart(hour) == Some(DigitRun(3000000000, 10));
    StripUnspaced(hour);
    assert ParseInt(hour) == Some(3000000000);
    TwoDigitsParse('0', '0');
    SplitAtSeparator(hour, ':', ['0', '0']);
    assert hour + [':'] + ['0', '0'] == s;
    assert Split(s, ':') == [hour, ['0', '0']];
    ParseTimeOverflow(s, 3000000000, 0);
  }

  /** An hour of more than MAX_STR_DIGITS digits is refused by `int()` itself:
      the text raises ValueError, not OverflowError, even when the digits are zeros. */
  lemma LongHourIsValueError(hour: string, s: string)
    requires AllDigits(hour) && |hour| > MAX_STR_DIGITS
    requires s == hour + [':', '0', '0']
    ensures ParseTime(Str(s)) == Failure(ValueError)
  {
    ParseIntDigits(hour);
    assert forall k :: 0 <= k < |hour| ==> hour[k] != ':';
    SplitAtSeparator(hour, ':', ['0', '0']);
    assert hour + [':'] + ['0', '0'] == s;
    assert Split(s, ':')[0] == hour;
    ParseTimeBadFirstPart(s);
  }

  /** `RuleCondition._time_in_range`: inclusive when `start <= end`; otherwise the
      range wraps past midnight. */
  predicate TimeInRange(check: TimeOfDay, start: TimeOfDay, end: TimeOfDay) {
    if start <= end then start <= check <= end else check >= start || check <= end
  }

  /** A wrapped range holds exactly outside the open gap between its end and its start. */
  lemma WrappedRangeIsComplementOfGap(check: TimeOfDay, start: TimeOfDay, end: TimeOfDay)
    requires start > end
    ensures TimeInRange(check, start, end) <==> !(end < check < start)
  {
  }

  /** The overnight window 22:00-06:00 holds at 23:30 and at 02:00, not at noon. */
  lemma OvernightWindow()
    ensures TimeInRange(ClockTime(23, 30), ClockTime(22, 0), ClockTime(6, 0))
    ensures TimeInRange(ClockTime(2, 0), ClockTime(22, 0), ClockTime(6, 0))
    ensures !TimeInRange(ClockTime(12, 0), ClockTime(22, 0), ClockTime(6, 0))
  {
  }
}
