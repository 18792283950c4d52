/** Separated fields and decimal numbers as text, with their inverses. */
module Text {
  import opened Options

  // --- separated fields ---

  function Join(fields: seq<string>, sep: char): string {
    if fields == [] then "" else if |fields| == 1 then fields[0] else fields[0] + [sep] + Join(fields[1..], sep)
  }

  /** Split at every separator. */
  function Split(text: string, sep: char): (parts: seq<string>)
    ensures parts != []
    ensures forall f :: f in parts ==> sep !in f
  {
    if text == "" then [""]
    else
      var rest := Split(text[1..], sep);
      if text[0] == sep then [""] + rest else [[text[0]] + rest[0]] + rest[1..]
  }

  lemma {:induction false} SplitCutsTheField(field: string, rest: string, sep: char)
    requires sep !in field
    ensures Split(field + [sep] + rest, sep) == [field] + Split(rest, sep)
  {
    var text := field + [sep] + rest;
    if field == "" {
      assert text[1..] == rest;
    } else {
      assert text[1..] == field[1..] + [sep] + rest;
      SplitCutsTheField(field[1..], rest, sep);
      assert [field[0]] + field[1..] == field;
    }
  }

  lemma {:induction false} SplitOfOneField(field: string, sep: char)
    requires sep !in field
    ensures Split(field, sep) == [field]
  {
    if field != "" {
      SplitOfOneField(field[1..], sep);
      assert [field[0]] + field[1..] == field;
    }
  }

  lemma {:induction false} SplitInvertsJoin(fields: seq<string>, sep: char)
    requires fields != [] && forall f :: f in fields ==> sep !in f
    ensures Split(Join(fields, sep), sep) == fields
  {
    if |fields| == 1 {
      SplitOfOneField(fields[0], sep);
    } else {
      SplitCutsTheField(fields[0], Join(fields[1..], sep), sep);
      SplitInvertsJoin(fields[1..], sep);
    }
  }

  /** Joined fields can be read back exactly when none of them contains the separator. */
  lemma JoinedFieldsRecoverable(fields: seq<string>, sep: char)
    requires fields != []
    ensures Split(Join(fields, sep), sep) == fields <==> forall f :: f in fields ==> sep !in f
  {
    if forall f :: f in fields ==> sep !in f { SplitInvertsJoin(fields, sep); }
  }

  /** A separator inside a field makes two different field lists look alike. */
  lemma SeparatorInsideAFieldIsAmbiguous(a: string, b: string, c: string, sep: char)
    ensures Join([a + [sep] + b, c], sep) == Join([a, b + [sep] + c], sep)
    ensures [a + [sep] + b, c] != [a, b + [sep] + c]
  {
    assert Join([a + [sep] + b, c], sep) == a + [sep] + b + [sep] + Join([c], sep);
    assert Join([a, b + [sep] + c], sep) == a + [sep] + Join([b + [sep] + c], sep);
    assert |a + [sep] + b| == |a| + 1 + |b|;
  }

  // --- white space and letter case, ASCII only ---

  predicate IsSpace(c: char) { c == ' ' || '\t' <= c <= '\r' }

  function StripLeft(s: string): string {
    if s != "" && IsSpace(s[0]) then StripLeft(s[1..]) else s
  }

  function StripRight(s: string): string {
    if s != "" && IsSpace(s[|s| - 1]) then StripRight(s[..|s| - 1]) else s
  }

  function Strip(s: string): string {
    StripRight(StripLeft(s))
  }

  function LowerChar(c: char): char { if 'A' <= c <= 'Z' then (c as int + 32) as char else c }
  function UpperChar(c: char): char { if 'a' <= c <= 'z' then (c as int - 32) as char else c }

  function Lower(s: string): string {
    if s == "" then "" else [LowerChar(s[0])] + Lower(s[1..])
  }

  function Upper(s: string): string {
    if s == "" then "" else [UpperChar(s[0])] + Upper(s[1..])
  }

  lemma {:induction false} LowerKeeps(s: string)
    requires forall i :: 0 <= i < |s| ==> !('A' <= s[i] <= 'Z')
    ensures Lower(s) == s
  {
    if s != "" { LowerKeeps(s[1..]); }
  }

  lemma {:induction false} UpperKeeps(s: string)
    requires forall i :: 0 <= i < |s| ==> !('a' <= s[i] <= 'z')
    ensures Upper(s) == s
  {
    if s != "" { UpperKeeps(s[1..]); }
  }

  // --- numbers ---

  function Pow10(n: nat): (r: nat)
    ensures r >= 1
  {
    if n == 0 then 1 else 10 * Pow10(n - 1)
  }

  function DigitChar(d: nat): char
    requires d < 10
  {
    ('0' as int + d) as char
  }

  predicate IsDigit(c: char) { '0' <= c <= '9' }

  predicate Digits(s: string) { forall i :: 0 <= i < |s| ==> IsDigit(s[i]) }

  function Decimal(n: nat): string {
    if n < 10 then [DigitChar(n)] else Decimal(n / 10) + [DigitChar(n % 10)]
  }

  /** The last `width` digits. */
  function Padded(n: nat, width: nat): string {
    if width == 0 then "" else Padded(n / 10, width - 1) + [DigitChar(n % 10)]
  }

  /** What is left without the last `width` digits. */
  function Dropped(n: nat, width: nat): nat {
    if width == 0 then n else Dropped(n / 10, width - 1)
  }

  function NatValue(s: string): nat
    requires Digits(s)
  {
    if s == "" then 0 else NatValue(s[..|s| - 1]) * 10 + (s[|s| - 1] as int - '0' as int)
  }

  lemma {:induction false} DecimalValue(n: nat)
    ensures Decimal(n) != "" && Digits(Decimal(n)) && NatValue(Decimal(n)) == n
  {
    if n >= 10 {
      DecimalValue(n / 10);
      assert Decimal(n)[..|Decimal(n)| - 1] == Decimal(n / 10);
    }
  }

  lemma TimesTen(x: nat, n: nat)
    ensures x * Pow10(n + 1) == 10 * (x * Pow10(n))
  {
    assert Pow10(n + 1) == 10 * Pow10(n);
    assert x * (10 * Pow10(n)) == 10 * (x * Pow10(n));
  }

  lemma OneMoreDigit(dropped: nat, width: nat, value: nat, n: nat)
    requires dropped * Pow10(width) + value == n / 10
    ensures dropped * Pow10(width + 1) + (10 * value + n % 10) == n
  {
    TimesTen(dropped, width);
  }

  lemma {:induction false} PaddedValue(n: nat, width: nat)
    ensures |Padded(n, width)| == width && Digits(Padded(n, width))
    ensures Dropped(n, width) * Pow10(width) + NatValue(Padded(n, width)) == n
  {
    if width > 0 {
      PaddedValue(n / 10, width - 1);
      assert Padded(n, width)[..width - 1] == Padded(n / 10, width - 1);
      OneMoreDigit(Dropped(n / 10, width - 1), width - 1, NatValue(Padded(n / 10, width - 1)), n);
    }
  }

  lemma {:induction false} NatValueConcat(a: string, b: string)
    requires Digits(a) && Digits(b)
    ensures Digits(a + b) && NatValue(a + b) == NatValue(a) * Pow10(|b|) + NatValue(b)
  {
    if b == "" {
      assert a + b == a;
    } else {
      var last := |b| - 1;
      NatValueConcat(a, b[..last]);
      assert (a + b)[..|a + b| - 1] == a + b[..last];
      TimesTen(NatValue(a), last);
    }
  }

  function ParseNat(s: string): Option<nat> {
    if s != "" && Digits(s) then Some(NatValue(s)) else None
  }

  function ParseInt(s: string): Option<int> {
    if s != "" && s[0] == '-' then
      match ParseNat(s[1..])
      case None => None
      case Some(n) => Some(0 - (n as int))
    else
      match ParseNat(s)
      case None => None
      case Some(n) => Some(n as int)
  }

  lemma ParseIntInverts(n: nat)
    ensures ParseInt(Decimal(n)) == Some(n)
  {
    DecimalValue(n);
    assert IsDigit(Decimal(n)[0]);
  }

  /** A decimal number: an integer count of units of 10 to the minus `places`. */
  datatype Number = Number(units: int, places: nat)

  function Value(n: Number): real { n.units as real / Pow10(n.places) as real }

  function Abs(x: int): nat { if x < 0 then -x else x }

  /** `f"{value:.{places}f}"` of a value that is a whole number of units. */
  function Fixed(units: int, places: nat): string {
    (if units < 0 then "-" else "") + FixedAbs(Abs(units), places)
  }

  function FixedAbs(n: nat, places: nat): string {
    Decimal(Dropped(n, places)) + "." + Padded(n, places)
  }

  function ParseUnsigned(s: string): Option<Number> {
    var parts := Split(s, '.');
    if |parts| == 1 && parts[0] != "" && Digits(parts[0]) then Some(Number(NatValue(parts[0]), 0))
    else if |parts| == 2 && parts[0] != "" && Digits(parts[0]) && Digits(parts[1])
    then NatValueConcat(parts[0], parts[1]);
         Some(Number(NatValue(parts[0] + parts[1]), |parts[1]|))
    else None
  }

  function ParseNumber(s: string): Option<Number> {
    if s != "" && s[0] == '-' then
      match ParseUnsigned(s[1..])
      case None => None
      case Some(n) => Some(n.(units := -n.units))
    else ParseUnsigned(s)
  }

  lemma DigitsHaveNoPoint(s: string)
    requires Digits(s)
    ensures '.' !in s && ',' !in s && '-' !in s
  {
  }

  /** Two runs of digits around a point read as one number. */
  lemma PointedDigits(whole: string, part: string)
    requires whole != "" && Digits(whole) && Digits(part)
    ensures Digits(whole + part) && ParseUnsigned(whole + "." + part) == Some(Number(NatValue(whole + part), |part|))
  {
    DigitsHaveNoPoint(whole);
    DigitsHaveNoPoint(part);
    SplitCutsTheField(whole, part, '.');
    SplitOfOneField(part, '.');
    NatValueConcat(whole, part);
  }

  lemma ParseUnsignedInverts(n: nat, places: nat)
    ensures ParseUnsigned(FixedAbs(n, places)) == Some(Number(n, places))
    ensures IsDigit(FixedAbs(n, places)[0])
  {
    var whole, part := Decimal(Dropped(n, places)), Padded(n, places);
    DecimalValue(Dropped(n, places));
    PaddedValue(n, places);
    PointedDigits(whole, part);
    NatValueConcat(whole, part);
  }

  /** A printed number parses back to the same units. */
  lemma ParseNumberInverts(units: int, places: nat)
    ensures ParseNumber(Fixed(units, places)) == Some(Number(units, places))
  {
    ParseUnsignedInverts(Abs(units), places);
    if units < 0 {
      assert Fixed(units, places)[1..] == FixedAbs(Abs(units), places);
    } else {
      assert Fixed(units, places) == FixedAbs(Abs(units), places);
    }
  }
}
