/**
 * The two display formatters: formatBrazilianNumber, which renders a view count with '.'
 * between groups of three digits (the pt-BR integer format), and formatIsoDateToBrazilian,
 * which renders a date as DD/MM/YYYY from its UTC components.
 */
module Formatting {
  import opened Wrappers
  import opened Text

  // ---------------------------------------------------------------------------------
  // formatBrazilianNumber

  /** The argument of formatBrazilianNumber: undefined or null, a string, or an integral number. */
  datatype NumberArg = Absent | Str(s: string) | Num(n: int)

  const NotAvailable := "N/A"

  /** `s.replace(/[^0-9]/g, '')`: the decimal digits of s, in order. */
  function DigitsOnly(s: string): (d: string)
    ensures AllDigits(d) && |d| <= |s|
  {
    if s == [] then []
    else (if IsDigit(s[0]) then [s[0]] else []) + DigitsOnly(s[1..])
  }

  /** Three digits with leading zeros: a group that follows a separator. */
  function Group3(r: nat): (g: string)
    requires r < 1000
    ensures |g| == 3 && AllDigits(g)
  {
    [DigitChar(r / 100), DigitChar(r / 10 % 10), DigitChar(r % 10)]
  }

  /** The digit groups of n, from the most significant: one to three digits, then threes. */
  function Groups(n: nat): (gs: seq<string>)
    ensures |gs| >= 1
  {
    if n < 1000 then [Decimal(n)] else Groups(n / 1000) + [Group3(n % 1000)]
  }

  /** A non-negative integer as Intl.NumberFormat('pt-BR') writes it. */
  function Grouped(n: nat): string {
    if n < 1000 then Decimal(n) else Grouped(n / 1000) + "." + Group3(n % 1000)
  }

  /** An integer as Intl.NumberFormat('pt-BR') writes it: a minus sign, then the groups. */
  function FormatInteger(i: int): string {
    if i < 0 then "-" + Grouped(-i) else Grouped(i)
  }

  /**
   * formatBrazilianNumber: a string loses every non-digit and is parsed in base 10; a string
   * without digits (parseInt gives NaN) is returned as it was.
   */
  function FormatBrazilianNumber(v: NumberArg): string {
    match v
    case Absent => NotAvailable
    case Str(s) =>
      var digits := DigitsOnly(s);
      if digits == [] then s else FormatInteger(DigitsValue(digits))
    case Num(n) => FormatInteger(n)
  }

  lemma {:induction false} DigitsOnlyEmpty(s: string)
    ensures DigitsOnly(s) == [] <==> !HasDigit(s)
  {
    if s != [] {
      DigitsOnlyEmpty(s[1..]);
      if !IsDigit(s[0]) && HasDigit(s) {
        var i :| 0 <= i < |s| && IsDigit(s[i]);
        assert s[1..][i - 1] == s[i];
      }
    }
  }

  lemma {:induction false} DigitsOnlyAppend(a: string, b: string)
    ensures DigitsOnly(a + b) == DigitsOnly(a) + DigitsOnly(b)
  {
    if a != [] {
      var h := if IsDigit(a[0]) then [a[0]] else [];
      assert (a + b)[0] == a[0] && (a + b)[1..] == a[1..] + b;
      assert DigitsOnly(a + b) == h + DigitsOnly(a[1..] + b);
      DigitsOnlyAppend(a[1..], b);
      assert h + (DigitsOnly(a[1..]) + DigitsOnly(b)) == (h + DigitsOnly(a[1..])) + DigitsOnly(b);
    } else {
      assert a + b == b;
    }
  }

  lemma {:induction false} DigitsOnlyOfDigits(s: string)
    requires AllDigits(s)
    ensures DigitsOnly(s) == s
  {
    if s != [] {
      DigitsOnlyOfDigits(s[1..]);
    }
  }

  /** Above 999, the decimal digits of n are those of n / 1000 followed by three more. */
  lemma DecimalSplit3(n: nat)
    requires n >= 1000
    ensures Decimal(n) == Decimal(n / 1000) + Group3(n % 1000)
  {
    var a, r := n / 1000, n % 1000;
    ThousandsDigits(n);
    DecimalSnoc(n);
    DecimalSnoc(n / 10);
    DecimalSnoc(n / 100);
    assert Group3(r) == [DigitChar(n / 100 % 10), DigitChar(n / 10 % 10), DigitChar(n % 10)];
  }

  lemma DecimalSnoc(n: nat)
    requires n >= 10
    ensures Decimal(n) == Decimal(n / 10) + [DigitChar(n % 10)]
  {
  }

  /** The digits of n % 1000, and how n / 10 and n / 100 reach n / 1000. */
  lemma ThousandsDigits(n: nat)
    ensures (n / 10) / 10 == n / 100 && (n / 100) / 10 == n / 1000
    ensures (n % 1000) / 100 == (n / 100) % 10
    ensures (n % 1000) / 10 % 10 == (n / 10) % 10
    ensures (n % 1000) % 10 == n % 10
  {
    var a, r := n / 1000, n % 1000;
    assert n == 1000 * a + r;
    assert n / 10 == 100 * a + r / 10;
    assert n / 100 == 10 * a + r / 100;
  }

  /** Below 1000, String(n) has one to three digits. */
  lemma SmallDecimal(n: nat)
    requires n < 1000
    ensures 1 <= |Decimal(n)| <= 3
  {
    if n >= 100 {
      DecimalSnoc(n);
      DecimalSnoc(n / 10);
    } else if n >= 10 {
      DecimalSnoc(n);
    }
  }

  lemma {:induction false} JoinSnoc(parts: seq<string>, last: string, sep: string)
    requires |parts| >= 1
    ensures Join(parts + [last], sep) == Join(parts, sep) + sep + last
  {
    if |parts| == 1 {
      assert (parts + [last])[1..] == [last];
    } else {
      assert (parts + [last])[1..] == parts[1..] + [last];
      JoinSnoc(parts[1..], last, sep);
    }
  }

  lemma {:induction false} ConcatSnoc(parts: seq<string>, last: string)
    ensures Concat(parts + [last]) == Concat(parts) + last
  {
    if parts == [] {
      assert [] + [last] == [last];
    } else {
      assert (parts + [last])[1..] == parts[1..] + [last];
      ConcatSnoc(parts[1..], last);
    }
  }

  /**
   * The rendering of n is its digit groups joined by '.': together the groups spell
   * String(n); the first has one to three digits and no leading zero (unless n is 0),
   * every other has exactly three.
   */
  lemma {:induction false} GroupedShape(n: nat)
    ensures Grouped(n) == Join(Groups(n), ".")
    ensures Concat(Groups(n)) == Decimal(n)
    ensures 1 <= |Groups(n)[0]| <= 3 && (Groups(n)[0][0] == '0' ==> n == 0)
    ensures forall i :: 0 <= i < |Groups(n)| ==> AllDigits(Groups(n)[i])
    ensures forall i :: 1 <= i < |Groups(n)| ==> |Groups(n)[i]| == 3
  {
    if n >= 1000 {
      GroupedShape(n / 1000);
      var gs := Groups(n / 1000);
      JoinSnoc(gs, Group3(n % 1000), ".");
      ConcatSnoc(gs, Group3(n % 1000));
      DecimalSplit3(n);
      assert Groups(n)[0] == gs[0];
    } else {
      assert Decimal(n) == Concat([Decimal(n)]);
      SmallDecimal(n);
    }
  }

  /** Dropping the separators from the rendering of n gives back String(n). */
  lemma {:induction false} GroupedDigits(n: nat)
    ensures DigitsOnly(Grouped(n)) == Decimal(n)
  {
    if n < 1000 {
      DigitsOnlyOfDigits(Decimal(n));
    } else {
      GroupedDigits(n / 1000);
      DigitsOnlyAppend(Grouped(n / 1000) + ".", Group3(n % 1000));
      DigitsOnlyAppend(Grouped(n / 1000), ".");
      DigitsOnlyOfDigits(Group3(n % 1000));
      DecimalSplit3(n);
    }
  }

  /** The rendering of n holds only digits and separators. */
  lemma {:induction false} GroupedChars(n: nat)
    ensures forall i :: 0 <= i < |Grouped(n)| ==> IsDigit(Grouped(n)[i]) || Grouped(n)[i] == '.'
  {
    if n >= 1000 {
      GroupedChars(n / 1000);
      var g, t := Grouped(n / 1000), Group3(n % 1000);
      assert Grouped(n) == g + ("." + t);
    }
  }

  /** A string without a double quote formats to one without a double quote. */
  lemma FormatQuoteFree(s: string)
    requires '"' !in s
    ensures '"' !in FormatBrazilianNumber(Str(s))
  {
    DigitsOnlyEmpty(s);
    if HasDigit(s) {
      GroupedChars(DigitsValue(DigitsOnly(s)));
    }
  }

  /**
   * The three outcomes for a string: without a digit it comes back unchanged; otherwise the
   * result is the pt-BR rendering of the value of its digits, whose own digits are the
   * canonical decimal of that value (leading zeros gone).
   */
  /** A missing value (undefined or null) is shown as 'N/A'. */
  lemma MissingValue()
    ensures FormatBrazilianNumber(Absent) == NotAvailable == "N/A"
  {
  }

  lemma StringFormat(s: string)
    ensures !HasDigit(s) ==> FormatBrazilianNumber(Str(s)) == s
    ensures HasDigit(s) ==>
              var value := DigitsValue(DigitsOnly(s));
              FormatBrazilianNumber(Str(s)) == Grouped(value) &&
              DigitsOnly(FormatBrazilianNumber(Str(s))) == Decimal(value)
  {
    DigitsOnlyEmpty(s);
    if HasDigit(s) {
      GroupedDigits(DigitsValue(DigitsOnly(s)));
    }
  }

  /** Formatting a formatted string changes nothing: the separators carry no digits. */
  lemma FormatIdempotent(s: string)
    ensures FormatBrazilianNumber(Str(FormatBrazilianNumber(Str(s)))) == FormatBrazilianNumber(Str(s))
  {
    StringFormat(s);
    if HasDigit(s) {
      var value := DigitsValue(DigitsOnly(s));
      DecimalRoundTrip(value);
    }
  }

  /** Non-digit characters are ignored: strings with the same digits format alike. */
  lemma SameDigitsSameFormat(a: string, b: string)
    requires DigitsOnly(a) == DigitsOnly(b) && HasDigit(a)
    ensures FormatBrazilianNumber(Str(a)) == FormatBrazilianNumber(Str(b))
  {
    DigitsOnlyEmpty(a);
    DigitsOnlyEmpty(b);
  }

  /** A leading zero does not change the rendering. */
  lemma LeadingZeroIgnored(s: string)
    requires HasDigit(s)
    ensures FormatBrazilianNumber(Str("0" + s)) == FormatBrazilianNumber(Str(s))
  {
    DigitsOnlyAppend("0", s);
    DigitsOnlyEmpty(s);
    LeadingZero(DigitsOnly(s));
  }

  // ---------------------------------------------------------------------------------
  // formatIsoDateToBrazilian

  /** What a valid Date reports: getUTCFullYear, getUTCMonth (from 0) and getUTCDate. */
  datatype UtcDate = UtcDate(year: int, monthIndex: nat, day: nat)

  predicate ValidUtcDate(d: UtcDate) {
    d.monthIndex < 12 && 1 <= d.day <= 31
  }

  const InvalidDate := "Data Inválida"

  /** String.prototype.padStart(len, fill) with a one-character fill. */
  function PadStart(s: string, len: nat, fill: char): (r: string)
    ensures |r| == Max(|s|, len)
    ensures r[|r| - |s|..] == s
    ensures forall i :: 0 <= i < |r| - |s| ==> r[i] == fill
  {
    if |s| >= len then s else seq(len - |s|, _ => fill) + s
  }

  /** day/month/year of the UTC date, day and month padded to two digits. */
  function DateText(d: UtcDate): string {
    PadStart(Decimal(d.day), 2, '0') + "/" + PadStart(Decimal(d.monthIndex + 1), 2, '0') + "/" + IntToString(d.year)
  }

  /**
   * formatIsoDateToBrazilian, with `new Date(s)` supplied as `parseDate` (None when
   * getTime() is NaN).
   */
  function FormatIsoDateToBrazilian(iso: Option<string>, parseDate: string -> Option<UtcDate>): string {
    if !Truthy(iso) then NotAvailable
    else match parseDate(iso.value)
      case None => InvalidDate
      case Some(d) => DateText(d)
  }

  /** A padded day or month of two digits or fewer reads back as the number itself. */
  lemma PaddedValue(n: nat)
    requires n < 100
    ensures var p := PadStart(Decimal(n), 2, '0');
            |p| == 2 && AllDigits(p) && DigitsValue(p) == n
  {
    DecimalRoundTrip(n);
    if n < 10 {
      LeadingZero(Decimal(n));
      assert PadStart(Decimal(n), 2, '0') == "0" + Decimal(n);
    } else {
      assert Decimal(n) == Decimal(n / 10) + [DigitChar(n % 10)];
    }
  }

  /**
   * A valid date comes out as DD/MM/YYYY: two digits that read back as the day, a slash,
   * two digits that read back as the 1-based month, a slash, then String(year).
   */
  lemma DateRoundTrip(iso: Option<string>, parseDate: string -> Option<UtcDate>, d: UtcDate)
    requires Truthy(iso) && parseDate(iso.value) == Some(d) && ValidUtcDate(d)
    ensures var r := FormatIsoDateToBrazilian(iso, parseDate);
            |r| == 6 + |IntToString(d.year)| && r[2] == '/' && r[5] == '/' &&
            AllDigits(r[..2]) && DigitsValue(r[..2]) == d.day &&
            AllDigits(r[3..5]) && DigitsValue(r[3..5]) == d.monthIndex + 1 &&
            r[6..] == IntToString(d.year)
  {
    assert FormatIsoDateToBrazilian(iso, parseDate) == DateText(d);
    PaddedValue(d.day);
    PaddedValue(d.monthIndex + 1);
    DateTextParts(PadStart(Decimal(d.day), 2, '0'), PadStart(Decimal(d.monthIndex + 1), 2, '0'),
                  IntToString(d.year));
  }

  lemma DateTextParts(dd: string, mm: string, y: string)
    requires |dd| == 2 && |mm| == 2
    ensures var r := dd + "/" + mm + "/" + y;
            |r| == 6 + |y| && r[2] == '/' && r[5] == '/' && r[..2] == dd && r[3..5] == mm && r[6..] == y
  {
    var r := dd + "/" + mm + "/" + y;
    assert r == dd + ("/" + mm + "/" + y);
    assert r[..2] == dd;
  }

  /** The three outcomes of the date formatter, by input. */
  lemma DateOutcomes(iso: Option<string>, parseDate: string -> Option<UtcDate>)
    ensures !Truthy(iso) ==> FormatIsoDateToBrazilian(iso, parseDate) == "N/A"
    ensures Truthy(iso) && parseDate(iso.value).None? ==>
              FormatIsoDateToBrazilian(iso, parseDate) == "Data Inválida"
    ensures Truthy(iso) && parseDate(iso.value).Some? ==>
              FormatIsoDateToBrazilian(iso, parseDate) != NotAvailable &&
              FormatIsoDateToBrazilian(iso, parseDate) != InvalidDate
  {
    if Truthy(iso) && parseDate(iso.value).Some? {
      var d := parseDate(iso.value).value;
      var r := FormatIsoDateToBrazilian(iso, parseDate);
      var p := PadStart(Decimal(d.day), 2, '0');
      assert r[0] == p[0];
      if |Decimal(d.day)| < 2 {
        assert p[0] == '0';
      } else {
        assert p[0] == Decimal(d.day)[0];
      }
      assert NotAvailable[0] == 'N' && InvalidDate[0] == 'D';
    }
  }

  /** The date field never holds a double quote. */
  lemma DateQuoteFree(iso: Option<string>, parseDate: string -> Option<UtcDate>)
    ensures '"' !in FormatIsoDateToBrazilian(iso, parseDate)
  {
    if Truthy(iso) && parseDate(iso.value).Some? {
      var d := parseDate(iso.value).value;
      var p, q := PadStart(Decimal(d.day), 2, '0'), PadStart(Decimal(d.monthIndex + 1), 2, '0');
      PaddedQuoteFree(Decimal(d.day));
      PaddedQuoteFree(Decimal(d.monthIndex + 1));
      var y := Decimal(if d.year < 0 then -d.year else d.year);
      DigitsQuoteFree(y);
      assert '"' !in IntToString(d.year);
      assert DateText(d) == p + "/" + q + "/" + IntToString(d.year);
    } else {
      assert NotAvailable == ['N', '/', 'A'];
      assert InvalidDate[0] == 'D';
    }
  }

  lemma DigitsQuoteFree(s: string)
    requires AllDigits(s)
    ensures '"' !in s
  {
  }

  lemma PaddedQuoteFree(s: string)
    requires AllDigits(s)
    ensures '"' !in PadStart(s, 2, '0')
  {
    var p := PadStart(s, 2, '0');
    assert forall i :: 0 <= i < |p| ==> IsDigit(p[i]) by {
      forall i | 0 <= i < |p| ensures IsDigit(p[i]) {
        if i >= |p| - |s| {
          assert p[i] == p[|p| - |s|..][i - (|p| - |s|)];
        }
      }
    }
  }
}
