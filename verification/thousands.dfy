/**
 * The `,` option of Python's format mini-language (PEP 378) applied to an
 * integer, as in `f"{count:,}"`: the decimal digits with a comma between every
 * group of three, counted from the right, and a leading minus sign for a
 * negative number.
 */
module Thousands {
  import opened PyValue

  predicate IsDigit(c: char) { '0' <= c <= '9' }

  function Digit(d: nat): (c: char)
    requires d < 10
    ensures IsDigit(c) && c as int - '0' as int == d
  {
    "0123456789"[d]
  }

  /** Plain decimal notation of a natural number, without leading zeros. */
  function Digits(n: nat): (s: string)
    ensures |s| >= 1 && forall i :: 0 <= i < |s| ==> IsDigit(s[i])
    ensures n < 10 <==> |s| == 1
    ensures n < 1000 ==> |s| <= 3
  {
    if n < 10 then [Digit(n)] else Digits(n / 10) + [Digit(n % 10)]
  }

  /** `str(i)` for an integer. */
  function Decimal(i: int): string
  {
    if i < 0 then "-" + Digits(-i) else Digits(i)
  }

  /** The last three digits of a group, zero-padded. */
  function Pad3(m: nat): (s: string)
    requires m < 1000
    ensures |s| == 3 && forall i :: 0 <= i < 3 ==> IsDigit(s[i])
  {
    [Digit(m / 100), Digit(m / 10 % 10), Digit(m % 10)]
  }

  /** Digits grouped by threes from the right, separated by commas. */
  function Grouped(n: nat): (s: string)
    ensures IsGrouping(s)
  {
    if n < 1000 then Digits(n)
    else
      var head := Grouped(n / 1000);
      GroupingExtends(head, Pad3(n % 1000));
      head + "," + Pad3(n % 1000)
  }

  /** A grouping followed by a comma and three more digits is again a grouping. */
  lemma GroupingExtends(head: string, tail: string)
    requires IsGrouping(head)
    requires |tail| == 3 && forall i :: 0 <= i < 3 ==> IsDigit(tail[i])
    ensures IsGrouping(head + "," + tail)
  {
    var s := head + "," + tail;
    forall i | 0 <= i < |s|
      ensures s[i] == ',' <==> (|s| - i) % 4 == 0
      ensures s[i] != ',' ==> IsDigit(s[i])
    {
      if i < |head| {
        assert s[i] == head[i];
        assert |s| - i == (|head| - i) + 4;
      } else if i == |head| {
        assert |s| - i == 4;
      } else {
        assert s[i] == tail[i - |head| - 1];
        assert 1 <= |s| - i <= 3;
      }
    }
  }

  /**
   * The shape of a grouped numeral: it starts with a digit, and holds digits
   * and commas, a comma exactly where the number of characters from it to the
   * end is a multiple of four (so every comma is followed by three digits, and
   * the first group has one to three).
   */
  ghost predicate IsGrouping(s: string)
  {
    && |s| >= 1
    && IsDigit(s[0])
    && (forall i :: 0 <= i < |s| ==> (s[i] == ',' <==> (|s| - i) % 4 == 0))
    && (forall i :: 0 <= i < |s| && s[i] != ',' ==> IsDigit(s[i]))
  }

  /** `format(i, ",")` for an integer `i`. */
  function WithCommas(i: int): string
  {
    if i < 0 then "-" + Grouped(-i) else Grouped(i)
  }

  /**
   * `f"{v:,}"` for a decoded JSON value: an int is grouped, a bool formats as
   * the int it is (1 or 0); a str and every other type raise.
   */
  function FormatComma(v: Json): (r: Result<string>)
    ensures r.Ok? <==> v.Int? || v.Bool?
    ensures v.Int? ==> r == Ok(WithCommas(v.i))
    ensures v.Str? ==> r == Err(CommaWithStr)
    ensures v.Null? || v.Arr? || v.Obj? ==> r == Err(FormatRejected(TypeName(v)))
  {
    match v
    case Int(i) => Ok(WithCommas(i))
    case Bool(b) => Ok(Grouped(if b then 1 else 0))
    case Str(_) => Err(CommaWithStr)
    case _ => Err(FormatRejected(TypeName(v)))
  }

  // ---- an independent reading of a numeral ----

  /** The characters of `s` other than commas. */
  function Uncomma(s: string): (r: string)
    ensures |r| <= |s|
  {
    if s == [] then []
    else (if s[0] == ',' then [] else [s[0]]) + Uncomma(s[1..])
  }

  /** The number a string of decimal digits denotes. */
  function ValueOf(s: string): int
  {
    if s == [] then 0 else 10 * ValueOf(s[..|s| - 1]) + (s[|s| - 1] as int - '0' as int)
  }

  lemma {:induction false} UncommaAppend(a: string, b: string)
    ensures Uncomma(a + b) == Uncomma(a) + Uncomma(b)
  {
    if a == [] {
      assert a + b == b;
    } else {
      assert (a + b)[1..] == a[1..] + b;
      UncommaAppend(a[1..], b);
    }
  }

  lemma UncommaDigits(s: string)
    requires forall i :: 0 <= i < |s| ==> IsDigit(s[i])
    ensures Uncomma(s) == s
  {
    if s != [] {
      UncommaDigits(s[1..]);
    }
  }

  /** Decimal notation splits into the thousands and the last three digits. */
  lemma DigitsSplit(n: nat)
    requires n >= 1000
    ensures Digits(n) == Digits(n / 1000) + Pad3(n % 1000)
  {
    var q, m := n / 1000, n % 1000;
    assert n / 10 / 10 / 10 == q;
    assert n / 10 / 10 % 10 == m / 100;
    assert n / 10 % 10 == m / 10 % 10;
    assert n % 10 == m % 10;
    calc {
      Digits(n);
      Digits(n / 10) + [Digit(n % 10)];
      Digits(n / 10 / 10) + [Digit(n / 10 % 10)] + [Digit(n % 10)];
      Digits(n / 10 / 10 / 10) + [Digit(n / 10 / 10 % 10)] + [Digit(n / 10 % 10)] + [Digit(n % 10)];
    }
  }

  /** Removing the commas of the grouped form gives plain decimal notation. */
  lemma {:induction false} GroupedDigits(n: nat)
    ensures Uncomma(Grouped(n)) == Digits(n)
  {
    if n < 1000 {
      UncommaDigits(Digits(n));
    } else {
      GroupedDigits(n / 1000);
      UncommaAppend(Grouped(n / 1000) + ",", Pad3(n % 1000));
      UncommaAppend(Grouped(n / 1000), ",");
      UncommaDigits(Pad3(n % 1000));
      DigitsSplit(n);
    }
  }

  /** Decimal notation denotes the number and has no leading zero. */
  lemma {:induction false} DigitsValue(n: nat)
    ensures ValueOf(Digits(n)) == n
    ensures Digits(n)[0] == '0' <==> n == 0
  {
    if n >= 10 {
      DigitsValue(n / 10);
      var s := Digits(n);
      assert s[..|s| - 1] == Digits(n / 10);
    }
  }

  /**
   * The grouped form read back: it has the grouping shape (a digit first), and
   * with the commas taken out it is the numeral of `n`, with no leading zero.
   */
  lemma GroupedDenotes(n: nat)
    ensures IsGrouping(Grouped(n)) && IsDigit(Grouped(n)[0])
    ensures ValueOf(Uncomma(Grouped(n))) == n
    ensures Grouped(n)[0] == '0' <==> n == 0
  {
    GroupedDigits(n);
    DigitsValue(n);
    GroupedLeads(n);
  }

  lemma {:induction false} GroupedLeads(n: nat)
    ensures Grouped(n)[0] == Digits(n)[0]
  {
    if n >= 1000 {
      GroupedLeads(n / 1000);
      DigitsSplit(n);
      assert Digits(n)[0] == Digits(n / 1000)[0];
    }
  }

  /** The example of the grouping: one million two hundred thirty-four thousand five hundred sixty-seven. */
  lemma GroupedExample()
    ensures Grouped(1234567) == "1,234,567"
    ensures Grouped(0) == "0"
    ensures WithCommas(-1000) == "-1,000"
  {
    assert Grouped(1) == "1";
    assert Grouped(1234) == "1" + "," + Pad3(234);
    assert Pad3(234) == "234";
    assert Pad3(567) == "567";
    assert 1234567 / 1000 == 1234 && 1234567 % 1000 == 567;
    assert Grouped(1234567) == Grouped(1234) + "," + Pad3(567);
    assert Pad3(0) == "000";
    assert Grouped(1000) == Grouped(1) + "," + Pad3(0);
  }
}
