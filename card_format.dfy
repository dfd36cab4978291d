/** The card-field formatters of the two payment pages
    (app/flights/payment/page.tsx and app/yachts/payment/page.tsx carry
    identical copies): the card number in groups of four, the expiry as
    MM/YY, the CVV as at most three digits, and the "all fields filled" test. */
module CardFormat {
  import opened Common

  // ---------------------------------------------------------------------------
  // Card number

  /** `digits.replace(/(\d{4})/g, '$1 ')`: a space after every complete group
      of four digits, the last one included. */
  function Spaced(d: string): (r: string)
    decreases |d|
  {
    if |d| >= 4 then d[..4] + " " + Spaced(d[4..]) else d
  }

  /** The digits in groups of four separated by single spaces: what the card
      field should show. */
  function Grouped(d: string): (r: string)
    decreases |d|
  {
    if |d| <= 4 then d else d[..4] + " " + Grouped(d[4..])
  }

  /** `handleCardNumberChange`: drop every non-digit, group, trim. */
  function FormatCardNumber(input: string): (r: string)
  {
    Trim(Spaced(DigitsOnly(input)))
  }

  /** The independent description of a grouped card number `r` for the
      digits `d`: one separator per complete group that has digits after it,
      every fifth character a space, and the digits in order elsewhere. */
  ghost predicate IsGrouping(d: string, r: string)
  {
    |r| == (if d == [] then 0 else |d| + (|d| - 1) / 4)
    && forall k :: 0 <= k < |r| ==>
         if k % 5 == 4 then r[k] == ' ' else k - k / 5 < |d| && r[k] == d[k - k / 5]
  }

  lemma {:induction false} GroupedIsGrouping(d: string)
    ensures IsGrouping(d, Grouped(d))
    decreases |d|
  {
    var r := Grouped(d);
    if |d| > 4 {
      var rest := d[4..];
      GroupedIsGrouping(rest);
      var g := Grouped(rest);
      assert r == d[..4] + " " + g;
      forall k | 0 <= k < |r|
        ensures if k % 5 == 4 then r[k] == ' ' else k - k / 5 < |d| && r[k] == d[k - k / 5]
      {
        if k >= 5 {
          var j := k - 5;
          assert r[k] == g[j];
          assert j % 5 == k % 5 && j / 5 == k / 5 - 1;
          if k % 5 != 4 {
            assert g[j] == rest[j - j / 5];
          }
        }
      }
    }
  }

  /** Trimming the grouped-with-trailing-space text removes exactly the one
      space left after a final complete group. */
  lemma {:induction false} TrimSpaced(d: string)
    requires AllDigits(d)
    ensures Trim(Spaced(d)) == Grouped(d)
    decreases |d|
  {
    var s := Spaced(d);
    if |d| > 4 {
      TrimSpaced(d[4..]);
      assert s == d[..4] + " " + Spaced(d[4..]);
      assert TrimStart(s) == s by { assert !IsSpace(s[0]); }
      SpacedStart(d[4..]);
      TrimEndAppend(d[..4] + " ", Spaced(d[4..]));
    } else if |d| == 4 {
      assert s == d + " ";
      assert TrimStart(s) == s by { assert !IsSpace(s[0]); }
      assert s[..|s| - 1] == d;
      assert TrimEnd(d) == d by { assert !IsSpace(d[3]); }
    } else if d != [] {
      assert !IsSpace(d[0]) && !IsSpace(d[|d| - 1]);
      TrimOfTrimmed(d);
    }
  }

  /** The trim of a grouped number of digits starts with a digit. */
  lemma SpacedStart(d: string)
    requires AllDigits(d) && d != []
    ensures TrimStart(Spaced(d)) == Spaced(d) && TrimEnd(Spaced(d)) != []
  {
    var s := Spaced(d);
    assert s[0] == d[0];
    assert TrimEnd(s)[0] == s[0];
  }

  lemma TrimEndAppend(a: string, b: string)
    requires TrimEnd(b) != []
    ensures TrimEnd(a + b) == a + TrimEnd(b)
    decreases |b|
  {
    if b != [] && IsSpace(b[|b| - 1]) {
      assert (a + b)[..|a + b| - 1] == a + b[..|b| - 1];
      TrimEndAppend(a, b[..|b| - 1]);
    }
  }

  /** The grouped digits read back as the digits. */
  lemma {:induction false} DigitsOfGrouped(d: string)
    requires AllDigits(d)
    ensures DigitsOnly(Grouped(d)) == d
    decreases |d|
  {
    if |d| <= 4 {
      DigitsOnlyOfDigits(d);
    } else {
      DigitsOfGrouped(d[4..]);
      DigitsOnlyAppend(d[..4] + " ", Grouped(d[4..]));
      DigitsOnlyAppend(d[..4], " ");
      DigitsOnlyOfDigits(d[..4]);
      assert d[..4] + d[4..] == d;
    }
  }

  /** The card field shows the input's digits, in order, in groups of four
      separated by single spaces, with no space at either end; removing the
      spaces gives back exactly the digits typed. */
  lemma CardNumberGrouping(input: string)
    ensures IsGrouping(DigitsOnly(input), FormatCardNumber(input))
    ensures DigitsOnly(FormatCardNumber(input)) == DigitsOnly(input)
    ensures var r := FormatCardNumber(input); r == [] || (r[0] != ' ' && r[|r| - 1] != ' ')
  {
    var d := DigitsOnly(input);
    TrimSpaced(d);
    GroupedIsGrouping(d);
    DigitsOfGrouped(d);
    GroupedEnds(d);
  }

  /** A grouped number begins and ends with a digit of its own. */
  lemma {:induction false} GroupedEnds(d: string)
    requires AllDigits(d)
    ensures var r := Grouped(d); r == [] || (IsDigit(r[0]) && IsDigit(r[|r| - 1]))
    decreases |d|
  {
    if |d| > 4 {
      GroupedEnds(d[4..]);
    }
  }

  /** Editing a formatted number and typing it back gives the same text:
      formatting is idempotent. */
  lemma CardNumberIdempotent(input: string)
    ensures FormatCardNumber(FormatCardNumber(input)) == FormatCardNumber(input)
  {
    CardNumberGrouping(input);
  }

  // ---------------------------------------------------------------------------
  // Expiry

  /** `handleExpiryDateChange`: with more than four digits the field keeps
      `current`; otherwise two digits or fewer are shown as typed, and three
      or four as the month, a slash and the rest. */
  function FormatExpiry(input: string, current: string): (r: string)
  {
    var d := DigitsOnly(input);
    if |d| > 4 then current
    else if |d| <= 2 then d
    else d[..2] + "/" + d[2..]
  }

  /** The three cases of the expiry field, stated without the formatter's
      steps: a refused edit leaves the field, and an accepted one shows the
      input's digits, with a slash after the month exactly when the year has
      begun. */
  lemma ExpiryCases(input: string, current: string)
    ensures var d := DigitsOnly(input); var r := FormatExpiry(input, current);
      (|d| > 4 ==> r == current)
      && (|d| <= 2 ==> r == d)
      && (|d| <= 4 ==> DigitsOnly(r) == d)
      && (|d| <= 4 ==> ('/' in r <==> |d| >= 3))
      && (3 <= |d| <= 4 ==> |r| == |d| + 1 && r[2] == '/' && AllDigits(r[..2]) && AllDigits(r[3..]))
  {
    var d := DigitsOnly(input);
    var r := FormatExpiry(input, current);
    if |d| <= 2 {
      DigitsOnlyOfDigits(d);
    } else if |d| <= 4 {
      assert d[..2] + d[2..] == d;
      DigitsOnlyAppend(d[..2] + "/", d[2..]);
      DigitsOnlyAppend(d[..2], "/");
      DigitsOnlyOfDigits(d[..2]);
      DigitsOnlyOfDigits(d[2..]);
      assert r[3..] == d[2..];
    }
  }

  /** Typing the shown expiry back in shows it again. */
  lemma ExpiryIdempotent(input: string, current: string, later: string)
    requires |DigitsOnly(input)| <= 4
    ensures FormatExpiry(FormatExpiry(input, current), later) == FormatExpiry(input, current)
  {
    ExpiryCases(input, current);
  }

  // ---------------------------------------------------------------------------
  // CVV and the card test

  /** `value.replace(/\D/g, '').slice(0, 3)`. */
  function FormatCvv(input: string): (r: string)
  {
    var d := DigitsOnly(input);
    if |d| <= 3 then d else d[..3]
  }

  /** The CVV field holds the first (at most three) digits typed. */
  lemma CvvDigits(input: string)
    ensures var r := FormatCvv(input);
      AllDigits(r) && |r| <= 3 && r <= DigitsOnly(input)
      && (|DigitsOnly(input)| <= 3 ==> r == DigitsOnly(input))
  {
  }

  /** `isCardValid`: every card field is non-empty. */
  predicate CardValid(cardNumber: string, cardHolder: string, expiry: string, cvv: string)
  {
    cardNumber != "" && cardHolder != "" && expiry != "" && cvv != ""
  }

  /** The card test holds for formatted fields exactly when the number,
      expiry and CVV inputs each held a digit and the holder is not empty. */
  lemma CardValidOfFormatted(number: string, holder: string, expiry: string, current: string, cvv: string)
    requires |DigitsOnly(expiry)| <= 4
    ensures CardValid(FormatCardNumber(number), holder, FormatExpiry(expiry, current), FormatCvv(cvv))
      <==> DigitsOnly(number) != [] && holder != [] && DigitsOnly(expiry) != [] && DigitsOnly(cvv) != []
  {
    CardNumberGrouping(number);
    ExpiryCases(expiry, current);
  }
}
