/** The invoice numbering scheme: `Invoice._getInvoiceNumber` and the pieces
    of Python string handling it relies on (`str(n)`, `s[-7:]`,
    `s.replace(" ", "")`). Everything here is pure. */
module InvoiceNumbering {

  /** The initial value of the class-wide counter `Invoice._invoiceIds`. */
  const FirstInvoiceId: nat := 90001

  /** The number of characters `_getInvoiceNumber` keeps from the end of the date. */
  const DateTailLength: nat := 7

  predicate IsDigit(c: char) {
    '0' <= c <= '9'
  }

  predicate AllDigits(s: string) {
    forall i :: 0 <= i < |s| ==> IsDigit(s[i])
  }

  predicate NoSpaces(s: string) {
    forall i :: 0 <= i < |s| ==> s[i] != ' '
  }

  /** The character of a single decimal digit. */
  function DigitChar(d: nat): (c: char)
    requires d < 10
    ensures IsDigit(c) && c as int - '0' as int == d
  {
    ('0' as int + d) as char
  }

  /** Python's `str(n)` for a non-negative integer: decimal digits, no leading zero. */
  function DecimalString(n: nat): (r: string)
    ensures |r| >= 1 && AllDigits(r)
    ensures r[0] == '0' <==> n == 0
    decreases n
  {
    if n < 10 then [DigitChar(n)] else DecimalString(n / 10) + [DigitChar(n % 10)]
  }

  /** The value of a string of decimal digits, most significant digit first. */
  function DecimalValue(s: string): nat
    requires AllDigits(s)
  {
    if s == [] then 0 else 10 * DecimalValue(s[..|s| - 1]) + (s[|s| - 1] as int - '0' as int)
  }

  /** Reading back the digits `str(n)` writes gives `n`. */
  lemma {:induction false} DecimalRoundTrip(n: nat)
    ensures DecimalValue(DecimalString(n)) == n
    decreases n
  {
    if n >= 10 {
      var s := DecimalString(n);
      assert s[..|s| - 1] == DecimalString(n / 10);
      DecimalRoundTrip(n / 10);
    }
  }

  /** Distinct counter values are written as distinct digit strings. */
  lemma DecimalStringInjective(a: nat, b: nat)
    requires DecimalString(a) == DecimalString(b)
    ensures a == b
  {
    DecimalRoundTrip(a);
    DecimalRoundTrip(b);
  }

  /** Python's `s[-n:]` for `n > 0`: the last `n` characters, or all of `s` when it is shorter. */
  function LastChars(s: string, n: nat): (r: string)
    requires n > 0
    ensures |r| == if |s| < n then |s| else n
    ensures forall i :: 0 <= i < |r| ==> r[i] == s[|s| - |r| + i]
  {
    if |s| <= n then s else s[|s| - n..]
  }

  /** Python's `s.replace(" ", "")`: `s` with every space dropped, order kept. */
  function RemoveSpaces(s: string): (r: string)
    ensures |r| <= |s|
    ensures NoSpaces(r)
    ensures NoSpaces(s) ==> r == s
    ensures forall c :: c != ' ' ==> multiset(r)[c] == multiset(s)[c]
  {
    if s == [] then [] else
      assert s == [s[0]] + s[1..];
      (if s[0] == ' ' then [] else [s[0]]) + RemoveSpaces(s[1..])
  }

  /** Dropping spaces can be done piece by piece. */
  lemma {:induction false} RemoveSpacesAppend(a: string, b: string)
    ensures RemoveSpaces(a + b) == RemoveSpaces(a) + RemoveSpaces(b)
  {
    if a == [] {
      assert a + b == b;
    } else {
      assert (a + b)[0] == a[0];
      assert (a + b)[1..] == a[1..] + b;
      RemoveSpacesAppend(a[1..], b);
    }
  }

  /** The date part of an invoice number: `date[-7:].replace(" ", "")`. */
  function DateSuffix(date: string): (r: string)
    ensures |r| <= DateTailLength && NoSpaces(r)
  {
    RemoveSpaces(LastChars(date, DateTailLength))
  }

  /** The invoice number built from counter value `serial` and creation date `date`:
      `str(serial) + date[-7:].replace(" ", "")`. */
  function InvoiceNumberOf(serial: nat, date: string): string {
    DecimalString(serial) + DateSuffix(date)
  }

  /** An invoice number splits back into the counter value it was built from
      and the date suffix. */
  lemma InvoiceNumberDecodes(serial: nat, date: string)
    ensures var r, k := InvoiceNumberOf(serial, date), |DateSuffix(date)|;
      && |r| > k
      && AllDigits(r[..|r| - k])
      && DecimalValue(r[..|r| - k]) == serial
      && r[|r| - k..] == DateSuffix(date)
  {
    var r, k := InvoiceNumberOf(serial, date), |DateSuffix(date)|;
    assert r[..|r| - k] == DecimalString(serial);
    assert r[|r| - k..] == DateSuffix(date);
    DecimalRoundTrip(serial);
  }

  /** Two counter values give two different invoice numbers whenever the date
      suffixes have the same length. */
  lemma InvoiceNumbersDistinct(a: nat, b: nat, d1: string, d2: string)
    requires a != b
    requires |DateSuffix(d1)| == |DateSuffix(d2)|
    ensures InvoiceNumberOf(a, d1) != InvoiceNumberOf(b, d2)
  {
    if InvoiceNumberOf(a, d1) == InvoiceNumberOf(b, d2) {
      var r := InvoiceNumberOf(a, d1);
      assert |DecimalString(a)| == |DecimalString(b)|;
      assert DecimalString(a) == r[..|DecimalString(a)|] == DecimalString(b);
      DecimalStringInjective(a, b);
    }
  }

  /** The shape of `datetime.now().strftime("%a %b %d %Y")` for a four-digit
      year, e.g. "Tue Oct 14 2026": weekday and month names without spaces,
      then a two-digit day and a four-digit year, separated by single spaces. */
  predicate IsStrftimeDate(d: string) {
    && |d| == 15
    && d[3] == ' ' && d[7] == ' ' && d[10] == ' '
    && NoSpaces(d[..3]) && NoSpaces(d[4..7])
    && AllDigits(d[8..10]) && AllDigits(d[11..])
  }

  /** For such a date, the suffix is the day followed by the year ("142026"). */
  lemma StrftimeDateSuffix(d: string)
    requires IsStrftimeDate(d)
    ensures DateSuffix(d) == d[8..10] + d[11..]
    ensures |DateSuffix(d)| == 6 && AllDigits(DateSuffix(d))
  {
    var tail := LastChars(d, DateTailLength);
    assert tail == d[8..10] + [' '] + d[11..];
    RemoveSpacesAppend(d[8..10] + [' '], d[11..]);
    RemoveSpacesAppend(d[8..10], [' ']);
    assert RemoveSpaces([' ']) == [];
    assert NoSpaces(d[8..10]) && NoSpaces(d[11..]);
  }

  /** Invoices created from distinct counter values on dates of that shape
      never share a number (`POS._allInvoices` is keyed by it). */
  lemma StrftimeNumbersDistinct(a: nat, b: nat, d1: string, d2: string)
    requires a != b && IsStrftimeDate(d1) && IsStrftimeDate(d2)
    ensures InvoiceNumberOf(a, d1) != InvoiceNumberOf(b, d2)
  {
    StrftimeDateSuffix(d1);
    StrftimeDateSuffix(d2);
    InvoiceNumbersDistinct(a, b, d1, d2);
  }
}
