/**
  Decimal rendering of non-negative integers, as Python's f-string `{n}` does
  it, and the account identifiers built from it: a one-letter prefix
  (`C` for customers, `M` for merchants) followed by the decimal number.
 */
module Decimal {

  predicate IsDigit(c: char)
  {
    '0' <= c <= '9'
  }

  predicate AllDigits(s: string)
  {
    forall i :: 0 <= i < |s| ==> IsDigit(s[i])
  }

  function DigitChar(d: nat): (c: char)
    requires d < 10
    ensures IsDigit(c)
  {
    "0123456789"[d]
  }

  function DigitValue(c: char): (d: nat)
    requires IsDigit(c)
    ensures d < 10
  {
    (c as int) - ('0' as int)
  }

  lemma DigitRoundTrip(d: nat)
    requires d < 10
    ensures DigitValue(DigitChar(d)) == d
  {
  }

  /** `str(n)` for `n >= 0`: decimal digits, most significant first, with no leading zero. */
  function Digits(n: nat): (s: string)
    ensures |s| >= 1
    ensures AllDigits(s)
    ensures s[0] == '0' ==> n == 0
  {
    if n < 10 then [DigitChar(n)] else Digits(n / 10) + [DigitChar(n % 10)]
  }

  /** `int(s)` for a string of decimal digits. */
  function Value(s: string): nat
    requires AllDigits(s)
  {
    if s == [] then 0 else Value(s[..|s| - 1]) * 10 + DigitValue(s[|s| - 1])
  }

  /** Reading back a rendered number gives the number. */
  lemma {:induction false} ValueOfDigits(n: nat)
    ensures Value(Digits(n)) == n
  {
    var s := Digits(n);
    if n < 10 {
      DigitRoundTrip(n);
    } else {
      ValueOfDigits(n / 10);
      assert s[..|s| - 1] == Digits(n / 10);
      DigitRoundTrip(n % 10);
    }
  }

  /** Rendering is injective: distinct numbers have distinct renderings. */
  lemma DigitsInjective(m: nat, n: nat)
    requires Digits(m) == Digits(n)
    ensures m == n
  {
    ValueOfDigits(m);
    ValueOfDigits(n);
  }

  function Pow10(k: nat): (p: nat)
    ensures p >= 1
  {
    if k == 0 then 1 else 10 * Pow10(k - 1)
  }

  /** A number in `[10^(k-1), 10^k)` renders to exactly `k` digits. */
  lemma {:induction false} DigitsLength(n: nat, k: nat)
    requires k >= 1
    requires Pow10(k - 1) <= n < Pow10(k)
    ensures |Digits(n)| == k
  {
    if k == 1 {
    } else {
      assert Pow10(k - 1) == 10 * Pow10(k - 2);
      assert n >= 10;
      DigitsLength(n / 10, k - 1);
    }
  }
}

module Accounts {
  import opened Decimal
  import opened Outcomes

  /** Lowest and highest number of the ten-digit accounts of the test-data generator. */
  const TenDigitLow: nat := 1000000000
  const TenDigitHigh: nat := 9999999999

  /** Lowest and highest number of the seven-digit accounts of the bulk and sample generators. */
  const SevenDigitLow: nat := 1000000
  const SevenDigitHigh: nat := 9999999

  /** `f"{prefix}{number}"`. */
  function AccountName(prefix: char, number: nat): (s: string)
    ensures |s| >= 2 && s[0] == prefix
    ensures AllDigits(s[1..])
  {
    [prefix] + Digits(number)
  }

  /** Splits an identifier into its prefix letter and number; `None` unless it is a letter followed by a canonical decimal. */
  function ParseAccount(s: string): Option<(char, nat)>
  {
    if |s| >= 2 && AllDigits(s[1..]) && (s[1] != '0' || |s| == 2) then
      Some((s[0], Value(s[1..])))
    else
      None
  }

  /** Every generated identifier parses back to the prefix and number it was built from. */
  lemma ParseAccountName(prefix: char, number: nat)
    ensures ParseAccount(AccountName(prefix, number)) == Some((prefix, number))
  {
    var s := AccountName(prefix, number);
    assert s[1..] == Digits(number);
    ValueOfDigits(number);
    if s[1] == '0' {
      assert number == 0;
    }
  }

  /** Two identifiers built from different (prefix, number) pairs differ. */
  lemma AccountNameInjective(p: char, m: nat, q: char, n: nat)
    requires AccountName(p, m) == AccountName(q, n)
    ensures p == q && m == n
  {
    ParseAccountName(p, m);
    ParseAccountName(q, n);
  }

  /** `generate_account_number(is_merchant)`: `M` or `C` followed by a ten-digit number drawn from `[1000000000, 9999999999]`. */
  function GenerateAccountNumber(isMerchant: bool, number: nat): (s: string)
    requires TenDigitLow <= number <= TenDigitHigh
    ensures |s| == 11
    ensures s[0] == (if isMerchant then 'M' else 'C')
    ensures ParseAccount(s) == Some((s[0], number))
  {
    TenDigits(number);
    ParseAccountName(if isMerchant then 'M' else 'C', number);
    AccountName(if isMerchant then 'M' else 'C', number)
  }

  /** The `C{randint(1000000, 9999999)}` identifiers of the bulk and sample generators. */
  function SevenDigitCustomer(number: nat): (s: string)
    requires SevenDigitLow <= number <= SevenDigitHigh
    ensures |s| == 8 && s[0] == 'C'
    ensures ParseAccount(s) == Some(('C', number))
  {
    SevenDigits(number);
    ParseAccountName('C', number);
    AccountName('C', number)
  }

  lemma TenDigits(number: nat)
    requires TenDigitLow <= number <= TenDigitHigh
    ensures |Digits(number)| == 10
  {
    assert Pow10(9) == TenDigitLow;
    assert Pow10(10) == TenDigitHigh + 1;
    DigitsLength(number, 10);
  }

  lemma SevenDigits(number: nat)
    requires SevenDigitLow <= number <= SevenDigitHigh
    ensures |Digits(number)| == 7
  {
    assert Pow10(6) == SevenDigitLow;
    assert Pow10(7) == SevenDigitHigh + 1;
    DigitsLength(number, 7);
  }

  /** The account has the merchant prefix. */
  predicate IsMerchant(name: string)
  {
    |name| > 0 && name[0] == 'M'
  }

  predicate IsCustomer(name: string)
  {
    |name| > 0 && name[0] == 'C'
  }
}
