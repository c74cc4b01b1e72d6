/**
 * `format_number`: the parenthesised B/M/K abbreviation shown under each
 * statistic, with one digit after the decimal point.
 */
module Abbreviation {
  import opened Outcomes
  import opened Decimal

  const Thousand: nat := 1_000
  const Million: nat := 1_000_000
  const Billion: nat := 1_000_000_000

  /**
   * How many tenths of `unit` the `:.1f` conversion of `n / unit` prints. The
   * quotient is a binary float and the conversion rounds it, so the model
   * leaves this a parameter; FaithfulTenths says what is known of it.
   */
  type Tenths = (nat, nat) -> nat

  /** 2^53: below it every integer, and so every quotient's rounding, behaves exactly. */
  const FloatExactBound: nat := 0x20_0000_0000_0000

  /**
   * For counts a double holds exactly, the printed tenths are the quotient's
   * tenths rounded down or up, and exact when the quotient has one decimal.
   */
  ghost predicate FaithfulTenths(tenths: Tenths) {
    forall n: nat, unit: nat ::
      n < FloatExactBound && (unit == Thousand || unit == Million || unit == Billion) ==>
        n * 10 / unit <= tenths(n, unit) <= n * 10 / unit + 1
        && (n * 10 % unit == 0 ==> tenths(n, unit) == n * 10 / unit)
  }

  /** `f"({t / 10}.{t % 10}{suffix})"`: a quotient of `t` tenths with its suffix. */
  function Abbreviate(t: nat, suffix: char): string {
    "(" + DecimalString(t / 10) + "." + [DigitChar(t % 10)] + [suffix] + ")"
  }

  /** `format_number(num)`: tiers checked from the largest down; nothing below a thousand. */
  function FormatNumber(n: nat, tenths: Tenths): (s: string)
    ensures s == "" <==> n < Thousand
    ensures s != "" ==> |s| >= 6 && s[0] == '(' && s[|s| - 1] == ')' && s[|s| - 4] == '.'
    ensures s != "" ==> (s[|s| - 2] == 'B' <==> Billion <= n)
    ensures s != "" ==> (s[|s| - 2] == 'M' <==> Million <= n < Billion)
    ensures s != "" ==> (s[|s| - 2] == 'K' <==> Thousand <= n < Million)
  {
    if n >= Billion then Abbreviate(tenths(n, Billion), 'B')
    else if n >= Million then Abbreviate(tenths(n, Million), 'M')
    else if n >= Thousand then Abbreviate(tenths(n, Thousand), 'K')
    else ""
  }

  /**
   * Reads an abbreviation back: "(", an integer part, ".", one digit, a suffix
   * among K, M, B, and ")"; gives the tenths and the suffix.
   */
  function ParseAbbreviation(s: string): Option<(nat, char)> {
    if |s| >= 6 && s[0] == '(' && s[|s| - 1] == ')' && s[|s| - 2] in "KMB"
       && IsDigit(s[|s| - 3]) && s[|s| - 4] == '.'
    then
      match ParseDecimal(s[1..|s| - 4])
      case Some(whole) => Some((whole * 10 + DigitValue(s[|s| - 3]), s[|s| - 2]))
      case None => None
    else None
  }

  lemma AbbreviateParses(t: nat, suffix: char)
    requires suffix in "KMB"
    ensures ParseAbbreviation(Abbreviate(t, suffix)) == Some((t, suffix))
  {
    var s := Abbreviate(t, suffix);
    var whole := DecimalString(t / 10);
    assert s == "(" + whole + "." + [DigitChar(t % 10)] + [suffix] + ")";
    assert s[1..|s| - 4] == whole;
    ParseDecimalString(t / 10);
    DigitCharValue(t % 10);
  }

  /**
   * Every non-empty result is exactly one abbreviation: the tier's tenths and
   * suffix, with the tier chosen by the count alone.
   */
  lemma FormatNumberParses(n: nat, tenths: Tenths)
    ensures n < Thousand ==> ParseAbbreviation(FormatNumber(n, tenths)) == None
    ensures Billion <= n ==> ParseAbbreviation(FormatNumber(n, tenths)) == Some((tenths(n, Billion), 'B'))
    ensures Million <= n < Billion ==> ParseAbbreviation(FormatNumber(n, tenths)) == Some((tenths(n, Million), 'M'))
    ensures Thousand <= n < Million ==> ParseAbbreviation(FormatNumber(n, tenths)) == Some((tenths(n, Thousand), 'K'))
  {
    if n >= Billion {
      AbbreviateParses(tenths(n, Billion), 'B');
    } else if n >= Million {
      AbbreviateParses(tenths(n, Million), 'M');
    } else if n >= Thousand {
      AbbreviateParses(tenths(n, Thousand), 'K');
    }
  }

  /** The unit of the tier `n` falls in (a thousand below the K tier, where nothing prints). */
  function TierUnit(n: nat): nat {
    if n >= Billion then Billion else if n >= Million then Million else Thousand
  }

  /**
   * When `n` is a whole number of tenths of its tier's unit the digits are
   * exact: the printed value is `n / unit` to one decimal.
   */
  lemma ExactAbbreviation(n: nat, tenths: Tenths)
    requires FaithfulTenths(tenths)
    requires Thousand <= n < FloatExactBound
    requires n * 10 % TierUnit(n) == 0
    ensures ParseAbbreviation(FormatNumber(n, tenths)).Some?
    ensures ParseAbbreviation(FormatNumber(n, tenths)).value.0 == n * 10 / TierUnit(n)
  {
    FormatNumberParses(n, tenths);
    assert tenths(n, TierUnit(n)) == n * 10 / TierUnit(n);
  }

  /** The printed tenths are never more than one tenth above the true quotient. */
  lemma AbbreviationBrackets(n: nat, tenths: Tenths)
    requires FaithfulTenths(tenths)
    requires Thousand <= n < FloatExactBound
    ensures var t := ParseAbbreviation(FormatNumber(n, tenths)).value.0;
      n * 10 / TierUnit(n) <= t <= n * 10 / TierUnit(n) + 1
  {
    FormatNumberParses(n, tenths);
  }

  /** 1,500 prints as (1.5K) and 5,000 as (5.0K), never (5K): the decimal place is always
      there. 999 prints nothing. */
  lemma KnownAbbreviations(tenths: Tenths)
    requires FaithfulTenths(tenths)
    ensures FormatNumber(1_500, tenths) == "(1.5K)"
    ensures FormatNumber(5_000, tenths) == "(5.0K)"
    ensures FormatNumber(999, tenths) == ""
  {
    assert tenths(1_500, Thousand) == 15;
    assert tenths(5_000, Thousand) == 50;
  }

  /** 3,000,000 prints as (3.0M) and 1,000,000,000 as (1.0B). */
  lemma KnownLargeAbbreviations(tenths: Tenths)
    requires FaithfulTenths(tenths)
    ensures FormatNumber(3_000_000, tenths) == "(3.0M)"
    ensures FormatNumber(1_000_000_000, tenths) == "(1.0B)"
  {
    assert tenths(3_000_000, Million) == 30;
    assert tenths(1_000_000_000, Billion) == 10;
  }

  /** The sample's subscriber total, 664,300, prints as (664.3K). */
  lemma SubscriberTotalAbbreviation(tenths: Tenths)
    requires FaithfulTenths(tenths)
    ensures FormatNumber(664_300, tenths) == "(664.3K)"
  {
    assert tenths(664_300, Thousand) == 6643;
    assert DecimalString(664) == "664";
  }
}
