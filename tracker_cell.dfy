/** The text a tracker cell shows under a tracker: the number of completed
    days with the Russian plural of "day" that agrees with it. */
module CellText {
  import opened Text

  /** The Russian plural rule for "day" after a number: 1, 21, 31, ... take "день";
      2-4, 22-24, ... take "дня"; 11-14 and everything else take "дней". */
  function DaysWord(n: nat): (word: string)
    ensures word == "день" || word == "дня" || word == "дней"
  {
    if n % 10 == 1 && n % 100 != 11 then "день"
    else if 2 <= n % 10 <= 4 && !(12 <= n % 100 <= 14) then "дня"
    else "дней"
  }

  /** The last two digits of a number are a tens digit followed by its last digit. */
  lemma LastTwoDigits(n: nat) returns (tens: nat)
    ensures tens < 10 && n % 100 == 10 * tens + n % 10
  {
    var q, r := n / 100, n % 100;
    tens := r / 10;
    assert r == 10 * tens + r % 10;
    assert n == 10 * (10 * q + tens) + r % 10;
  }

  /** The word depends only on the last two digits of the number. */
  lemma DaysWordByLastTwoDigits(a: nat, b: nat)
    requires a % 100 == b % 100
    ensures DaysWord(a) == DaysWord(b)
  {
    var ta := LastTwoDigits(a);
    var tb := LastTwoDigits(b);
    assert 10 * (ta - tb) == b % 10 - a % 10;
  }

  /** The word formatDays(count:) picks from the count's remainders modulo 10 and 100. */
  function CellWord(remainder10: int, remainder100: int): string {
    if remainder10 == 1 && remainder100 != 11 then "день"
    else if remainder10 >= 2 && remainder10 <= 4 && (remainder100 < 10 || remainder100 >= 20) then "дня"
    else "дней"
  }

  /** TrackerCell.formatDays(count:), on Swift's truncating `%`: the count, a space and the word. */
  function FormatDays(count: int): string {
    IntToString(count) + " " + CellWord(SwiftRem(count, 10), SwiftRem(count, 100))
  }

  /** For a count of days the cell picks the word of the plural rule. */
  lemma CellWordFollowsPluralRule(count: nat)
    ensures CellWord(SwiftRem(count, 10), SwiftRem(count, 100)) == DaysWord(count)
  {
    var tens := LastTwoDigits(count);
  }

  /** For a count of days the cell writes the count and then the word the plural rule asks for. */
  lemma FormatDaysFollowsPluralRule(count: nat)
    ensures FormatDays(count) == NatToString(count) + " " + DaysWord(count)
  {
    CellWordFollowsPluralRule(count);
  }

  /** A negative count always gets "дней". */
  lemma FormatDaysNegative(count: int)
    requires count < 0
    ensures FormatDays(count) == IntToString(count) + " " + "дней"
  {
  }
}
