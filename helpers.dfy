/** The formatting utilities: Arabic-script detection (used to set the
    writing direction of a name), the receipt number, and the empty case of
    date formatting. */
module Helpers {
  import opened Common
  import opened Text

  /** A character of the Arabic Unicode block, U+0600 to U+06FF. */
  predicate IsArabicChar(c: char) {
    '\U{0600}' <= c <= '\U{06FF}'
  }

  /** `isArabic`: absent or empty text is not Arabic; any other text is
      Arabic when the pattern `[؀-ۿ]` matches somewhere in it. */
  function IsArabic(text: Option<string>): (r: bool)
    ensures text.None? || text == Some("") ==> !r
    ensures r <==> text.Some? && exists i :: 0 <= i < |text.value| && IsArabicChar(text.value[i])
  {
    match text
    case None => false
    case Some(t) => t != "" && Any(t, IsArabicChar)
  }

  /** `formatDate`: absent or empty input gives the empty string; any other
      input is handed to the locale's long date rendering, `longDate`. */
  function FormatDate(dateString: Option<string>, longDate: string -> string): (r: string)
    ensures dateString.None? || dateString == Some("") ==> r == ""
    ensures dateString.Some? && dateString.value != "" ==> r == longDate(dateString.value)
  {
    match dateString
    case None => ""
    case Some(s) => if s == "" then "" else longDate(s)
  }

  /** A date as JavaScript's `Date` reports it; `monthIndex` is what
      `getMonth()` returns, 0 for January. */
  datatype CalendarDate = CalendarDate(year: nat, monthIndex: nat, day: nat)

  predicate ValidDate(d: CalendarDate) {
    d.monthIndex < 12 && 1 <= d.day <= 31
  }

  /** `String(n).padStart(2, '0')`. */
  function PadTwo(n: nat): (r: string)
    ensures |r| >= 2 && AllDigits(r)
    ensures n < 100 ==> |r| == 2 && DigitsValue(r) == n
  {
    var s := NatToString(n);
    NatToStringRoundTrip(n);
    if |s| >= 2 then s
    else
      var r := "0" + s;
      assert r[..1] == "0";
      r
  }

  /** `s.slice(-n)` for a positive `n`: the last `n` characters of `s`, or
      all of `s` when it is shorter. */
  function SliceLast(s: string, n: nat): (r: string)
    ensures |r| == if |s| < n then |s| else n
    ensures r == s[|s| - |r|..]
  {
    if |s| <= n then s else s[|s| - n..]
  }

  /** How many characters of the payment id end a receipt number. */
  const ID_SUFFIX_LENGTH: nat := 6

  /** `generateReceiptNumber`: `REC-` then the year, the two-digit month
      and the two-digit day of `today` (the date of generation, which the
      source reads from the clock), a dash, and the last six characters of
      the payment id printed in decimal. */
  function ReceiptNumber(paiementId: int, today: CalendarDate): (r: string)
    ensures |r| >= 10 && r[..4] == "REC-"
    ensures var suffix := SliceLast(IntToString(paiementId), ID_SUFFIX_LENGTH);
            |suffix| <= ID_SUFFIX_LENGTH && r[|r| - |suffix|..] == suffix && r[|r| - |suffix| - 1] == '-'
  {
    var head := "REC-" + NatToString(today.year) + PadTwo(today.monthIndex + 1) + PadTwo(today.day) + "-";
    var suffix := SliceLast(IntToString(paiementId), ID_SUFFIX_LENGTH);
    assert (head + suffix)[..4] == head[..4];
    assert (head + suffix)[|head|..] == suffix;
    head + suffix
  }

  /** The fields of a receipt number can be read back: the year's digits,
      the month (1 to 12) and the day as exactly two digits each, and the
      id's suffix after the second dash. */
  lemma ReceiptLayout(paiementId: int, today: CalendarDate)
    requires ValidDate(today)
    ensures var r := ReceiptNumber(paiementId, today);
            var y := |NatToString(today.year)|;
            |r| == y + 9 + |SliceLast(IntToString(paiementId), ID_SUFFIX_LENGTH)|
            && r[..4] == "REC-"
            && r[4..y + 4] == NatToString(today.year)
            && AllDigits(r[y + 4..y + 6]) && DigitsValue(r[y + 4..y + 6]) == today.monthIndex + 1
            && AllDigits(r[y + 6..y + 8]) && DigitsValue(r[y + 6..y + 8]) == today.day
            && r[y + 8] == '-'
            && r[y + 9..] == SliceLast(IntToString(paiementId), ID_SUFFIX_LENGTH)
  {
    var year := NatToString(today.year);
    var mm := PadTwo(today.monthIndex + 1);
    var dd := PadTwo(today.day);
    var suffix := SliceLast(IntToString(paiementId), ID_SUFFIX_LENGTH);
    var r := ReceiptNumber(paiementId, today);
    assert r == "REC-" + year + mm + dd + "-" + suffix;
    assert AllDigits(mm) && DigitsValue(mm) == today.monthIndex + 1;
    assert AllDigits(dd) && DigitsValue(dd) == today.day;
    ConcatLayout(year, mm, dd, suffix);
  }

  /** Where each piece of `REC-` + year + mm + dd + `-` + suffix sits. */
  lemma ConcatLayout(year: string, mm: string, dd: string, suffix: string)
    requires |mm| == 2 && |dd| == 2
    ensures var r := "REC-" + year + mm + dd + "-" + suffix;
            var y := |year|;
            |r| == y + 9 + |suffix| && r[..4] == "REC-" && r[4..y + 4] == year
            && r[y + 4..y + 6] == mm && r[y + 6..y + 8] == dd && r[y + 8] == '-'
            && r[y + 9..] == suffix
  {
    var r := "REC-" + year + mm + dd + "-" + suffix;
    var head := "REC-" + year;
    var tail := mm + dd + "-" + suffix;
    assert r == head + tail;
    var y := |year|;
    assert r[y + 4..] == tail;
    assert tail[..2] == mm && tail[2..4] == dd && tail[5..] == suffix;
    assert r[y + 4..y + 6] == tail[..2];
    assert r[y + 6..y + 8] == tail[2..4];
    assert r[y + 9..] == tail[5..];
  }

  /** For one payment, the receipt number determines the date it was
      generated on: the same payment printed on two different days gets two
      different numbers. */
  lemma ReceiptDeterminesDate(paiementId: int, d1: CalendarDate, d2: CalendarDate)
    requires ValidDate(d1) && ValidDate(d2)
    requires ReceiptNumber(paiementId, d1) == ReceiptNumber(paiementId, d2)
    ensures d1 == d2
  {
    ReceiptLayout(paiementId, d1);
    ReceiptLayout(paiementId, d2);
    var r := ReceiptNumber(paiementId, d1);
    var y := |NatToString(d1.year)|;
    assert |NatToString(d2.year)| == y;
    NatToStringInjective(d1.year, d2.year);
  }

  /** Two payments whose ids end in the same six characters get the same
      receipt number on the same day: the number is not unique per payment. */
  lemma ReceiptSharedSuffix(id1: int, id2: int, today: CalendarDate)
    requires SliceLast(IntToString(id1), ID_SUFFIX_LENGTH) == SliceLast(IntToString(id2), ID_SUFFIX_LENGTH)
    ensures ReceiptNumber(id1, today) == ReceiptNumber(id2, today)
  {
  }

  /** Payment 123456789, printed on 5 March 2024. */
  lemma ReceiptExample()
    ensures ReceiptNumber(123456789, CalendarDate(2024, 2, 5)) == "REC-20240305-456789"
  {
    PrintedYear();
    PrintedId();
    assert PadTwo(3) == "03";
    assert PadTwo(5) == "05";
    assert SliceLast("123456789", ID_SUFFIX_LENGTH) == "456789";
  }

  lemma PrintedYear()
    ensures NatToString(2024) == "2024"
  {
    assert NatToString(2) == "2";
    assert NatToString(20) == "20";
    assert NatToString(202) == "202";
  }

  lemma PrintedId()
    ensures IntToString(123456789) == "123456789"
  {
    assert NatToString(1) == "1";
    assert NatToString(12) == "12";
    assert NatToString(123) == "123";
    assert NatToString(1234) == "1234";
    assert NatToString(12345) == "12345";
    assert NatToString(123456) == "123456";
    assert NatToString(1234567) == "1234567";
    assert NatToString(12345678) == "12345678";
  }
}
