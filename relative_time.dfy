/** The age shown on each card (src/App.jsx, `formatTimeAgo`): whole
    seconds below a minute, whole minutes below an hour, and hours with the
    leftover minutes beyond. The clock is a parameter: `nowMs` is the
    `currentTime` the one-second ticker last stored. */
module RelativeTime {
  import opened Wrappers
  import opened Orders
  import opened Sorting

  /** The three shapes of the label, and the label of a card without a date,
      where the subtraction yields NaN and both comparisons fail. */
  datatype Ago =
    | SecondsAgo(seconds: int)
    | MinutesAgo(minutes: int)
    | HoursAgo(hours: int, minutes: int)
    | NoDate

  /** `Math.floor((now - then) / 1000)`: whole seconds elapsed, rounded down
      (for a positive divisor Dafny's `/` is the floor). */
  function ElapsedSeconds(nowMs: int, thenMs: int): (d: int)
    ensures d * 1000 <= nowMs - thenMs < d * 1000 + 1000
  {
    (nowMs - thenMs) / 1000
  }

  /** The bucket and the numbers of the label for an order dated `thenMs`.
      Each number is the elapsed time rounded down to its unit; a date in
      the future shows as negative seconds. */
  function TimeAgo(nowMs: int, thenMs: int): (r: Ago)
    ensures !r.NoDate?
    ensures r.SecondsAgo? <==> nowMs - thenMs < 60_000
    ensures r.MinutesAgo? <==> 60_000 <= nowMs - thenMs < 3_600_000
    ensures r.HoursAgo? <==> 3_600_000 <= nowMs - thenMs
    ensures r.SecondsAgo? ==>
      r.seconds < 60 && r.seconds * 1000 <= nowMs - thenMs < r.seconds * 1000 + 1000
    ensures r.MinutesAgo? ==>
      1 <= r.minutes < 60 && r.minutes * 60_000 <= nowMs - thenMs < r.minutes * 60_000 + 60_000
    ensures r.HoursAgo? ==>
      && 1 <= r.hours && 0 <= r.minutes < 60
      && (r.hours * 60 + r.minutes) * 60_000 <= nowMs - thenMs
      && nowMs - thenMs < (r.hours * 60 + r.minutes) * 60_000 + 60_000
  {
    var diff := ElapsedSeconds(nowMs, thenMs);
    if diff < 60 then SecondsAgo(diff)
    else if diff < 3600 then
      var m := diff / 60;
      assert m * 60 <= diff < m * 60 + 60;
      MinutesAgo(m)
    else
      var h, m := diff / 3600, (diff % 3600) / 60;
      assert diff == h * 3600 + diff % 3600;
      assert m * 60 <= diff % 3600 < m * 60 + 60;
      HoursAgo(h, m)
  }

  /** The age of an order by the date the cards show,
      `order.createdAt || order.timestamp`. */
  function OrderAge(nowMs: int, o: Order): (r: Ago)
    ensures r.NoDate? <==> TimeOf(o, CreatedAtOrTimestamp).None?
    ensures o.createdAt.Some? ==> r == TimeAgo(nowMs, o.createdAt.value)
    ensures o.createdAt.None? && o.timestamp.Some? ==> r == TimeAgo(nowMs, o.timestamp.value)
  {
    match TimeOf(o, CreatedAtOrTimestamp)
    case None => NoDate
    case Some(t) => TimeAgo(nowMs, t)
  }

  /** A later clock never shows a younger age, bucket by bucket. */
  lemma TimeAgoMonotone(nowMs: int, laterMs: int, thenMs: int)
    requires nowMs <= laterMs
    ensures TimeAgo(nowMs, thenMs).HoursAgo? ==> TimeAgo(laterMs, thenMs).HoursAgo?
    ensures TimeAgo(laterMs, thenMs).SecondsAgo? ==> TimeAgo(nowMs, thenMs).SecondsAgo?
    ensures ElapsedSeconds(nowMs, thenMs) <= ElapsedSeconds(laterMs, thenMs)
  {
  }

  // ---------------------------------------------------------------------
  // The label text

  function DigitChar(d: int): char
    requires 0 <= d < 10
  {
    ('0' as int + d) as char
  }

  predicate IsDigits(s: string) {
    forall i :: 0 <= i < |s| ==> '0' <= s[i] <= '9'
  }

  /** The decimal digits of a number, as a template literal writes it. */
  function NatText(n: nat): (r: string)
    ensures |r| >= 1 && IsDigits(r)
    ensures |r| > 1 ==> r[0] != '0'
  {
    if n < 10 then [DigitChar(n)] else NatText(n / 10) + [DigitChar(n % 10)]
  }

  /** The number a string of decimal digits denotes. */
  function DigitsValue(s: string): nat
    requires IsDigits(s)
  {
    if s == [] then 0
    else DigitsValue(s[..|s| - 1]) * 10 + (s[|s| - 1] as int - '0' as int)
  }

  /** Reading the digits back gives the number. */
  lemma {:induction false} NatTextRoundTrip(n: nat)
    ensures DigitsValue(NatText(n)) == n
  {
    if n >= 10 {
      NatTextRoundTrip(n / 10);
      var r := NatText(n);
      assert r[..|r| - 1] == NatText(n / 10);
    }
  }

  /** Different numbers are written differently. */
  lemma NatTextInjective(a: nat, b: nat)
    requires NatText(a) == NatText(b)
    ensures a == b
  {
    NatTextRoundTrip(a);
    NatTextRoundTrip(b);
  }

  /** The characters an integer is written with. */
  predicate IsNumeral(s: string) {
    forall i :: 0 <= i < |s| ==> '0' <= s[i] <= '9' || s[i] == '-'
  }

  /** An integer in a template literal: a minus sign before the digits of a
      negative number. */
  function IntText(n: int): (r: string)
    ensures |r| >= 1 && IsNumeral(r) && (r[0] == '-' <==> n < 0)
    ensures n >= 0 ==> IsDigits(r) && DigitsValue(r) == n
    ensures n < 0 ==> |r| >= 2 && IsDigits(r[1..]) && DigitsValue(r[1..]) == -n
    ensures var k := if n < 0 then 1 else 0; |r| > k + 1 ==> r[k] != '0'
  {
    if n < 0 then
      NatTextRoundTrip(-n);
      var r := "-" + NatText(-n);
      assert r[1..] == NatText(-n);
      assert forall i :: 1 <= i < |r| ==> r[i] == r[1..][i - 1];
      r
    else
      NatTextRoundTrip(n);
      NatText(n)
  }

  /** Reads an integer written as `IntText` writes it. */
  function ParseInt(s: string): Option<int> {
    if |s| >= 2 && s[0] == '-' && IsDigits(s[1..]) then Some(-(DigitsValue(s[1..]) as int))
    else if |s| >= 1 && IsDigits(s) then Some(DigitsValue(s))
    else None
  }

  lemma IntTextRoundTrip(n: int)
    ensures ParseInt(IntText(n)) == Some(n)
  {
  }

  /** The amount part of the label: `12s`, `5m`, `2h 7m`, and `NaNh NaNm`
      for a card without a date. It ends in the letter of its smallest
      unit. */
  function Amount(a: Ago): (r: string)
    ensures |r| >= 2
    ensures r[|r| - 1] == if a.SecondsAgo? then 's' else 'm'
  {
    match a
    case SecondsAgo(s) => IntText(s) + "s"
    case MinutesAgo(m) => IntText(m) + "m"
    case HoursAgo(h, m) => IntText(h) + "h " + IntText(m) + "m"
    case NoDate => "NaNh NaNm"
  }

  /** The place of the first `c` in `s`, or `|s|` when there is none. */
  function IndexOf(s: string, c: char): (k: nat)
    ensures k <= |s|
    ensures k < |s| ==> s[k] == c
    ensures forall i :: 0 <= i < k ==> s[i] != c
  {
    if s == [] then 0
    else if s[0] == c then 0
    else 1 + IndexOf(s[1..], c)
  }

  /** Reads an amount back: the unit letter at the end, and an `h` with a
      space after it between the hours and the minutes. */
  function ParseAmount(r: string): Option<Ago> {
    if r == "NaNh NaNm" then Some(NoDate)
    else if |r| == 0 then None
    else
      var body := r[..|r| - 1];
      if r[|r| - 1] == 's' then
        match ParseInt(body)
        case Some(n) => Some(SecondsAgo(n))
        case None => None
      else if r[|r| - 1] != 'm' then None
      else
        var k := IndexOf(body, 'h');
        if k == |body| then
          match ParseInt(body)
          case Some(n) => Some(MinutesAgo(n))
          case None => None
        else if k + 1 < |body| && body[k + 1] == ' ' then
          match (ParseInt(body[..k]), ParseInt(body[k + 2..]))
          case (Some(h), Some(m)) => Some(HoursAgo(h, m))
          case _ => None
        else None
  }

  /** An amount starts with a numeral, so it is never the no-date text. */
  lemma AmountIsNotNaN(a: Ago)
    requires !a.NoDate?
    ensures Amount(a) != "NaNh NaNm"
  {
    var lead := match a
      case SecondsAgo(s) => IntText(s)
      case MinutesAgo(m) => IntText(m)
      case HoursAgo(h, _) => IntText(h);
    assert Amount(a)[0] == lead[0];
  }

  lemma MinutesAmountRoundTrip(m: int)
    ensures ParseAmount(Amount(MinutesAgo(m))) == Some(MinutesAgo(m))
  {
    var r := Amount(MinutesAgo(m));
    AmountIsNotNaN(MinutesAgo(m));
    var body := r[..|r| - 1];
    assert body == IntText(m);
    assert IndexOf(body, 'h') == |body|;
    IntTextRoundTrip(m);
  }

  /** In `x h y` with a numeral `x`, the first `h` stands right after `x`. */
  lemma HoursBodySplit(x: string, y: string)
    requires IsNumeral(x)
    ensures var b := x + "h " + y;
      && IndexOf(b, 'h') == |x| && b[|x| + 1] == ' ' && b[..|x|] == x && b[|x| + 2..] == y
  {
    var b := x + "h " + y;
    assert b[|x|] == 'h';
    assert b[..|x|] == x;
    assert b[|x| + 2..] == y;
  }

  /** The hours branch of `ParseAmount`. */
  lemma ParseHours(r: string, h: int, m: int)
    requires r != "NaNh NaNm" && |r| > 0 && r[|r| - 1] == 'm'
    requires var body := r[..|r| - 1]; var k := IndexOf(body, 'h');
      && k + 1 < |body| && body[k + 1] == ' '
      && ParseInt(body[..k]) == Some(h) && ParseInt(body[k + 2..]) == Some(m)
    ensures ParseAmount(r) == Some(HoursAgo(h, m))
  {
  }

  lemma HoursAmountRoundTrip(h: int, m: int)
    ensures ParseAmount(Amount(HoursAgo(h, m))) == Some(HoursAgo(h, m))
  {
    var r := Amount(HoursAgo(h, m));
    AmountIsNotNaN(HoursAgo(h, m));
    var x, y := IntText(h), IntText(m);
    var body := r[..|r| - 1];
    assert body == x + "h " + y;
    HoursBodySplit(x, y);
    IntTextRoundTrip(h);
    IntTextRoundTrip(m);
    ParseHours(r, h, m);
  }

  /** Reading an amount back gives the age it was written from. */
  lemma AmountRoundTrip(a: Ago)
    ensures ParseAmount(Amount(a)) == Some(a)
  {
    match a
    case NoDate =>
    case SecondsAgo(s) =>
      var r := Amount(a);
      AmountIsNotNaN(a);
      assert r[..|r| - 1] == IntText(s);
      IntTextRoundTrip(s);
    case MinutesAgo(m) => MinutesAmountRoundTrip(m);
    case HoursAgo(h, m) => HoursAmountRoundTrip(h, m);
  }

  /** The text of the label: the amount followed by ` ago`. The letter
      before ` ago` tells seconds (`s`) from minutes and hours (`m`). */
  function Label(a: Ago): (r: string)
    ensures |r| >= 6 && r[|r| - 4..] == " ago"
    ensures r[|r| - 5] == if a.SecondsAgo? then 's' else 'm'
  {
    var r := Amount(a) + " ago";
    assert r[|r| - 4..] == " ago";
    r
  }

  /** Reads a label back to the age it shows. */
  function ParseLabel(r: string): Option<Ago> {
    if |r| >= 4 && r[|r| - 4..] == " ago" then ParseAmount(r[..|r| - 4]) else None
  }

  /** Each label reads back to the age it was written from. */
  lemma LabelRoundTrip(a: Ago)
    ensures ParseLabel(Label(a)) == Some(a)
  {
    var r := Label(a);
    assert r[..|r| - 4] == Amount(a);
    AmountRoundTrip(a);
  }

  /** Different ages never show the same text. */
  lemma LabelInjective(a: Ago, b: Ago)
    requires Label(a) == Label(b)
    ensures a == b
  {
    LabelRoundTrip(a);
    LabelRoundTrip(b);
  }

  /** `formatTimeAgo(order.createdAt || order.timestamp)`: a card without a
      date reads `NaNh NaNm ago`, and a dated card shows seconds exactly
      while it is under a minute old. */
  function FormatTimeAgo(nowMs: int, o: Order): (r: string)
    ensures |r| >= 6 && r[|r| - 4..] == " ago"
    ensures TimeOf(o, CreatedAtOrTimestamp).None? ==> r == "NaNh NaNm ago"
    ensures TimeOf(o, CreatedAtOrTimestamp).Some? ==>
      (r[|r| - 5] == 's' <==> nowMs - TimeOf(o, CreatedAtOrTimestamp).value < 60_000)
    ensures ParseLabel(r) == Some(OrderAge(nowMs, o))
  {
    LabelRoundTrip(OrderAge(nowMs, o));
    Label(OrderAge(nowMs, o))
  }

  /** Two cards that show the same label at the same instant have the same
      age, to the unit the label shows. */
  lemma SameLabelSameAge(nowMs: int, o1: Order, o2: Order)
    requires FormatTimeAgo(nowMs, o1) == FormatTimeAgo(nowMs, o2)
    ensures OrderAge(nowMs, o1) == OrderAge(nowMs, o2)
  {
    LabelInjective(OrderAge(nowMs, o1), OrderAge(nowMs, o2));
  }

  lemma DigitTexts()
    ensures IntText(0) == "0" && IntText(1) == "1" && IntText(2) == "2" && IntText(5) == "5"
  {
    assert IntText(0) == "0" && IntText(1) == "1";
  }

  lemma LabelTexts()
    ensures Label(MinutesAgo(1)) == "1m ago"
    ensures Label(HoursAgo(2, 5)) == "2h 5m ago"
    ensures Label(SecondsAgo(0)) == "0s ago"
  {
    DigitTexts();
    assert Amount(MinutesAgo(1)) == "1m";
    assert Amount(HoursAgo(2, 5)) == "2h 5m";
    assert Amount(SecondsAgo(0)) == "0s";
  }

  /** Ninety seconds after creation a card reads `1m ago`; two hours and
      five minutes after, `2h 5m ago`. */
  lemma LabelExamples(o: Order)
    requires o.createdAt == Some(1_000_000)
    ensures FormatTimeAgo(1_090_000, o) == "1m ago"
    ensures FormatTimeAgo(1_000_000 + 7_500_000, o) == "2h 5m ago"
    ensures FormatTimeAgo(1_000_500, o) == "0s ago"
  {
    assert OrderAge(1_090_000, o) == MinutesAgo(1);
    assert OrderAge(1_000_000 + 7_500_000, o) == HoursAgo(2, 5);
    assert OrderAge(1_000_500, o) == SecondsAgo(0);
    LabelTexts();
  }
}
