/** ISO 8601 dates, times and UTC timestamps as Python's `isoformat` writes them. */
module IsoTime {
  import opened Decimal
  import opened Prelude

  datatype Ymd = Ymd(year: nat, month: nat, day: nat)

  predicate LeapYear(y: nat) {
    y % 4 == 0 && (y % 100 != 0 || y % 400 == 0)
  }

  function DaysIn(y: nat, m: nat): nat {
    if m == 2 then (if LeapYear(y) then 29 else 28)
    else if m in {4, 6, 9, 11} then 30
    else 31
  }

  /** The lengths of the months, and which years have a 29th of February. */
  lemma MonthLengths(y: nat, m: nat)
    requires 1 <= m <= 12
    ensures m in {1, 3, 5, 7, 8, 10, 12} ==> DaysIn(y, m) == 31
    ensures m in {4, 6, 9, 11} ==> DaysIn(y, m) == 30
    ensures m == 2 ==> DaysIn(y, m) == if LeapYear(y) then 29 else 28
    ensures LeapYear(y) <==> (y % 4 == 0 && y % 100 != 0) || y % 400 == 0
  {
  }

  predicate ValidDate(d: Ymd) {
    1 <= d.year <= 9999 && 1 <= d.month <= 12 && 1 <= d.day <= DaysIn(d.year, d.month)
  }

  type Date = d: Ymd | ValidDate(d) witness Ymd(1, 1, 1)

  datatype Clock = Clock(hour: nat, minute: nat, second: nat, micro: nat)

  predicate ValidTime(t: Clock) {
    t.hour < 24 && t.minute < 60 && t.second < 60 && t.micro < 1000000
  }

  type Time = t: Clock | ValidTime(t) witness Clock(0, 0, 0, 0)

  function DateText(d: Date): string {
    Padded(d.year, 4) + "-" + Padded(d.month, 2) + "-" + Padded(d.day, 2)
  }

  /** Microseconds appear only when there are any. */
  function TimeText(t: Time): string {
    Padded(t.hour, 2) + ":" + Padded(t.minute, 2) + ":" + Padded(t.second, 2)
    + if t.micro == 0 then "" else "." + Padded(t.micro, 6)
  }

  const UTC_SUFFIX: string := "+00:00"

  function StampText(d: Date, t: Time): string {
    DateText(d) + "T" + TimeText(t) + UTC_SUFFIX
  }

  function Number(s: string): Option<nat> {
    if s != "" && AllDigits(s) then Some(ReadDigits(s)) else None
  }

  function ReadDate(s: string): Option<Date> {
    if |s| != 10 || s[4] != '-' || s[7] != '-' then None
    else match (Number(s[..4]), Number(s[5..7]), Number(s[8..]))
      case (Some(y), Some(m), Some(d)) => if ValidDate(Ymd(y, m, d)) then Some(Ymd(y, m, d)) else None
      case _ => None
  }

  function ReadTime(s: string): Option<Time> {
    if (|s| != 8 && |s| != 15) || s[2] != ':' || s[5] != ':' || (|s| == 15 && s[8] != '.') then None
    else match (Number(s[..2]), Number(s[3..5]), Number(s[6..8]), if |s| == 8 then Some(0) else Number(s[9..]))
      case (Some(h), Some(m), Some(x), Some(u)) =>
        if ValidTime(Clock(h, m, x, u)) then Some(Clock(h, m, x, u)) else None
      case _ => None
  }

  /** A timestamp without an offset is taken to be in UTC. */
  function ReadStamp(s: string): Option<(Date, Time)> {
    if |s| < 11 || s[10] != 'T' then None
    else
      var tail := s[11..];
      var clock := if |tail| >= 6 && tail[|tail| - 6..] == UTC_SUFFIX then tail[..|tail| - 6] else tail;
      match (ReadDate(s[..10]), ReadTime(clock))
      case (Some(d), Some(t)) => Some((d, t))
      case _ => None
  }

  lemma PaddedReads(n: nat, width: nat)
    requires |Digits(n)| <= width
    ensures |Padded(n, width)| == width && Number(Padded(n, width)) == Some(n)
  {
    ReadDigitsOfPadded(n, width);
  }

  lemma DateSurvives(d: Date)
    ensures |DateText(d)| == 10 && ReadDate(DateText(d)) == Some(d)
  {
    DigitsWidth(d.year);
    DigitsWidth(d.month);
    DigitsWidth(d.day);
    PaddedReads(d.year, 4);
    PaddedReads(d.month, 2);
    PaddedReads(d.day, 2);
    DateRead(Padded(d.year, 4), Padded(d.month, 2), Padded(d.day, 2), d);
  }

  /** The parts of a date by position. */
  lemma DateRead(y: string, m: string, n: string, d: Date)
    requires |y| == 4 && |m| == |n| == 2
    requires Number(y) == Some(d.year) && Number(m) == Some(d.month) && Number(n) == Some(d.day)
    ensures |y + "-" + m + "-" + n| == 10 && ReadDate(y + "-" + m + "-" + n) == Some(d)
  {
    var s := y + "-" + m + "-" + n;
    assert s[..4] == y;
    assert s[5..7] == m;
    assert s[8..] == n;
  }

  /** The parts of a time by position. */
  lemma TimeRead(h: string, m: string, x: string, fraction: string, t: Time)
    requires |h| == |m| == |x| == 2
    requires Number(h) == Some(t.hour) && Number(m) == Some(t.minute) && Number(x) == Some(t.second)
    requires if t.micro == 0 then fraction == ""
             else |fraction| == 7 && fraction[0] == '.' && Number(fraction[1..]) == Some(t.micro)
    ensures ReadTime(h + ":" + m + ":" + x + fraction) == Some(t)
  {
    var s := h + ":" + m + ":" + x + fraction;
    assert s[..2] == h && s[3..5] == m && s[6..8] == x;
    assert fraction != "" ==> s[9..] == fraction[1..];
  }

  lemma TimeSurvives(t: Time)
    ensures ReadTime(TimeText(t)) == Some(t)
  {
    DigitsWidth(t.hour);
    DigitsWidth(t.minute);
    DigitsWidth(t.second);
    DigitsWidth(t.micro);
    PaddedReads(t.hour, 2);
    PaddedReads(t.minute, 2);
    PaddedReads(t.second, 2);
    PaddedReads(t.micro, 6);
    var fraction := if t.micro == 0 then "" else "." + Padded(t.micro, 6);
    assert t.micro != 0 ==> fraction[1..] == Padded(t.micro, 6);
    TimeRead(Padded(t.hour, 2), Padded(t.minute, 2), Padded(t.second, 2), fraction, t);
  }

  lemma StampRead(day: string, clock: string, d: Date, t: Time)
    requires |day| == 10 && ReadDate(day) == Some(d) && ReadTime(clock) == Some(t)
    ensures ReadStamp(day + "T" + clock + UTC_SUFFIX) == Some((d, t))
  {
    var s, tail := day + "T" + clock + UTC_SUFFIX, clock + UTC_SUFFIX;
    assert s[..10] == day && s[10] == 'T' && s[11..] == tail;
    assert tail[|tail| - 6..] == UTC_SUFFIX && tail[..|tail| - 6] == clock;
  }

  lemma StampSurvives(d: Date, t: Time)
    ensures ReadStamp(StampText(d, t)) == Some((d, t))
  {
    DateSurvives(d);
    TimeSurvives(t);
    StampRead(DateText(d), TimeText(t), d, t);
  }

  /** `%H:%M`. */
  function MinuteText(t: Time): string {
    Padded(t.hour, 2) + ":" + Padded(t.minute, 2)
  }

  /** `HH:MM` and longer forms. */
  function ReadClock(s: string): Option<Time> {
    if |s| != 5 then ReadTime(s)
    else if s[2] != ':' then None
    else match (Number(s[..2]), Number(s[3..]))
      case (Some(h), Some(m)) => if ValidTime(Clock(h, m, 0, 0)) then Some(Clock(h, m, 0, 0)) else None
      case _ => None
  }

  /** Hours and minutes bring a time back exactly when it has no seconds. */
  lemma MinutesSurviveExactly(t: Time)
    ensures ReadClock(MinuteText(t)) == Some(t.(second := 0, micro := 0))
    ensures ReadClock(MinuteText(t)) == Some(t) <==> t.second == 0 && t.micro == 0
    ensures |MinuteText(t)| == 5 && IsDigit(MinuteText(t)[0]) && IsDigit(MinuteText(t)[4])
  {
    DigitsWidth(t.hour);
    DigitsWidth(t.minute);
    PaddedReads(t.hour, 2);
    PaddedReads(t.minute, 2);
    var s := MinuteText(t);
    assert s[..2] == Padded(t.hour, 2) && s[3..] == Padded(t.minute, 2);
    assert s[0] == Padded(t.hour, 2)[0] && s[4] == Padded(t.minute, 2)[1];
  }

  /** Is the first instant no later than the second? */
  predicate StampLeq(a: (Date, Time), b: (Date, Time)) {
    Earlier(Reading(a), Reading(b)) || a == b
  }

  function Reading(a: (Date, Time)): seq<nat> {
    [a.0.year, a.0.month, a.0.day, a.1.hour, a.1.minute, a.1.second, a.1.micro]
  }

  predicate Earlier(a: seq<nat>, b: seq<nat>)
    requires |a| == |b|
  {
    a != [] && (a[0] < b[0] || (a[0] == b[0] && Earlier(a[1..], b[1..])))
  }
}
