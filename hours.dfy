/** Pharmacy opening hours (app.py:58-135): `format_time`,
    `format_all_pharmacy_hours` and `is_pharmacy_open`. The feed gives each
    weekday d = 1 (Monday) .. 7 (Sunday) an opening time `dutyTime{d}s` and a
    closing time `dutyTime{d}c`, as HHMM text. */
module Hours {
  import opened Wrappers
  import opened PyText
  import opened PyNum
  import opened Records

  const NoInfo := "정보없음"

  /** The day names, Monday first. */
  const Days := "월화수목금토일"

  /** The feed's key for day `d`'s opening (`'s'`) or closing (`'c'`) time. */
  function TimeKey(d: nat, which: char): string
    requires 1 <= d <= 7
  {
    DayKey("dutyTime", d, which)
  }

  /** app.py `format_time` (app.py:59-65): a non-empty four-character time
      gets a colon after its second character, anything else is "정보없음".
      Removing the colon gives the input back. */
  function FormatTime(t: Option<string>): (r: string)
    ensures r != NoInfo <==> t.Some? && |t.value| == 4
    ensures r != NoInfo ==> |r| == 5 && r[2] == ':' && r[..2] + r[3..] == t.value
  {
    if Truthy(t) && |t.value| == 4 then t.value[..2] + ":" + t.value[2..] else NoInfo
  }

  /** Day `d` has both times present with four characters each, so that its
      line shows them. */
  predicate Timed(item: Record, d: nat)
    requires 1 <= d <= 7
  {
    var s, c := Get(item, TimeKey(d, 's')), Get(item, TimeKey(d, 'c'));
    Truthy(s) && Truthy(c) && |s.value| == 4 && |c.value| == 4
  }

  /** The line `format_all_pharmacy_hours` makes for day `d` (app.py:75-92). */
  function DayLine(item: Record, d: nat): string
    requires 1 <= d <= 7
  {
    var start, end := Get(item, TimeKey(d, 's')), Get(item, TimeKey(d, 'c'));
    var day := [Days[d - 1]];
    if Truthy(start) && Truthy(end) then
      var startF, endF := FormatTime(start), FormatTime(end);
      if startF != NoInfo && endF != NoInfo then day + ": " + startF + " ~ " + endF
      else day + ": 시간 확인 불가"
    else day + ": 휴무 또는 정보없음"
  }

  /** The seven lines, Monday to Sunday. */
  function Lines(item: Record): (ls: seq<string>)
    ensures |ls| == 7 && forall k :: 0 <= k < 7 ==> ls[k] == DayLine(item, k + 1)
  {
    seq(7, k requires 0 <= k < 7 => DayLine(item, k + 1))
  }

  /** The test of app.py:95: the line says the day is closed, unknown or unreadable. */
  predicate Marked(h: string) {
    Contains(h, "정보없음") || Contains(h, "휴무") || Contains(h, "확인 불가")
  }

  /** The `all(...)` test of app.py:95 over the day lines. */
  predicate AllMarked(ls: seq<string>) {
    forall h | h in ls :: Marked(h)
  }

  /** What `format_all_pharmacy_hours` returns: "" when every line is marked,
      otherwise the seven lines joined by " | ". */
  function Summary(item: Record): string {
    var ls := Lines(item);
    if AllMarked(ls) then "" else Join(" | ", ls)
  }

  /** app.py `format_all_pharmacy_hours` (app.py:68-98), with its loop over the days. */
  method FormatAllPharmacyHours(item: Record) returns (r: string)
    ensures r == Summary(item)
  {
    var formatted: seq<string> := [];
    ghost var lines := Lines(item);
    for i := 1 to 8
      invariant formatted == lines[..i - 1]
    {
      var line := FormatDay(item, i);
      assert lines[..i] == lines[..i - 1] + [line];
      formatted := formatted + [line];
    }
    assert formatted == lines;
    if AllMarked(formatted) {
      return "";
    }
    r := Join(" | ", formatted);
  }

  /** app.py:75-92 as written, the body of the loop over the days. */
  method FormatDay(item: Record, i: nat) returns (line: string)
    requires 1 <= i <= 7
    ensures line == DayLine(item, i)
  {
    var start := Get(item, TimeKey(i, 's'));
    var end := Get(item, TimeKey(i, 'c'));
    var dayName := [Days[i - 1]];
    if Truthy(start) && Truthy(end) {
      var startF := FormatTime(start);
      var endF := FormatTime(end);
      if startF != NoInfo && endF != NoInfo {
        line := dayName + ": " + startF + " ~ " + endF;
      } else {
        line := dayName + ": 시간 확인 불가";
      }
    } else {
      line := dayName + ": 휴무 또는 정보없음";
    }
  }

  /** A line for a day without both times shown is marked. */
  lemma UntimedLineMarked(item: Record, d: nat)
    requires 1 <= d <= 7 && !Timed(item, d)
    ensures Marked(DayLine(item, d))
  {
    var day := [Days[d - 1]];
    var start, end := Get(item, TimeKey(d, 's')), Get(item, TimeKey(d, 'c'));
    if Truthy(start) && Truthy(end) {
      assert DayLine(item, d) == (day + ": 시간 ") + "확인 불가";
      ContainsSuffix(day + ": 시간 ", "확인 불가");
    } else {
      assert DayLine(item, d) == (day + ": 휴무 또는 ") + "정보없음";
      ContainsSuffix(day + ": 휴무 또는 ", "정보없음");
    }
  }

  lemma NotInDigits(s: string, c: char)
    requires AllDigits(s) && !IsDigit(c)
    ensures c !in s
  {
  }

  /** The line of a day with digit times shows them and is not marked. */
  lemma TimedLineShown(item: Record, d: nat)
    requires 1 <= d <= 7 && Timed(item, d)
    requires AllDigits(Get(item, TimeKey(d, 's')).value) && AllDigits(Get(item, TimeKey(d, 'c')).value)
    ensures DayLine(item, d) == [Days[d - 1]] + ": " + FormatTime(Get(item, TimeKey(d, 's')))
                                + " ~ " + FormatTime(Get(item, TimeKey(d, 'c')))
    ensures !Marked(DayLine(item, d))
  {
    var s, c := Get(item, TimeKey(d, 's')).value, Get(item, TimeKey(d, 'c')).value;
    assert DayLine(item, d) == [Days[d - 1]] + ": " + (s[..2] + ":" + s[2..]) + " ~ " + (c[..2] + ":" + c[2..]);
    assert Days[d - 1] in Days;
    ShownLineUnmarked(Days[d - 1], s, c);
  }

  /** A line "day: HH:MM ~ HH:MM" made of a day name and digit times holds
      none of the three markers. */
  lemma ShownLineUnmarked(day: char, s: string, c: string)
    requires day in Days && |s| == 4 && |c| == 4 && AllDigits(s) && AllDigits(c)
    ensures !Marked([day] + ": " + (s[..2] + ":" + s[2..]) + " ~ " + (c[..2] + ":" + c[2..]))
  {
    var line := [day] + ": " + (s[..2] + ":" + s[2..]) + " ~ " + (c[..2] + ":" + c[2..]);
    assert day != '정' && day != '휴' && day != '확';
    NotInDigits(s, '정'); NotInDigits(s, '휴'); NotInDigits(s, '확');
    NotInDigits(c, '정'); NotInDigits(c, '휴'); NotInDigits(c, '확');
    assert s == s[..2] + s[2..] && c == c[..2] + c[2..];
    assert '정' !in line && '휴' !in line && '확' !in line;
    MissingCharNotContained(line, "정보없음", '정');
    MissingCharNotContained(line, "휴무", '휴');
    MissingCharNotContained(line, "확인 불가", '확');
  }

  /** When no day has both times shown, every line is marked and the summary is "". */
  lemma UntimedSummaryEmpty(item: Record)
    requires forall d :: 1 <= d <= 7 ==> !Timed(item, d)
    ensures Summary(item) == ""
  {
    var ls := Lines(item);
    forall h | h in ls
      ensures Marked(h)
    {
      var k :| 0 <= k < 7 && ls[k] == h;
      UntimedLineMarked(item, k + 1);
    }
    assert AllMarked(ls);
  }

  /** When day `d` shows two digit times, its line is unmarked, so the summary
      is the seven lines joined by " | ", starting with Monday's. */
  lemma TimedSummaryJoined(item: Record, d: nat)
    requires 1 <= d <= 7 && Timed(item, d)
    requires AllDigits(Get(item, TimeKey(d, 's')).value) && AllDigits(Get(item, TimeKey(d, 'c')).value)
    ensures Summary(item) != "" && Summary(item) == Join(" | ", Lines(item))
    ensures StartsWith(Summary(item), DayLine(item, 1))
  {
    var ls := Lines(item);
    TimedLineShown(item, d);
    assert ls[d - 1] in ls && !Marked(ls[d - 1]);
    assert !AllMarked(ls);
    assert ls[0] != "";
    JoinNonEmpty(" | ", ls);
  }

  /** When every shown time is made of digits (as the feed sends them), the
      summary is "" exactly when no day has both times shown; otherwise it is
      the seven day lines joined by " | ", Monday's first. */
  lemma SummaryEmptyIff(item: Record)
    requires forall d :: 1 <= d <= 7 && Timed(item, d) ==>
      AllDigits(Get(item, TimeKey(d, 's')).value) && AllDigits(Get(item, TimeKey(d, 'c')).value)
    ensures Summary(item) == "" <==> forall d :: 1 <= d <= 7 ==> !Timed(item, d)
    ensures Summary(item) != "" ==> Summary(item) == Join(" | ", Lines(item)) && StartsWith(Summary(item), DayLine(item, 1))
  {
    if forall d :: 1 <= d <= 7 ==> !Timed(item, d) {
      UntimedSummaryEmpty(item);
    } else {
      var d :| 1 <= d <= 7 && Timed(item, d);
      TimedSummaryJoined(item, d);
    }
  }

  /** An item with no `dutyTime` keys at all has the summary "". */
  lemma SummaryOfUntimedItem(item: Record)
    requires forall d :: 1 <= d <= 7 ==> TimeKey(d, 's') !in item && TimeKey(d, 'c') !in item
    ensures Summary(item) == ""
  {
    forall d | 1 <= d <= 7
      ensures !Timed(item, d)
    {
      assert Get(item, TimeKey(d, 's')) == None;
    }
    UntimedSummaryEmpty(item);
  }

  /** What `is_pharmacy_open` returns, and the text the handler sends for it. */
  datatype OpenStatus = Open | Closed | NoHours | Unreadable {
    function Label(): string {
      match this
      case Open => "영업중"
      case Closed => "영업종료"
      case NoHours => "정보없음"
      case Unreadable => "확인불가"
    }
  }

  /** `datetime.now().weekday()`: 0 is Monday. */
  type Weekday = d: nat | d < 7
  type Hour = h: nat | h < 24
  type Minute = m: nat | m < 60

  /** The local time `is_pharmacy_open` reads from `datetime.now()`. */
  datatype Clock = Clock(weekday: Weekday, hour: Hour, minute: Minute)

  /** `int(now.strftime("%H%M"))`. */
  function HHMM(now: Clock): (t: nat)
    ensures t <= 2359 && t % 100 < 60
    ensures t / 100 == now.hour && t % 100 == now.minute
  {
    now.hour * 100 + now.minute
  }

  /** The window test of `is_pharmacy_open` once both times are integers
      (app.py:124-133): a window ending before it starts (at 2400 or earlier)
      runs past midnight; otherwise both ends are inclusive. */
  function Window(start: int, end: int, current: int): (r: OpenStatus)
    ensures r == Open || r == Closed
    ensures end <= 2400 && end < start ==> (r == Open <==> current >= start || current <= end)
    ensures !(end <= 2400 && end < start) ==> (r == Open <==> start <= current <= end)
  {
    if end <= 2400 && end < start then
      (if current >= start || current <= end then Open else Closed)
    else if start <= current <= end then Open else Closed
  }

  /** An overnight window is closed exactly during the day-time window
      between its closing and its opening time. */
  lemma OvernightClosedBetween(start: int, end: int, current: int)
    requires end <= 2400 && end + 2 <= start
    ensures Window(start, end, current) == Closed <==> Window(end + 1, start - 1, current) == Open
  {
  }

  /** app.py `is_pharmacy_open` (app.py:104-135) with the clock passed in:
      "정보없음" when today's opening or closing time is missing or empty,
      "확인불가" when one of them is not an integer, otherwise open or closed
      by the window test. Monday reads `dutyTime1s`/`dutyTime1c`, Sunday
      `dutyTime7s`/`dutyTime7c`. */
  function PharmacyStatus(item: Record, now: Clock): (r: OpenStatus)
    ensures r == NoHours <==>
      !Truthy(Get(item, TimeKey(now.weekday + 1, 's'))) || !Truthy(Get(item, TimeKey(now.weekday + 1, 'c')))
    ensures r == Unreadable <==>
      Truthy(Get(item, TimeKey(now.weekday + 1, 's'))) && Truthy(Get(item, TimeKey(now.weekday + 1, 'c')))
      && (PyInt(Get(item, TimeKey(now.weekday + 1, 's')).value).None?
          || PyInt(Get(item, TimeKey(now.weekday + 1, 'c')).value).None?)
    ensures r == Open || r == Closed ==>
      r == Window(PyInt(Get(item, TimeKey(now.weekday + 1, 's')).value).value,
                  PyInt(Get(item, TimeKey(now.weekday + 1, 'c')).value).value, HHMM(now))
  {
    var dayCode := now.weekday + 1;
    var startText, endText := Get(item, TimeKey(dayCode, 's')), Get(item, TimeKey(dayCode, 'c'));
    if !Truthy(startText) || !Truthy(endText) then NoHours
    else
      var current := HHMM(now);
      var start, end := PyInt(startText.value), PyInt(endText.value);
      if start.None? || end.None? then Unreadable
      else Window(start.value, end.value, current)
  }

  /** Once today's two times are read as integers, the window test decides. */
  lemma StatusOfTimes(item: Record, now: Clock, start: int, end: int)
    requires Truthy(Get(item, TimeKey(now.weekday + 1, 's'))) && Truthy(Get(item, TimeKey(now.weekday + 1, 'c')))
    requires PyInt(Get(item, TimeKey(now.weekday + 1, 's')).value) == Some(start)
    requires PyInt(Get(item, TimeKey(now.weekday + 1, 'c')).value) == Some(end)
    ensures PharmacyStatus(item, now) == Window(start, end, HHMM(now))
  {
  }

  lemma WeekdayCodes()
    ensures TimeKey(0 + 1, 's') == "dutyTime1s" && TimeKey(0 + 1, 'c') == "dutyTime1c"
    ensures TimeKey(6 + 1, 's') == "dutyTime7s" && TimeKey(6 + 1, 'c') == "dutyTime7c"
  {
  }

  lemma ExampleDigitValues()
    ensures PartValue("2200") == 2200 && PartValue("0200") == 200
  {
    assert "2200"[..3] == "220" && "220"[..2] == "22" && "22"[..1] == "2" && "2"[..0] == "";
    assert "0200"[..3] == "020" && "020"[..2] == "02" && "02"[..1] == "0" && "0"[..0] == "";
  }

  /** `int("2200") == 2200` and `int("0200") == 200`. */
  lemma ExampleTimes()
    ensures PyInt("2200") == Some(2200) && PyInt("0200") == Some(200)
  {
    var a, b := "2200", "0200";
    assert forall i :: 0 <= i < |a| ==> IsDigit(a[i]);
    assert forall i :: 0 <= i < |b| ==> IsDigit(b[i]);
    PyIntOfDigits(a);
    PyIntOfDigits(b);
    ExampleDigitValues();
  }

  /** A pharmacy whose times today read as 2200 and 0200 (as `"2200"` and
      `"0200"` do, by ExampleTimes) is open at 01:00 and closed at 15:00. */
  lemma OvernightExample(item: Record, now: Clock, open: string, close: string)
    requires Get(item, TimeKey(now.weekday + 1, 's')) == Some(open) && Get(item, TimeKey(now.weekday + 1, 'c')) == Some(close)
    requires PyInt(open) == Some(2200) && PyInt(close) == Some(200)
    ensures now.hour == 1 && now.minute == 0 ==> PharmacyStatus(item, now) == Open
    ensures now.hour == 15 && now.minute == 0 ==> PharmacyStatus(item, now) == Closed
  {
    StatusOfTimes(item, now, 2200, 200);
  }
}
