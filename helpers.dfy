/**
 * The schedule helpers: parsing "H:MM" start times, shifting them three hours
 * back into the bot's time zone, choosing the Russian plural of "lesson", and
 * grouping a day's lessons by their shifted start times.
 */
module Helpers {
  import opened Results
  import opened Text
  import opened Lessons
  import Grouping

  /** Shift from the portal's zone (UTC+5) to the bot's (UTC+2), in minutes. */
  const ShiftMinutes := 180
  const MinutesPerDay := 24 * 60

  /** `Number(s)` on a string of decimal digits; `None` stands for `NaN`. */
  function NumberOf(s: string): (r: Option<nat>)
    ensures r.Some? <==> AllDigits(s)
  {
    if AllDigits(s) then Some(DigitsValue(s)) else None
  }

  /**
   * `const [h, m] = time.split(":").map(Number)` and the guard against an
   * `undefined` or `NaN` component: the hour and minute fields, or `None`.
   */
  function TimeFields(time: string): Option<(nat, nat)> {
    var parts := Split(time, ':');
    if |parts| < 2 then None
    else
      var h, m := NumberOf(parts[0]), NumberOf(parts[1]);
      if h.None? || m.None? then None else Some((h.value, m.value))
  }

  function InvalidTime(time: string): string {
    "Invalid time format: " + time
  }

  /** Minutes since midnight of "H:MM"; throws on a missing or non-numeric field. */
  function ParseTimeToMinutes(time: string): (r: Result<nat>)
    ensures r.Err? ==> r.message == InvalidTime(time)
  {
    var fields := TimeFields(time);
    if fields.None? then Err(InvalidTime(time)) else Ok(fields.value.0 * 60 + fields.value.1)
  }

  /** `HH:MM` for a non-negative minute count, hours taken modulo 24. */
  function ClockText(totalMinutes: nat): string {
    var newHours := (totalMinutes / 60) % 24;
    var newMinutes := totalMinutes % 60;
    Pad2(newHours) + ":" + Pad2(newMinutes)
  }

  /** Minutes of the day moved 180 minutes earlier, adding a day when that goes below midnight. */
  function ShiftBack(totalMinutes: nat): (shifted: nat)
    ensures shifted % MinutesPerDay == (totalMinutes - ShiftMinutes) % MinutesPerDay
  {
    var earlier := totalMinutes - ShiftMinutes;
    if earlier < 0 then earlier + MinutesPerDay else earlier
  }

  /** Renders the time three hours earlier as "HH:MM", wrapping past midnight. */
  function SanitizeTime(time: string): (r: Result<string>)
    ensures r.Err? ==> r.message == InvalidTime(time)
  {
    match ParseTimeToMinutes(time)
    case Err(e) => Err(e)
    case Ok(totalMinutes) => Ok(ClockText(ShiftBack(totalMinutes)))
  }

  lemma SplitHead(m: string, tail: string)
    requires ':' !in m
    requires tail == [] || tail[0] == ':'
    ensures Split(m + tail, ':')[0] == m
  {
    if tail == [] {
      assert m + tail == m;
      SplitWhole(m, ':');
    } else {
      assert m + tail == m + [':'] + tail[1..];
      SplitField(m, tail[1..], ':');
    }
  }

  lemma FieldsOf(h: string, m: string, tail: string)
    requires ':' !in h && ':' !in m
    requires tail == [] || tail[0] == ':'
    ensures var parts := Split(h + ":" + m + tail, ':'); |parts| >= 2 && parts[0] == h && parts[1] == m
  {
    var rest := m + tail;
    assert h + ":" + m + tail == h + [':'] + rest;
    SplitField(h, rest, ':');
    SplitHead(m, tail);
  }

  lemma ParseOfSplit(time: string, h: string, m: string)
    requires var parts := Split(time, ':'); |parts| >= 2 && parts[0] == h && parts[1] == m
    ensures ParseTimeToMinutes(time) ==
      if AllDigits(h) && AllDigits(m) then Ok(DigitsValue(h) * 60 + DigitsValue(m))
      else Err(InvalidTime(time))
  {
  }

  /**
   * A time with two colon-free fields (and anything after a further colon)
   * parses exactly when both fields are digit strings, to `h * 60 + m`.
   */
  lemma ParseTimeOfFields(h: string, m: string, tail: string)
    requires ':' !in h && ':' !in m
    requires tail == [] || tail[0] == ':'
    ensures ParseTimeToMinutes(h + ":" + m + tail) ==
      if AllDigits(h) && AllDigits(m) then Ok(DigitsValue(h) * 60 + DigitsValue(m))
      else Err(InvalidTime(h + ":" + m + tail))
  {
    FieldsOf(h, m, tail);
    ParseOfSplit(h + ":" + m + tail, h, m);
  }

  /** A time without a colon has no minute field and is rejected. */
  lemma ParseTimeWithoutColon(time: string)
    requires ':' !in time
    ensures ParseTimeToMinutes(time) == Err(InvalidTime(time))
    ensures SanitizeTime(time) == Err(InvalidTime(time))
  {
    SplitWhole(time, ':');
  }

  lemma TwoDigitsHaveNoColon(n: nat)
    requires n < 100
    ensures ':' !in Pad2(n)
  {
    var s := Pad2(n);
    assert forall i :: 0 <= i < |s| ==> IsDigit(s[i]);
  }

  /** "HH:MM" with both fields two digits parses back to its minutes. */
  lemma ParsePadded(hours: nat, minutes: nat)
    requires hours < 100 && minutes < 100
    ensures ParseTimeToMinutes(Pad2(hours) + ":" + Pad2(minutes)) == Ok(hours * 60 + minutes)
  {
    TwoDigitsHaveNoColon(hours);
    TwoDigitsHaveNoColon(minutes);
    ParseTimeOfFields(Pad2(hours), Pad2(minutes), []);
    assert Pad2(hours) + ":" + Pad2(minutes) + [] == Pad2(hours) + ":" + Pad2(minutes);
  }

  lemma ClockOfMinutes(t: nat)
    ensures ((t / 60) % 24) * 60 + t % 60 == t % MinutesPerDay
  {
    var q, r := t / MinutesPerDay, t % MinutesPerDay;
    var a, b := r / 60, r % 60;
    assert t == 60 * (24 * q + a) + b;
    assert t / 60 == 24 * q + a;
    assert (24 * q + a) % 24 == a;
  }

  /** "HH:MM": two digits of an hour below 24, a colon, two digits of a minute below 60. */
  predicate IsClockText(s: string) {
    && |s| == 5 && s[2] == ':'
    && AllDigits(s[..2]) && DigitsValue(s[..2]) < 24
    && AllDigits(s[3..]) && DigitsValue(s[3..]) < 60
  }

  lemma JoinShape(a: string, b: string)
    requires |a| == 2 && |b| == 2
    ensures var s := a + ":" + b; |s| == 5 && s[2] == ':' && s[..2] == a && s[3..] == b
  {
  }

  lemma ClockTextShape(t: nat)
    ensures IsClockText(ClockText(t))
  {
    var hh, mm := (t / 60) % 24, t % 60;
    assert hh < 24 && mm < 60;
    assert ClockText(t) == Pad2(hh) + ":" + Pad2(mm);
    JoinShape(Pad2(hh), Pad2(mm));
  }

  /** The clock text reads back as the minutes of the day. */
  lemma ClockTextParses(t: nat)
    ensures ParseTimeToMinutes(ClockText(t)) == Ok(t % MinutesPerDay)
  {
    var hh, mm := (t / 60) % 24, t % 60;
    ParsePadded(hh, mm);
    ClockOfMinutes(t);
  }

  /**
   * `sanitizeTime` succeeds exactly when `parseTimeToMinutes` does; its result
   * is "HH:MM" with an hour below 24 and a minute below 60, and it reads back
   * as the original minutes moved 180 minutes earlier around the clock.
   */
  lemma SanitizeTimeShifts(time: string)
    ensures SanitizeTime(time).Ok? <==> ParseTimeToMinutes(time).Ok?
    ensures ParseTimeToMinutes(time).Ok? ==>
      var s := SanitizeTime(time).value;
      IsClockText(s) && ParseTimeToMinutes(s) == Ok((ParseTimeToMinutes(time).value - ShiftMinutes) % MinutesPerDay)
  {
    if ParseTimeToMinutes(time).Ok? {
      var w := ShiftBack(ParseTimeToMinutes(time).value);
      ClockTextShape(w);
      ClockTextParses(w);
    }
  }

  const Singular := "занятие"
  const Few := "занятия"
  const Many := "занятий"

  /** The plural form of "lesson" for a count, as the bot chooses it. */
  function LessonWord(lessonCount: int): (word: string)
    ensures word == Singular <==> lessonCount == 1
    ensures word == Few <==> 2 <= lessonCount <= 4
    ensures word == Many <==> lessonCount < 1 || lessonCount > 4
  {
    if lessonCount == 1 then Singular
    else if lessonCount >= 2 && lessonCount <= 4 then Few
    else Many
  }

  // ---------------------------------------------------------------------------
  // Grouping by shifted start time
  // ---------------------------------------------------------------------------

  /** `parseTimeToMinutes(sanitizeTime(start_time))`, the comparator's reading of a start time. */
  function ShiftedMinutes(l: Lesson): Result<nat> {
    match SanitizeTime(l.startTime)
    case Ok(t) => ParseTimeToMinutes(t)
    case Err(e) => Err(e)
  }

  /**
   * The sort and gap key: the start time moved 180 minutes earlier round the
   * clock, and 0 for an unreadable one, which is only consulted when every
   * time parses. `ShiftedKeyOf` shows it is the comparator's reading.
   */
  function ShiftedKey(l: Lesson): int {
    match ParseTimeToMinutes(l.startTime)
    case Ok(v) => (v - ShiftMinutes) % MinutesPerDay
    case Err(_) => 0
  }

  predicate AllTimesValid(lessons: seq<Lesson>) {
    forall i :: 0 <= i < |lessons| ==> ParseTimeToMinutes(lessons[i].startTime).Ok?
  }

  /** The first malformed start time, which the thrown error names. */
  function FirstInvalidTime(lessons: seq<Lesson>): string
    requires !AllTimesValid(lessons)
  {
    if ParseTimeToMinutes(lessons[0].startTime).Err? then lessons[0].startTime
    else
      assert !AllTimesValid(lessons[1..]) by {
        var i :| 0 <= i < |lessons| && ParseTimeToMinutes(lessons[i].startTime).Err?;
        assert lessons[1..][i - 1] == lessons[i];
      }
      FirstInvalidTime(lessons[1..])
  }

  /**
   * Reading a start time back after sanitizing it succeeds exactly when the
   * start time parses, and gives the key.
   */
  lemma ShiftedKeyOf(l: Lesson)
    ensures ShiftedMinutes(l).Ok? <==> ParseTimeToMinutes(l.startTime).Ok?
    ensures ShiftedMinutes(l).Ok? ==> ShiftedMinutes(l).value == ShiftedKey(l)
  {
    if ParseTimeToMinutes(l.startTime).Ok? {
      var w := ShiftBack(ParseTimeToMinutes(l.startTime).value);
      assert SanitizeTime(l.startTime) == Ok(ClockText(w));
      ClockTextParses(w);
    }
  }

  /** What `groupLessons` returns, as a value. */
  function GroupedLessons(lessons: seq<Lesson>): Result<seq<seq<Lesson>>> {
    if |lessons| == 0 then Ok([])
    else if |lessons| >= 2 && !AllTimesValid(lessons) then Err(InvalidTime(FirstInvalidTime(lessons)))
    else Ok(Grouping.GapSplit(Grouping.SortByKey(lessons, ShiftedKey), ShiftedKey))
  }

  /**
   * What grouping means: an empty day gives no groups, a single lesson one
   * group without its time being read, and otherwise every start time must
   * parse; the groups then cut the lessons, stably sorted by shifted minutes,
   * wherever the gap exceeds 60 minutes, and hold exactly the day's lessons.
   */
  lemma GroupedLessonsMeaning(lessons: seq<Lesson>)
    ensures GroupedLessons(lessons).Err? <==> |lessons| >= 2 && !AllTimesValid(lessons)
    ensures |lessons| == 0 ==> GroupedLessons(lessons) == Ok([])
    ensures |lessons| == 1 ==> GroupedLessons(lessons) == Ok([lessons])
    ensures GroupedLessons(lessons).Ok? ==>
      Grouping.IsGapSplit(GroupedLessons(lessons).value, Grouping.SortByKey(lessons, ShiftedKey), ShiftedKey)
    ensures GroupedLessons(lessons).Ok? ==> multiset(Grouping.Flatten(GroupedLessons(lessons).value)) == multiset(lessons)
  {
    if |lessons| == 1 {
      SingleLessonGroup(lessons[0]);
      assert lessons == [lessons[0]];
    }
    if |lessons| > 0 {
      Grouping.GapSplitIsGapSplit(Grouping.SortByKey(lessons, ShiftedKey), ShiftedKey);
    }
  }

  /** `groupLessons`: throws on a malformed start time, otherwise sorts and cuts the day. */
  method GroupLessons(lessons: seq<Lesson>) returns (r: Result<seq<seq<Lesson>>>)
    ensures r == GroupedLessons(lessons)
  {
    if |lessons| == 0 {
      return Ok([]);
    }
    if |lessons| >= 2 && !AllTimesValid(lessons) {
      return Err(InvalidTime(FirstInvalidTime(lessons)));
    }
    var groups := Grouping.GroupByGap(lessons, ShiftedKey);
    if |lessons| == 1 {
      SingleLessonGroup(lessons[0]);
      assert lessons == [lessons[0]];
    }
    r := Ok(groups);
  }

  /** A lone lesson is one group, whatever its start time says. */
  lemma SingleLessonGroup(x: Lesson)
    ensures GroupedLessons([x]) == Ok([[x]])
  {
    Grouping.SingleRun(x, ShiftedKey);
  }

  /**
   * Two lessons with readable times share a group exactly when their shifted
   * starts are at most an hour apart; which courses they belong to plays no part.
   */
  lemma TwoLessonsGroup(a: Lesson, b: Lesson)
    ensures !AllTimesValid([a, b]) ==> GroupedLessons([a, b]).Err?
    ensures AllTimesValid([a, b]) ==>
      var first := if ShiftedKey(a) <= ShiftedKey(b) then a else b;
      var second := if ShiftedKey(a) <= ShiftedKey(b) then b else a;
      GroupedLessons([a, b]) ==
        if ShiftedKey(second) - ShiftedKey(first) <= 60 then Ok([[first, second]]) else Ok([[first], [second]])
  {
    Grouping.TwoRuns(a, b, ShiftedKey);
  }

  lemma DayModulus(x: int, days: int)
    requires 0 <= x < MinutesPerDay
    ensures (x + days * MinutesPerDay) % MinutesPerDay == x
  {
  }

  /** A start at 03:00 or later keeps its day: the key is 180 minutes less. */
  lemma ShiftedKeyWithinDay(l: Lesson, t: nat)
    requires ParseTimeToMinutes(l.startTime) == Ok(t) && ShiftMinutes <= t < MinutesPerDay
    ensures ShiftedKey(l) == t - ShiftMinutes
  {
    DayModulus(t - ShiftMinutes, 0);
  }

  /** A start before 03:00 wraps round to the evening before. */
  lemma ShiftedKeyWraps(l: Lesson, t: nat)
    requires ParseTimeToMinutes(l.startTime) == Ok(t) && t < ShiftMinutes
    ensures ShiftedKey(l) == t - ShiftMinutes + MinutesPerDay
  {
    DayModulus(t - ShiftMinutes + MinutesPerDay, -1);
  }

  /** Readable lessons whose keys are at most an hour apart form one group, in either listing order. */
  lemma CloseKeysGroup(a: Lesson, b: Lesson)
    requires ParseTimeToMinutes(a.startTime).Ok? && ParseTimeToMinutes(b.startTime).Ok?
    requires ShiftedKey(a) < ShiftedKey(b) <= ShiftedKey(a) + 60
    ensures GroupedLessons([a, b]) == Ok([[a, b]])
    ensures GroupedLessons([b, a]) == Ok([[a, b]])
  {
    CloseKeysInOrder(a, b);
    CloseKeysReversed(a, b);
  }

  lemma CloseKeysInOrder(a: Lesson, b: Lesson)
    requires ParseTimeToMinutes(a.startTime).Ok? && ParseTimeToMinutes(b.startTime).Ok?
    requires ShiftedKey(a) < ShiftedKey(b) <= ShiftedKey(a) + 60
    ensures GroupedLessons([a, b]) == Ok([[a, b]])
  {
    assert AllTimesValid([a, b]) by {
      assert [a, b][0] == a && [a, b][1] == b;
    }
    TwoLessonsGroup(a, b);
  }

  lemma CloseKeysReversed(a: Lesson, b: Lesson)
    requires ParseTimeToMinutes(a.startTime).Ok? && ParseTimeToMinutes(b.startTime).Ok?
    requires ShiftedKey(a) < ShiftedKey(b) <= ShiftedKey(a) + 60
    ensures GroupedLessons([b, a]) == Ok([[a, b]])
  {
    assert AllTimesValid([b, a]) by {
      assert [b, a][0] == b && [b, a][1] == a;
    }
    TwoLessonsGroup(b, a);
  }

  /**
   * Two lessons of whatever courses starting at most an hour apart, both at
   * 03:00 or later (10:00 and 10:30, say), share one group, the earlier first,
   * in whichever order they were listed.
   */
  lemma CoursesShareGroup(a: Lesson, b: Lesson, ta: nat, tb: nat)
    requires ParseTimeToMinutes(a.startTime) == Ok(ta) && ParseTimeToMinutes(b.startTime) == Ok(tb)
    requires ShiftMinutes <= ta < tb <= ta + 60 && tb < MinutesPerDay
    ensures GroupedLessons([b, a]) == Ok([[a, b]])
    ensures GroupedLessons([a, b]) == Ok([[a, b]])
  {
    ShiftedKeyWithinDay(a, ta);
    ShiftedKeyWithinDay(b, tb);
    CloseKeysGroup(a, b);
  }

  /**
   * A lesson before 03:00 (01:30, shifted to 22:30 the evening before) sorts
   * after one later in the day (10:00, shifted to 07:00).
   */
  lemma ShiftedTimesOrderTheDay(late: Lesson, morning: Lesson, tl: nat, tm: nat)
    requires ParseTimeToMinutes(late.startTime) == Ok(tl) && ParseTimeToMinutes(morning.startTime) == Ok(tm)
    requires tl < ShiftMinutes <= tm < MinutesPerDay
    ensures Grouping.SortByKey([late, morning], ShiftedKey) == [morning, late]
    ensures Grouping.SortByKey([morning, late], ShiftedKey) == [morning, late]
  {
    ShiftedKeyWraps(late, tl);
    ShiftedKeyWithinDay(morning, tm);
    Grouping.SortTwo(late, morning, ShiftedKey);
    Grouping.SortTwo(morning, late, ShiftedKey);
  }
}
