/**
 * The reminder service: once a day it greets every chat, and a scheduling pass
 * puts one delayed reminder per lesson and chat on the job queue, an hour
 * before the first lesson of a group of lessons and ten minutes before each
 * lesson that follows in the same group.
 *
 * The clock is an input: `now` is the instant of the pass and `dayStart` the
 * local midnight that `setHours` counts from, both in milliseconds. The queue
 * is the sequence of every job submitted to it.
 */
module Notifications {
  import opened Results
  import opened Text
  import opened Lessons
  import Helpers
  import Grouping

  const MinuteMs := 60 * 1000
  const HourMs := 60 * 60 * 1000
  const TenMinutesMs := 10 * 60 * 1000

  /** The options passed to `queue.add` for a lesson reminder. */
  datatype JobOptions = JobOptions(delay: int, jobId: string, removeOnComplete: bool, removeOnFail: bool)

  /** One `queue.add` call: the job data, and the options when there are any. */
  datatype Job = Job(chatId: string, message: string, options: Option<JobOptions>)

  // ---------------------------------------------------------------------------
  // The service's own grouping, on unshifted minutes
  // ---------------------------------------------------------------------------

  /** `this.parseTimeToMinutes(start_time)` as a total key; only consulted when every time parses. */
  function RawKey(l: Lesson): int {
    match Helpers.ParseTimeToMinutes(l.startTime)
    case Ok(v) => v
    case Err(_) => 0
  }

  /** What the service's `groupLessons` returns, as a value. */
  function RawGrouped(lessons: seq<Lesson>): Result<seq<seq<Lesson>>> {
    if |lessons| == 0 then Ok([])
    else if |lessons| >= 2 && !Helpers.AllTimesValid(lessons) then
      Err(Helpers.InvalidTime(Helpers.FirstInvalidTime(lessons)))
    else Ok(Grouping.GapSplit(Grouping.SortByKey(lessons, RawKey), RawKey))
  }

  lemma SingleLessonRawGroup(x: Lesson)
    ensures RawGrouped([x]) == Ok([[x]])
  {
    Grouping.SingleRun(x, RawKey);
  }

  /**
   * What the service's grouping means: no lessons give no groups, one lesson
   * one group without its time being read; otherwise every start time must
   * parse, and the groups cut the lessons, stably sorted by minutes as
   * written, wherever the gap exceeds 60 minutes.
   */
  lemma RawGroupedMeaning(lessons: seq<Lesson>)
    ensures RawGrouped(lessons).Err? <==> |lessons| >= 2 && !Helpers.AllTimesValid(lessons)
    ensures |lessons| == 0 ==> RawGrouped(lessons) == Ok([])
    ensures |lessons| == 1 ==> RawGrouped(lessons) == Ok([lessons])
    ensures RawGrouped(lessons).Ok? ==>
      Grouping.IsGapSplit(RawGrouped(lessons).value, Grouping.SortByKey(lessons, RawKey), RawKey)
  {
    if |lessons| == 1 {
      SingleLessonRawGroup(lessons[0]);
      assert lessons == [lessons[0]];
    }
    if |lessons| > 0 {
      Grouping.GapSplitIsGapSplit(Grouping.SortByKey(lessons, RawKey), RawKey);
    }
  }

  /** The service's `groupLessons`: throws on a malformed start time, otherwise sorts and cuts the day. */
  method GroupLessons(lessons: seq<Lesson>) returns (r: Result<seq<seq<Lesson>>>)
    ensures r == RawGrouped(lessons)
  {
    if |lessons| == 0 {
      return Ok([]);
    }
    if |lessons| >= 2 && !Helpers.AllTimesValid(lessons) {
      return Err(Helpers.InvalidTime(Helpers.FirstInvalidTime(lessons)));
    }
    var groups := Grouping.GroupByGap(lessons, RawKey);
    if |lessons| == 1 {
      SingleLessonRawGroup(lessons[0]);
      assert lessons == [lessons[0]];
    }
    r := Ok(groups);
  }

  /** The groups hold exactly the day's lessons. */
  lemma RawGroupMembers(lessons: seq<Lesson>, l: Lesson)
    requires |lessons| > 0 && RawGrouped(lessons).Ok?
    ensures l in Grouping.Flatten(RawGrouped(lessons).value) <==> l in lessons
  {
    var sorted := Grouping.SortByKey(lessons, RawKey);
    Grouping.GapSplitIsGapSplit(sorted, RawKey);
    assert l in sorted <==> l in multiset(sorted);
  }

  // ---------------------------------------------------------------------------
  // One lesson's reminder
  // ---------------------------------------------------------------------------

  /** `start.setHours(hours, minutes, 0, 0)` on the day that begins at `dayStart`. */
  function StartInstant(dayStart: int, hours: nat, minutes: nat): (start: int)
    ensures start >= dayStart
    ensures start - dayStart == (hours * 60 + minutes) * MinuteMs
  {
    dayStart + (hours * 60 + minutes) * MinuteMs
  }

  /** An hour before the first lesson of a group, ten minutes before any other. */
  function NotifyAt(start: int, index: nat): (at: int)
    ensures index == 0 ==> start - at == HourMs
    ensures index > 0 ==> start - at == TenMinutesMs
  {
    if index == 0 then start - HourMs else start - TenMinutesMs
  }

  function ReminderText(l: Lesson, index: nat): string {
    if index == 0 then
      "\U{1F440} Урок " + l.course + " начнется через час и пройдет в " + l.room
    else
      "\U{1F440} Следующий урок " + l.course + " начнется через 10 минут и пройдет в " + l.room
  }

  /** `lesson-<start_time>-<chat id>`, the reminder's job id. */
  function LessonJobId(startTime: string, chatId: string): string {
    "lesson-" + startTime + "-" + chatId
  }

  /** The reminder for `chatId`, `delay` milliseconds from `now`, removed from the queue once handled. */
  function Reminder(l: Lesson, message: string, notifyAt: int, now: int, chatId: string): Job {
    Job(chatId, message, Some(JobOptions(notifyAt - now, LessonJobId(l.startTime, chatId), true, true)))
  }

  /** The chat loop: a reminder for each chat, in order, whose job id is not pending. */
  function ChatJobs(l: Lesson, message: string, notifyAt: int, now: int, chats: seq<string>, pending: set<string>): seq<Job>
    decreases |chats|
  {
    if chats == [] then []
    else
      var earlier := ChatJobs(l, message, notifyAt, now, chats[..|chats| - 1], pending);
      var id := chats[|chats| - 1];
      if LessonJobId(l.startTime, id) in pending then earlier
      else earlier + [Reminder(l, message, notifyAt, now, id)]
  }

  /**
   * When the reminder for the lesson at position `index` of its group is due:
   * `None` when the start time has no readable hours and minutes.
   */
  function FireTime(l: Lesson, index: nat, dayStart: int): Option<int> {
    match Helpers.TimeFields(l.startTime)
    case None => None
    case Some((hours, minutes)) => Some(NotifyAt(StartInstant(dayStart, hours, minutes), index))
  }

  /**
   * The jobs for the lesson at position `index` of its group: none for an
   * unreadable start time or a reminder time already reached, otherwise the
   * chat loop's.
   */
  function LessonJobs(l: Lesson, index: nat, dayStart: int, now: int, chats: seq<string>, pending: set<string>): seq<Job> {
    match FireTime(l, index, dayStart)
    case None => []
    case Some(notifyAt) =>
      if notifyAt <= now then []
      else ChatJobs(l, ReminderText(l, index), notifyAt, now, chats, pending)
  }

  /** The jobs of a loop over `xs`: the jobs of each element and its position, in order. */
  function Gather<T>(xs: seq<T>, f: (T, nat) -> seq<Job>): seq<Job>
    decreases |xs|
  {
    if xs == [] then []
    else Gather(xs[..|xs| - 1], f) + f(xs[|xs| - 1], |xs| - 1)
  }

  /** The body of the lesson loop, as a function of the lesson and its position in the group. */
  function LessonStep(dayStart: int, now: int, chats: seq<string>, pending: set<string>): (Lesson, nat) -> seq<Job> {
    (l: Lesson, i: nat) => LessonJobs(l, i, dayStart, now, chats, pending)
  }

  /** The lesson loop of one group, index by index. */
  function GroupJobs(group: seq<Lesson>, dayStart: int, now: int, chats: seq<string>, pending: set<string>): seq<Job> {
    Gather(group, LessonStep(dayStart, now, chats, pending))
  }

  /** The body of the group loop. */
  function GroupStep(dayStart: int, now: int, chats: seq<string>, pending: set<string>): (seq<Lesson>, nat) -> seq<Job> {
    (group: seq<Lesson>, g: nat) => GroupJobs(group, dayStart, now, chats, pending)
  }

  /** The group loop. */
  function PassJobs(groups: seq<seq<Lesson>>, dayStart: int, now: int, chats: seq<string>, pending: set<string>): seq<Job> {
    Gather(groups, GroupStep(dayStart, now, chats, pending))
  }

  /**
   * Everything one scheduling pass submits: nothing for a day without lessons
   * or when grouping throws, otherwise the jobs of every group in order.
   */
  function ScheduledJobs(schedule: Schedule, dayKey: string, dayStart: int, now: int, chats: seq<string>, pending: set<string>): seq<Job> {
    var lessons := LessonsOf(schedule, dayKey);
    if |lessons| == 0 then []
    else
      match RawGrouped(lessons)
      case Err(_) => []
      case Ok(groups) => PassJobs(groups, dayStart, now, chats, pending)
  }

  lemma GatherStep<T>(xs: seq<T>, i: nat, f: (T, nat) -> seq<Job>)
    requires i < |xs|
    ensures Gather(xs[..i + 1], f) == Gather(xs[..i], f) + f(xs[i], i)
  {
    assert xs[..i + 1][..i] == xs[..i];
  }

  lemma PassJobsStep(groups: seq<seq<Lesson>>, g: nat, dayStart: int, now: int, chats: seq<string>, pending: set<string>)
    requires g < |groups|
    ensures PassJobs(groups[..g + 1], dayStart, now, chats, pending)
      == PassJobs(groups[..g], dayStart, now, chats, pending) + GroupJobs(groups[g], dayStart, now, chats, pending)
  {
    GatherStep(groups, g, GroupStep(dayStart, now, chats, pending));
  }

  lemma GroupJobsStep(group: seq<Lesson>, i: nat, dayStart: int, now: int, chats: seq<string>, pending: set<string>)
    requires i < |group|
    ensures GroupJobs(group[..i + 1], dayStart, now, chats, pending)
      == GroupJobs(group[..i], dayStart, now, chats, pending) + LessonJobs(group[i], i, dayStart, now, chats, pending)
  {
    GatherStep(group, i, LessonStep(dayStart, now, chats, pending));
  }

  /** A job comes out of a loop exactly when it comes out of the body for some element. */
  lemma {:induction false} GatherMember<T>(j: Job, xs: seq<T>, f: (T, nat) -> seq<Job>)
    ensures j in Gather(xs, f) <==> exists i :: 0 <= i < |xs| && j in f(xs[i], i)
    decreases |xs|
  {
    if xs != [] {
      var n := |xs| - 1;
      var init := xs[..n];
      GatherMember(j, init, f);
      var earlier, last := Gather(init, f), f(xs[n], n);
      assert Gather(xs, f) == earlier + last;
      assert j in earlier + last <==> j in earlier || j in last;
      if j in Gather(init, f) {
        var i :| 0 <= i < |init| && j in f(init[i], i);
        assert init[i] == xs[i];
      }
      if exists i :: 0 <= i < |xs| && j in f(xs[i], i) {
        var i :| 0 <= i < |xs| && j in f(xs[i], i);
        if i < n {
          assert init[i] == xs[i];
        }
      }
    }
  }

  /** A loop whose body yields nothing for every element yields nothing. */
  lemma {:induction false} GatherEmpty<T>(xs: seq<T>, f: (T, nat) -> seq<Job>)
    requires forall i :: 0 <= i < |xs| ==> f(xs[i], i) == []
    ensures Gather(xs, f) == []
    decreases |xs|
  {
    if xs != [] {
      var n := |xs| - 1;
      forall i | 0 <= i < n
        ensures f(xs[..n][i], i) == []
      {
        assert xs[..n][i] == xs[i];
      }
      GatherEmpty(xs[..n], f);
    }
  }

  // ---------------------------------------------------------------------------
  // What a pass submits
  // ---------------------------------------------------------------------------

  /** The job ids among `jobs`. */
  function JobIds(jobs: seq<Job>): set<string> {
    set j | j in jobs && j.options.Some? :: j.options.value.jobId
  }

  lemma AppendAssoc<T>(a: seq<T>, b: seq<T>, c: seq<T>)
    ensures a + b + c == a + (b + c)
  {
  }

  /** The ids of any one body's jobs are among the loop's. */
  lemma GatherIds<T>(xs: seq<T>, i: nat, f: (T, nat) -> seq<Job>)
    requires i < |xs|
    ensures JobIds(f(xs[i], i)) <= JobIds(Gather(xs, f))
  {
    forall id | id in JobIds(f(xs[i], i))
      ensures id in JobIds(Gather(xs, f))
    {
      var j :| j in f(xs[i], i) && j.options.Some? && j.options.value.jobId == id;
      GatherMember(j, xs, f);
    }
  }

  /**
   * A job is in the chat loop's output exactly when it is the reminder for a
   * listed chat whose job id was not pending.
   */
  lemma {:induction false} ChatJobsMember(j: Job, l: Lesson, message: string, notifyAt: int, now: int, chats: seq<string>, pending: set<string>)
    ensures j in ChatJobs(l, message, notifyAt, now, chats, pending) <==>
      && j.chatId in chats
      && LessonJobId(l.startTime, j.chatId) !in pending
      && j == Reminder(l, message, notifyAt, now, j.chatId)
    decreases |chats|
  {
    if chats != [] {
      var init := chats[..|chats| - 1];
      ChatJobsMember(j, l, message, notifyAt, now, init, pending);
      assert chats == init + [chats[|chats| - 1]];
    }
  }

  /**
   * A job is submitted for the lesson at position `index` of its group exactly
   * when the start time is readable, the reminder time is still ahead of
   * `now`, and the job is that reminder for a listed chat whose job id was not
   * pending: its delay is the time left until the reminder and it is removed
   * from the queue once handled, completed or failed.
   */
  lemma LessonJobMember(j: Job, l: Lesson, index: nat, dayStart: int, now: int, chats: seq<string>, pending: set<string>)
    ensures j in LessonJobs(l, index, dayStart, now, chats, pending) <==>
      && FireTime(l, index, dayStart).Some?
      && FireTime(l, index, dayStart).value > now
      && j.chatId in chats
      && LessonJobId(l.startTime, j.chatId) !in pending
      && j == Job(j.chatId, ReminderText(l, index),
                  Some(JobOptions(FireTime(l, index, dayStart).value - now, LessonJobId(l.startTime, j.chatId), true, true)))
  {
    var at := FireTime(l, index, dayStart);
    if at.Some? {
      ChatJobsMember(j, l, ReminderText(l, index), at.value, now, chats, pending);
    }
  }

  /** The reminder is due an hour before a group's first lesson and ten minutes before any later one. */
  lemma FireTimeOf(l: Lesson, index: nat, dayStart: int)
    ensures FireTime(l, index, dayStart).Some? <==> Helpers.TimeFields(l.startTime).Some?
    ensures FireTime(l, index, dayStart).Some? ==>
      var (hours, minutes) := Helpers.TimeFields(l.startTime).value;
      var start := dayStart + (hours * 60 + minutes) * MinuteMs;
      FireTime(l, index, dayStart).value == start - (if index == 0 then HourMs else TenMinutesMs)
  {
  }

  /** Every job of a lesson has a positive delay, a fresh id, both removal flags, and a listed chat. */
  lemma LessonJobsSound(j: Job, l: Lesson, index: nat, dayStart: int, now: int, chats: seq<string>, pending: set<string>)
    requires j in LessonJobs(l, index, dayStart, now, chats, pending)
    ensures j.chatId in chats && j.options.Some?
    ensures j.options.value.delay > 0
    ensures j.options.value.jobId == LessonJobId(l.startTime, j.chatId) && j.options.value.jobId !in pending
    ensures j.options.value.removeOnComplete && j.options.value.removeOnFail
  {
    LessonJobMember(j, l, index, dayStart, now, chats, pending);
  }

  /** A job is in a group's output exactly when it is one of some lesson of the group, at that lesson's position. */
  lemma GroupJobsMember(j: Job, group: seq<Lesson>, dayStart: int, now: int, chats: seq<string>, pending: set<string>)
    ensures j in GroupJobs(group, dayStart, now, chats, pending) <==>
      exists i :: 0 <= i < |group| && j in LessonJobs(group[i], i, dayStart, now, chats, pending)
  {
    GatherMember(j, group, LessonStep(dayStart, now, chats, pending));
  }

  /** `j` is one of the jobs of the lesson at position `i` of group `g`. */
  predicate JobOfLessonAt(j: Job, groups: seq<seq<Lesson>>, g: int, i: int, dayStart: int, now: int, chats: seq<string>, pending: set<string>) {
    0 <= g < |groups| && 0 <= i < |groups[g]| && j in LessonJobs(groups[g][i], i, dayStart, now, chats, pending)
  }

  /** A job is in a pass's output exactly when it is one of some lesson of some group, at that lesson's position. */
  lemma PassJobsMember(j: Job, groups: seq<seq<Lesson>>, dayStart: int, now: int, chats: seq<string>, pending: set<string>)
    ensures j in PassJobs(groups, dayStart, now, chats, pending) <==>
      exists g, i :: JobOfLessonAt(j, groups, g, i, dayStart, now, chats, pending)
  {
    var step := GroupStep(dayStart, now, chats, pending);
    GatherMember(j, groups, step);
    if j in PassJobs(groups, dayStart, now, chats, pending) {
      var g :| 0 <= g < |groups| && j in step(groups[g], g);
      GroupJobsMember(j, groups[g], dayStart, now, chats, pending);
      var i :| 0 <= i < |groups[g]| && j in LessonJobs(groups[g][i], i, dayStart, now, chats, pending);
      assert JobOfLessonAt(j, groups, g, i, dayStart, now, chats, pending);
    }
    if exists g, i :: JobOfLessonAt(j, groups, g, i, dayStart, now, chats, pending) {
      var g, i :| JobOfLessonAt(j, groups, g, i, dayStart, now, chats, pending);
      GroupJobsMember(j, groups[g], dayStart, now, chats, pending);
      assert j in step(groups[g], g);
    }
  }

  /**
   * Re-running a lesson's step, no earlier, against a pending set that holds
   * the earlier pending ids and every id the first run submitted, submits nothing.
   */
  lemma LessonJobsRerun(l: Lesson, index: nat, dayStart: int, now: int, now2: int, chats: seq<string>, pending: set<string>, pending2: set<string>)
    requires now <= now2 && pending <= pending2
    requires JobIds(LessonJobs(l, index, dayStart, now, chats, pending)) <= pending2
    ensures LessonJobs(l, index, dayStart, now2, chats, pending2) == []
  {
    var at := FireTime(l, index, dayStart);
    if at.Some? && at.value > now2 {
      var message := ReminderText(l, index);
      var first := ChatJobs(l, message, at.value, now, chats, pending);
      assert LessonJobs(l, index, dayStart, now, chats, pending) == first;
      forall c | c in chats
        ensures LessonJobId(l.startTime, c) in pending2
      {
        var job := Reminder(l, message, at.value, now, c);
        ChatJobsMember(job, l, message, at.value, now, chats, pending);
        if LessonJobId(l.startTime, c) !in pending {
          assert job in first;
          assert job.options.value.jobId in JobIds(first);
        }
      }
      ChatJobsAllPending(l, message, at.value, now2, chats, pending2);
    }
  }

  lemma {:induction false} ChatJobsAllPending(l: Lesson, message: string, notifyAt: int, now: int, chats: seq<string>, pending: set<string>)
    requires forall c :: c in chats ==> LessonJobId(l.startTime, c) in pending
    ensures ChatJobs(l, message, notifyAt, now, chats, pending) == []
    decreases |chats|
  {
    if chats != [] {
      var init := chats[..|chats| - 1];
      assert forall c :: c in init ==> c in chats;
      ChatJobsAllPending(l, message, notifyAt, now, init, pending);
    }
  }

  lemma GroupJobsRerun(group: seq<Lesson>, dayStart: int, now: int, now2: int, chats: seq<string>, pending: set<string>, pending2: set<string>)
    requires now <= now2 && pending <= pending2
    requires JobIds(GroupJobs(group, dayStart, now, chats, pending)) <= pending2
    ensures GroupJobs(group, dayStart, now2, chats, pending2) == []
  {
    var first, again := LessonStep(dayStart, now, chats, pending), LessonStep(dayStart, now2, chats, pending2);
    forall i | 0 <= i < |group|
      ensures again(group[i], i) == []
    {
      GatherIds(group, i, first);
      LessonJobsRerun(group[i], i, dayStart, now, now2, chats, pending, pending2);
    }
    GatherEmpty(group, again);
  }

  lemma PassJobsRerun(groups: seq<seq<Lesson>>, dayStart: int, now: int, now2: int, chats: seq<string>, pending: set<string>, pending2: set<string>)
    requires now <= now2 && pending <= pending2
    requires JobIds(PassJobs(groups, dayStart, now, chats, pending)) <= pending2
    ensures PassJobs(groups, dayStart, now2, chats, pending2) == []
  {
    var first, again := GroupStep(dayStart, now, chats, pending), GroupStep(dayStart, now2, chats, pending2);
    forall g | 0 <= g < |groups|
      ensures again(groups[g], g) == []
    {
      GatherIds(groups, g, first);
      GroupJobsRerun(groups[g], dayStart, now, now2, chats, pending, pending2);
    }
    GatherEmpty(groups, again);
  }

  /**
   * A later pass over the same day, whose pending ids include the earlier
   * pending ids and every id the earlier pass submitted, submits nothing new.
   */
  lemma RerunSubmitsNothing(schedule: Schedule, dayKey: string, dayStart: int, now: int, now2: int,
                            chats: seq<string>, pending: set<string>, pending2: set<string>)
    requires now <= now2 && pending <= pending2
    requires JobIds(ScheduledJobs(schedule, dayKey, dayStart, now, chats, pending)) <= pending2
    ensures ScheduledJobs(schedule, dayKey, dayStart, now2, chats, pending2) == []
  {
    var lessons := LessonsOf(schedule, dayKey);
    if |lessons| > 0 && RawGrouped(lessons).Ok? {
      PassJobsRerun(RawGrouped(lessons).value, dayStart, now, now2, chats, pending, pending2);
    }
  }

  /**
   * Every job of a pass is a reminder for one of the day's lessons, for a
   * listed chat, with a positive delay, a job id that was not pending, and
   * both removal flags set.
   */
  lemma ScheduledJobsSound(j: Job, schedule: Schedule, dayKey: string, dayStart: int, now: int, chats: seq<string>, pending: set<string>)
    requires j in ScheduledJobs(schedule, dayKey, dayStart, now, chats, pending)
    ensures j.chatId in chats && j.options.Some?
    ensures j.options.value.delay > 0
    ensures j.options.value.jobId !in pending
    ensures j.options.value.removeOnComplete && j.options.value.removeOnFail
    ensures exists l :: l in LessonsOf(schedule, dayKey) && j.options.value.jobId == LessonJobId(l.startTime, j.chatId)
  {
    var lessons := LessonsOf(schedule, dayKey);
    var groups := RawGrouped(lessons).value;
    PassJobsMember(j, groups, dayStart, now, chats, pending);
    var g, i :| JobOfLessonAt(j, groups, g, i, dayStart, now, chats, pending);
    var l := groups[g][i];
    LessonJobsSound(j, l, i, dayStart, now, chats, pending);
    Grouping.InFlatten(groups, g, i);
    RawGroupMembers(lessons, l);
  }

  // ---------------------------------------------------------------------------
  // The daily greeting
  // ---------------------------------------------------------------------------

  /** The morning greeting, naming the day of the month, the month and the raw lesson count. */
  function DailyText(dayOfMonth: nat, monthName: string, lessonCount: nat): string {
    "\U{1FAF6} Доброе утро! Сегодня " + NatToString(dayOfMonth) + " число, " + monthName
      + ", и у нас " + NatToString(lessonCount) + " " + Helpers.LessonWord(lessonCount)
  }

  /** One job per chat, in order, all with the same message and no options. */
  function DailyJobs(message: string, chats: seq<string>): (jobs: seq<Job>)
    ensures |jobs| == |chats|
    ensures forall k :: 0 <= k < |jobs| ==> jobs[k] == Job(chats[k], message, None)
  {
    seq(|chats|, k requires 0 <= k < |chats| => Job(chats[k], message, None))
  }

  // ---------------------------------------------------------------------------
  // The service
  // ---------------------------------------------------------------------------

  class NotificationService {
    /** Every job submitted to the `notifications` queue, oldest first. */
    var queue: seq<Job>
    /** The weekday-to-lessons schedule read when the service starts. */
    const schedule: Schedule

    constructor(schedule: Schedule)
      ensures this.schedule == schedule
      ensures queue == []
    {
      this.schedule := schedule;
      queue := [];
    }

    /** Greets every chat with the day's lesson count, one undelayed job each. */
    method ScheduleDailyMessage(dayKey: string, dayOfMonth: nat, monthName: string, chats: seq<string>)
      modifies this
      ensures queue == old(queue) + DailyJobs(DailyText(dayOfMonth, monthName, |LessonsOf(schedule, dayKey)|), chats)
    {
      var lessons := LessonsOf(schedule, dayKey);
      var lessonCount := |lessons|;
      var msg := DailyText(dayOfMonth, monthName, lessonCount);
      for k := 0 to |chats|
        invariant queue == old(queue) + DailyJobs(msg, chats[..k])
      {
        assert DailyJobs(msg, chats[..k + 1]) == DailyJobs(msg, chats[..k]) + [Job(chats[k], msg, None)];
        AppendAssoc(old(queue), DailyJobs(msg, chats[..k]), [Job(chats[k], msg, None)]);
        queue := queue + [Job(chats[k], msg, None)];
      }
      assert chats[..|chats|] == chats;
    }

    /**
     * The scheduling pass for `dayKey`: groups the day's lessons and submits,
     * for every lesson whose reminder time is still ahead and every chat whose
     * job id is not among `pending`, a reminder due at that time. A grouping
     * error is returned before anything is submitted; otherwise the number of
     * submitted jobs.
     */
    method ScheduleLessonsMessages(dayKey: string, dayStart: int, now: int, chats: seq<string>, pending: set<string>)
      returns (r: Result<nat>)
      modifies this
      ensures queue == old(queue) + ScheduledJobs(schedule, dayKey, dayStart, now, chats, pending)
      ensures r.Err? <==> RawGrouped(LessonsOf(schedule, dayKey)).Err?
      ensures r.Ok? ==> r.value == |ScheduledJobs(schedule, dayKey, dayStart, now, chats, pending)|
    {
      var submittedBefore := |queue|;
      var lessons := LessonsOf(schedule, dayKey);
      if |lessons| == 0 {
        return Ok(0);
      }
      var grouped := GroupLessons(lessons);
      if grouped.Err? {
        return Err(grouped.message);
      }
      ScheduleGroups(grouped.value, dayStart, now, chats, pending);
      r := Ok(|queue| - submittedBefore);
    }

    /** The group loop. */
    method ScheduleGroups(groups: seq<seq<Lesson>>, dayStart: int, now: int, chats: seq<string>, pending: set<string>)
      modifies this
      ensures queue == old(queue) + PassJobs(groups, dayStart, now, chats, pending)
    {
      for g := 0 to |groups|
        invariant queue == old(queue) + PassJobs(groups[..g], dayStart, now, chats, pending)
      {
        PassJobsStep(groups, g, dayStart, now, chats, pending);
        ScheduleGroup(groups[g], dayStart, now, chats, pending);
        AppendAssoc(old(queue), PassJobs(groups[..g], dayStart, now, chats, pending), GroupJobs(groups[g], dayStart, now, chats, pending));
      }
      assert groups[..|groups|] == groups;
    }

    /** The lesson loop for one group. */
    method ScheduleGroup(group: seq<Lesson>, dayStart: int, now: int, chats: seq<string>, pending: set<string>)
      modifies this
      ensures queue == old(queue) + GroupJobs(group, dayStart, now, chats, pending)
    {
      for i := 0 to |group|
        invariant queue == old(queue) + GroupJobs(group[..i], dayStart, now, chats, pending)
      {
        GroupJobsStep(group, i, dayStart, now, chats, pending);
        ScheduleLesson(group[i], i, dayStart, now, chats, pending);
        AppendAssoc(old(queue), GroupJobs(group[..i], dayStart, now, chats, pending), LessonJobs(group[i], i, dayStart, now, chats, pending));
      }
      assert group[..|group|] == group;
    }

    /** The body of the lesson loop: submits the reminders for the lesson at position `i` of its group. */
    method ScheduleLesson(lesson: Lesson, i: nat, dayStart: int, now: int, chats: seq<string>, pending: set<string>)
      modifies this
      ensures queue == old(queue) + LessonJobs(lesson, i, dayStart, now, chats, pending)
    {
      var fields := Helpers.TimeFields(lesson.startTime);
      if fields.None? {
        return;
      }
      var (hours, minutes) := fields.value;
      var start := StartInstant(dayStart, hours, minutes);
      var notifyAt := NotifyAt(start, i);
      var message := ReminderText(lesson, i);
      if notifyAt <= now {
        return;
      }
      for k := 0 to |chats|
        invariant queue == old(queue) + ChatJobs(lesson, message, notifyAt, now, chats[..k], pending)
      {
        var id := chats[k];
        assert chats[..k + 1][..k] == chats[..k];
        var jobId := LessonJobId(lesson.startTime, id);
        if jobId in pending {
          continue;
        }
        AppendAssoc(old(queue), ChatJobs(lesson, message, notifyAt, now, chats[..k], pending), [Reminder(lesson, message, notifyAt, now, id)]);
        queue := queue + [Job(id, message, Some(JobOptions(notifyAt - now, jobId, true, true)))];
      }
      assert chats[..|chats|] == chats;
    }
  }
}
