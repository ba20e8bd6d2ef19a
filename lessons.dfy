/** The scraped schedule data both the helpers and the notification service work on. */
module Lessons {

  /** One lesson slot of a day; `startTime` is the portal's "H:MM" text, kept as scraped. */
  datatype Lesson = Lesson(startTime: string, course: string, room: string)

  /** Lowercase English weekday name to that day's lessons, in arbitrary order. */
  type Schedule = map<string, seq<Lesson>>

  /** `schedule[dayKey] ?? []`. */
  function LessonsOf(schedule: Schedule, dayKey: string): (lessons: seq<Lesson>)
    ensures dayKey !in schedule ==> lessons == []
    ensures dayKey in schedule ==> lessons == schedule[dayKey]
  {
    if dayKey in schedule then schedule[dayKey] else []
  }
}
