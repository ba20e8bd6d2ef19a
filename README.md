# Timetable bot: schedule grouping, reminders, setup conversation and credential store

A Telegram bot logs in to a university portal for a group chat. It scrapes
that chat's weekly timetable and posts reminders before lessons. This
project models four parts of the bot in Dafny and proves what they promise.

- **Schedule helpers** (`Helpers`, `Grouping`, `Text`).
  - `parseTimeToMinutes` reads `"H:MM"`.
  - `sanitizeTime` moves a time 180 minutes back, wrapping past midnight, and
    re-renders it as `HH:MM`.
  - `getLessonWord` picks the Russian plural of "lesson".
  - `groupLessons` stably sorts a day's lessons by shifted start time and cuts
    them into groups wherever two neighbours are more than 60 minutes apart.
- **Reminder service** (`Notifications`). A `NotificationService` class holds
  the job queue and the schedule.
  - `scheduleDailyMessage` queues one undelayed greeting per chat.
  - `scheduleLessonsMessages` groups the day on unshifted minutes, using the
    service's own parser and grouper. A reminder is due an hour before the
    first lesson of each group and ten minutes before every later lesson.
  - Reminders whose time has passed are skipped. Job ids already pending are
    skipped too.
  - Each surviving job goes on the queue with `delay = notifyAt - now` and the
    id `lesson-<start>-<chat>`.
- **Setup conversation** (`Settings`). A `SettingsHandler` class holds the map
  from user ids to conversation states.
  - Its handlers for `/settings`, the cancel / delete / reconfigure buttons and
    private text messages move the map between username and password steps.
  - On success they store the chat's credentials and schedule.
  - It also encodes and parses the callback-data strings the buttons carry.
- **Credential store** (`Credentials`). A `CredentialsRepository` class over
  Redis, modelled as two maps: string keys to values, and set keys to their
  members.
  - Keys follow the scheme `chat:<id>:credentials|schedule|exams` and
    `user:<id>:chats`.
  - `getAllConfiguredChats` parses chat ids out of credential keys.

The clock, Telegram and the scrapers are inputs.
- A pass receives `now` and the day's local midnight in milliseconds.
- Handlers receive whether the chat is private, whether the sender is an
  administrator, and whether a message could be sent or edited.
- The outcome of the schedule fetch is a `ScrapeOutcome`.

The methods are proved against specification functions:
- the notification loops against `ScheduledJobs`, `PassJobs`, `GroupJobs`,
  `LessonJobs` and `ChatJobs`;
- the grouping loop against `GapSplit` of `SortByKey`.

The lemmas then state what those functions mean. Examples:
- membership of a job iff its lesson, chat and pending conditions hold;
- re-running a pass submits nothing;
- a split exactly at gaps over 60 minutes, which is also the only such split;
- stable sort order;
- round trips of the callback data.

`sanitizeTime` formats its result with `padStart(2, "0")` and then
`parseTimeToMinutes` reads it back inside the comparator. The model factors
`SanitizeTime` through `ParseTimeToMinutes`. It sorts on `ShiftedKey`, the
shifted minutes taken modulo a day, and `Helpers.ShiftedKeyOf` proves this
equals the comparator's parse-of-sanitize reading. `Text.Pad2IsPadStart`
proves the two-digit rendering is `padStart(2, "0")`.

## Model

| member | source | states |
|---|---|---|
| Text.NatToString | src/services/notificationService.ts:55-58 | the decimal text of a count is a non-empty digit string with that value and no leading zero |
| Text.IntToStringParses | src/services/settingsHandler.ts:57-58 | an integer written in decimal, with `-` for negatives, reads back as itself through `-?\d+` and `parseInt` |
| Text.IntToStringInjective | src/services/credentialsRepository.ts:25 | two integers with the same decimal text are equal |
| Text.ParseDigits | src/services/settingsHandler.ts:94-98 | `\d+` accepts exactly the non-empty digit strings |
| Text.ParseSignedInt | src/services/settingsHandler.ts:230-236 | `-?\d+` accepts exactly non-empty digit strings, with or without one leading minus |
| Text.PadStart | src/services/lib/helpers.ts:38-43 | `padStart(width, fill)` keeps the string as its suffix, pads with `fill` only in front, and has length max(len, width) |
| Text.Pad2IsPadStart | src/services/lib/helpers.ts:38-43 | the two-digit rendering of a number below 100 equals `String(n).padStart(2, "0")` |
| Text.Pad2 | src/services/lib/helpers.ts:38-43 | a number below 100 renders as exactly two digits that read back as the number |
| Helpers.NumberOf | src/services/lib/helpers.ts:6 | `Number` of a field yields a value exactly when the field is all digits |
| Helpers.ParseTimeToMinutes | src/services/lib/helpers.ts:5-16 | a failure is the "Invalid time format" error naming the input |
| Helpers.ParseTimeOfFields | src/services/lib/helpers.ts:5-16 | for colon-free fields h and m, "h:m" (and anything after a further colon) parses to h*60+m exactly when both are digit strings, and fails otherwise |
| Helpers.ParseTimeWithoutColon | src/services/lib/helpers.ts:7-14 | a time without a colon is rejected by both the parser and `sanitizeTime` |
| Helpers.SanitizeTime | src/services/lib/helpers.ts:18-44 | a failure is the parser's error on the same input |
| Helpers.ShiftBack | src/services/lib/helpers.ts:29-36 | the shifted minutes agree with (minutes - 180) modulo a day |
| Helpers.ClockTextParses | src/services/lib/helpers.ts:38-43 | the rendered `HH:MM` of a minute count reads back as that count modulo a day |
| Helpers.SanitizeTimeShifts | src/services/lib/helpers.ts:18-44 | succeeds iff the time parses; the result is `HH:MM` (hour < 24, minute < 60) and reads back as (parse(t) - 180) mod 1440 |
| Helpers.LessonWord | src/services/lib/helpers.ts:46-52 | "занятие" iff the count is 1; "занятия" iff 2 to 4; "занятий" iff below 1 or above 4 |
| Helpers.ShiftedKeyOf | src/services/lib/helpers.ts:57-61 | parse(sanitize(start)) succeeds iff the start parses, and then equals the sort key |
| Helpers.GroupedLessonsMeaning | src/services/lib/helpers.ts:54-87 | an error iff at least two lessons and some time malformed; [] for no lessons; one group for one lesson; otherwise the groups are the gap split of the stable sort by shifted minutes and hold exactly the day's lessons |
| Helpers.GroupLessons | src/services/lib/helpers.ts:54-87 | the loop returns what `GroupedLessons` specifies, errors included |
| Helpers.SingleLessonGroup | src/services/lib/helpers.ts:55-66 | a single lesson groups to itself whatever its start time says |
| Helpers.TwoLessonsGroup | src/services/lib/helpers.ts:69-83 | two readable lessons share a group ordered by key exactly when their keys are at most 60 apart; a malformed time is an error |
| Helpers.ShiftedKeyWithinDay | src/services/lib/helpers.ts:29-36 | a start at 03:00 or later has key start - 180 |
| Helpers.ShiftedKeyWraps | src/services/lib/helpers.ts:29-36 | a start before 03:00 has key start - 180 + 1440 |
| Helpers.CloseKeysGroup | src/services/lib/helpers.ts:69-83 | lessons whose keys are at most 60 apart form one group, earliest first, in either listing order |
| Helpers.CoursesShareGroup | src/services/lib/helpers.ts:73-78 | two lessons of any courses, both at 03:00 or later and at most an hour apart, share one group in either order |
| Helpers.ShiftedTimesOrderTheDay | src/services/lib/helpers.ts:57-61 | a lesson before 03:00 sorts after one at 03:00 or later, in either listing order |
| Grouping.Insert | src/services/lib/helpers.ts:57-61 | insertion adds the element: one longer, same multiset plus x |
| Grouping.InsertSorted | src/services/lib/helpers.ts:57-61 | inserting into a sorted sequence keeps it sorted |
| Grouping.SortByKey | src/services/lib/helpers.ts:57-61 | the sort is a permutation of the same length, ordered by key |
| Grouping.InsertKeeps | src/services/lib/helpers.ts:57-61 | insertion keeps the relative order of elements with equal keys |
| Grouping.SortByKeyStable | src/services/lib/helpers.ts:57-61 | the sort is stable: the elements of each key keep their input order |
| Grouping.GapSplit | src/services/lib/helpers.ts:69-83 | a non-empty sequence splits into at least one group, the last of them non-empty |
| Grouping.GapSplitIsGapSplit | src/services/lib/helpers.ts:69-83 | the groups are non-empty, concatenate to the input, neighbours inside a group are at most 60 apart, and a new group starts only after a gap over 60 |
| Grouping.GapSplitUnique | src/services/lib/helpers.ts:69-83 | any split with those properties is the greedy one: a split occurs exactly where the gap exceeds 60 |
| Grouping.TwoRuns | src/services/lib/helpers.ts:69-83 | two elements sort by key and share a group exactly when their keys are at most 60 apart |
| Grouping.SortTwo | src/services/lib/helpers.ts:57-61 | two elements sort by key, ties keeping their order |
| Grouping.SplitTwo | src/services/lib/helpers.ts:69-83 | two sorted elements share a group iff the gap is at most 60 |
| Grouping.GapSplitNext | src/services/lib/helpers.ts:69-83 | one more element extends the last group when within 60 of the previous one, and opens a new group otherwise |
| Grouping.GroupByGap | src/services/lib/helpers.ts:62-85 | the push loop returns [] for no lessons and otherwise the gap split of the sorted lessons |
| Lessons.LessonsOf | src/services/notificationService.ts:118-123 | a missing day reads as no lessons, a present one as its list |
| Notifications.RawGroupedMeaning | src/services/notificationService.ts:79-112 | error iff at least two lessons and some time malformed; one group for one lesson without reading it; otherwise the gap split of the stable sort by minutes as written |
| Notifications.GroupLessons | src/services/notificationService.ts:79-112 | the service's loop returns what `RawGrouped` specifies |
| Notifications.RawGroupMembers | src/services/notificationService.ts:79-112 | a lesson is in some group exactly when it is one of the day's lessons |
| Notifications.StartInstant | src/services/notificationService.ts:159-160 | the start instant is the day's start plus the start's minutes in milliseconds |
| Notifications.NotifyAt | src/services/notificationService.ts:165-171 | the reminder is due 60 minutes before the start at index 0 and 10 minutes before at any other index |
| Notifications.FireTimeOf | src/services/notificationService.ts:150-171 | a due time exists iff both fields of the start are readable, and is the start instant minus an hour (first) or ten minutes (later) |
| Notifications.ChatJobsMember | src/services/notificationService.ts:186-208 | a job is in the chat loop's output iff it is the reminder for a listed chat whose id `lesson-<start>-<chat>` was not pending |
| Notifications.LessonJobMember | src/services/notificationService.ts:150-208 | a job is submitted for a lesson iff the due time exists and is after `now`, the chat is listed, its id is not pending, and the job carries the message, delay `notifyAt - now`, that id and both removal flags |
| Notifications.LessonJobsSound | src/services/notificationService.ts:179-207 | every submitted job has a listed chat, positive delay, the deterministic id, an id not pending, and both removal flags |
| Notifications.GroupJobsMember | src/services/notificationService.ts:141-143 | a job is in a group's output iff it is a job of some lesson of the group at that lesson's index |
| Notifications.PassJobsMember | src/services/notificationService.ts:141-143 | a job is in a pass iff it is a job of some lesson at some index of some group |
| Notifications.LessonJobsRerun | src/services/notificationService.ts:186-194 | a later run of a lesson's step against a pending set holding every id it submitted submits nothing |
| Notifications.GroupJobsRerun | src/services/notificationService.ts:141-194 | the same for a whole group |
| Notifications.PassJobsRerun | src/services/notificationService.ts:141-194 | the same for all the groups |
| Notifications.RerunSubmitsNothing | src/services/notificationService.ts:132-139 | a later pass whose pending set includes the earlier one and every id the earlier pass submitted submits nothing |
| Notifications.ScheduledJobsSound | src/services/notificationService.ts:114-211 | every job of a pass is for a listed chat, has a positive delay, an id not pending and both removal flags, and its id names one of the day's lessons |
| Notifications.DailyJobs | src/services/notificationService.ts:60-63 | exactly one undelayed job per chat, in order, all with the same message |
| Notifications.NotificationService.constructor | src/services/notificationService.ts:25-39 | the service starts with the given schedule and an empty queue |
| Notifications.NotificationService.ScheduleDailyMessage | src/services/notificationService.ts:41-64 | appends the daily jobs whose message counts the day's raw lessons |
| Notifications.NotificationService.ScheduleLessonsMessages | src/services/notificationService.ts:114-211 | appends exactly the pass's jobs; returns an error iff grouping throws, otherwise the number of jobs added |
| Notifications.NotificationService.ScheduleGroups | src/services/notificationService.ts:141-143 | the group loop appends the jobs of every group in order |
| Notifications.NotificationService.ScheduleGroup | src/services/notificationService.ts:142-143 | the lesson loop appends the jobs of every lesson with its index |
| Notifications.NotificationService.ScheduleLesson | src/services/notificationService.ts:145-208 | one lesson's body appends that lesson's jobs |
| Credentials.ChatKeysInjective | src/services/credentialsRepository.ts:25-29 | different chats (or users) never share a key of the same kind |
| Credentials.ChatKeysDistinct | src/services/credentialsRepository.ts:25 | a chat's credentials, schedule and exams keys differ from each other across all chats |
| Credentials.AddMember | src/services/credentialsRepository.ts:29 | `sadd` adds the member to that set and touches no other |
| Credentials.RemoveMember | src/services/credentialsRepository.ts:99 | `srem` removes the member from that set, touches no other, and drops an emptied set |
| Credentials.ConfiguredChatId | src/services/credentialsRepository.ts:121 | a capture only for a key `chat:<id>:credentials` whose id is `-?\d+` |
| Credentials.ConfiguredChatIdComplete | src/services/credentialsRepository.ts:121 | conversely, every key `chat:<x>:credentials` whose `x` is `-?\d+` matches and captures `x`, non-canonical spellings such as `007` included |
| Credentials.CredentialsKeyMatches | src/services/credentialsRepository.ts:116-128 | every chat's credential key matches and captures the chat's id |
| Credentials.StoredChatIsConfigured | src/services/credentialsRepository.ts:116-128 | a chat whose credentials are stored is among the configured chats |
| Credentials.CredentialsRepository.constructor | src/services/credentialsRepository.ts:13-15 | the store starts empty |
| Credentials.CredentialsRepository.SaveCredentials | src/services/credentialsRepository.ts:21-30 | stores the credentials under the chat's key, adds the chat to the setter's set, and removes no chat from any set |
| Credentials.CredentialsRepository.GetCredentials | src/services/credentialsRepository.ts:35-42 | the stored credentials, `None` exactly when the key is absent |
| Credentials.CredentialsRepository.SaveSchedule | src/services/credentialsRepository.ts:47-50 | overwrites the schedule key; the getter then returns it |
| Credentials.CredentialsRepository.GetSchedule | src/services/credentialsRepository.ts:55-62 | the stored schedule or `None` |
| Credentials.CredentialsRepository.SaveExamSchedule | src/services/credentialsRepository.ts:67-70 | overwrites the exams key; the getter then returns it |
| Credentials.CredentialsRepository.GetExamSchedule | src/services/credentialsRepository.ts:75-82 | the stored exams or `None` |
| Credentials.CredentialsRepository.IsConfigured | src/services/credentialsRepository.ts:87-90 | configured iff credentials are stored |
| Credentials.CredentialsRepository.RemoveChat | src/services/credentialsRepository.ts:95-104 | deletes the credentials and schedule keys, leaves the exams; removes the chat from the setter's set only when credentials existed; afterwards not configured |
| Credentials.CredentialsRepository.GetUserChats | src/services/credentialsRepository.ts:109-111 | the members of the user's set, empty when absent |
| Credentials.CredentialsRepository.GetAllConfiguredChats | src/services/credentialsRepository.ts:116-128 | every id captured from a present matching key, each exactly once, and nothing else |
| Settings.StripPrefix | src/services/settingsHandler.ts:94 | a remainder exactly when the string starts with the prefix, and prefix + remainder is the string |
| Settings.CancelSetupRoundTrip | src/services/settingsHandler.ts:94-98 | `cancel_setup_<id>` parses back to the id for every non-negative id, and not at all for a negative one |
| Settings.SettingsDataRoundTrip | src/services/settingsHandler.ts:229-236 | `settings_delete_<id>` and `settings_reconfigure_<id>` parse back to their action and id, negative ids included |
| Settings.ConfirmDeleteRoundTrip | src/services/settingsHandler.ts:141-145 | `confirm_delete_<id>` parses back to the id |
| Settings.CancelDeleteRoundTrip | src/services/settingsHandler.ts:187-191 | `cancel_delete_<id>` parses back to the id |
| Settings.Sender | src/services/settingsHandler.ts:35-36 | a sender only when one is present and its id is not the falsy 0 |
| Settings.SuccessMessage | src/services/settingsHandler.ts:382-385 | the reconfigured text iff the flag is set, the configured text iff not |
| Settings.SettingsHandler.constructor | src/services/settingsHandler.ts:15-23 | no conversations at the start |
| Settings.SettingsHandler.OnSettings | src/services/settingsHandler.ts:27-92 | a waiting-for-username entry for the sender only in a group chat, for an administrator, of a chat not yet configured, after the DM was sent; otherwise the map is unchanged |
| Settings.SettingsHandler.OnCancelSetup | src/services/settingsHandler.ts:94-139 | the entry is removed only when the sender is the user the data names and has an entry; settings buttons come back when that chat is configured |
| Settings.SettingsHandler.OnConfirmDelete | src/services/settingsHandler.ts:141-185 | for an administrator and well-formed data, the chat's credentials and schedule are deleted, the exams kept, and the chat leaves its setter's `user:<id>:chats` set when credentials existed; otherwise the store is unchanged |
| Settings.SettingsHandler.OnCancelDelete | src/services/settingsHandler.ts:187-227 | the settings buttons for the chat, only for an administrator and well-formed data |
| Settings.SettingsHandler.OnSettingsAction | src/services/settingsHandler.ts:229-305 | once the message was edited, delete offers confirm/cancel and reconfigure starts an entry flagged as a reconfiguration; nothing for malformed data, a non-administrator or a failed edit |
| Settings.SettingsHandler.OnText | src/services/settingsHandler.ts:307-416 | ignored outside a private chat or without an entry; a username moves to the password step; a failed check returns to the username step keeping chat, user and flag; success stores credentials from username and password, set up by the sender, and the schedule, then ends the conversation |

## Left out

- The clock, time zone and daylight saving time. `now`, the day's local midnight and the weekday key are inputs. The daily greeting's day of the month and month name are inputs too. The delay is computed against the one `now` of the pass.
- JavaScript `Number()` quirks: whitespace, signs, decimals, exponents and `""` reading as 0. A time field counts as a number only when it is a string of decimal digits, empty included (as 0).
- Helpers.GroupLessons and Notifications.GroupLessons: the thrown error names the first malformed start time in listing order. Which malformed time the sort's comparator reaches first depends on the engine's sort algorithm.
- Helpers.NumberOf: time fields are read as exact unbounded integers. JavaScript's `Number` is a double, so a very long digit field loses precision or becomes `Infinity`; the model does not capture that.
- `parseInt` precision limits: ids are unbounded integers.
- The Bull queue's internals: its own job-id deduplication, delivery, retries and removal. The queue is the sequence of submitted jobs. The pending set fetched before the loop is an input and is not updated during the pass, as in the code.
- Notifications.NotificationService.ScheduleLessonsMessages returns a `Result` with the number of jobs added. The source returns nothing and lets the grouping error propagate.
- Telegram effects: replies, keyboards, message deletion and the group confirmation. Only the buttons' callback data and the first line of the success message are modelled. `getChatMember`, and its failure, is folded into the `isAdmin` input.
- The schedule and exam scrapers (browser automation). Their outcome is the `ScrapeOutcome` input.
- JSON serialisation: the store holds typed values rather than JSON text.
- Redis itself: two maps stand for the keyspace. `keys` visits keys in an order the model leaves open.
- `loadSchedule` and the constructor's read of the schedule file: the schedule is a constructor argument.
- Logging and error messages that are only printed.
- Concurrency between handlers and between scheduling passes.
- The `state.username!` assertion of the password step is not a runtime check in the model: the handler's `Valid` invariant says every password-step entry has a username.
