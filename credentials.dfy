/**
 * The per-chat store in Redis: a chat's portal credentials, its scraped
 * schedule and its exams live under `chat:<id>:credentials`, `chat:<id>:schedule`
 * and `chat:<id>:exams`, and the set `user:<id>:chats` lists the chats a user set up.
 *
 * The Redis keyspace is two maps: string keys to the stored values, and set
 * keys to their members. Values are kept as the data that was serialised.
 */
module Credentials {
  import opened Results
  import opened Text
  import opened Lessons

  /** Who set the bot up for a chat, and the portal login to scrape with. */
  datatype UserCredentials = UserCredentials(username: string, password: string, userId: int, setupBy: int)

  datatype Exam = Exam(subject: string, date: string, time: string, room: string, kind: string)

  /** What a string key holds. */
  datatype Value =
    | CredentialsValue(credentials: UserCredentials)
    | ScheduleValue(schedule: Schedule)
    | ExamsValue(exams: seq<Exam>)

  // ---------------------------------------------------------------------------
  // The key scheme
  // ---------------------------------------------------------------------------

  const CredentialsSuffix := ":credentials"

  function CredentialsKey(chatId: int): string {
    "chat:" + IntToString(chatId) + CredentialsSuffix
  }

  function ScheduleKey(chatId: int): string {
    "chat:" + IntToString(chatId) + ":schedule"
  }

  function ExamsKey(chatId: int): string {
    "chat:" + IntToString(chatId) + ":exams"
  }

  function UserChatsKey(userId: int): string {
    "user:" + IntToString(userId) + ":chats"
  }

  /** The set member `sadd` and `srem` use for a chat: its id in decimal. */
  function ChatMember(chatId: int): string {
    IntToString(chatId)
  }

  lemma SuffixOf(a: string, b: string, c: string, d: string)
    requires a + b == c + d && |b| == |d|
    ensures b == d && a == c
  {
    assert (a + b)[|a|..] == b;
    assert (c + d)[|c|..] == d;
    assert (a + b)[..|a|] == a;
    assert (c + d)[..|c|] == c;
  }

  lemma MiddleOf(p: string, x: string, y: string, q: string)
    requires p + x + q == p + y + q
    ensures x == y
  {
    SuffixOf(p + x, q, p + y, q);
    assert (p + x)[|p|..] == x;
    assert (p + y)[|p|..] == y;
  }

  /** Each kind of chat key names one chat: different chats never share a key. */
  lemma ChatKeysInjective(a: int, b: int)
    ensures CredentialsKey(a) == CredentialsKey(b) ==> a == b
    ensures ScheduleKey(a) == ScheduleKey(b) ==> a == b
    ensures ExamsKey(a) == ExamsKey(b) ==> a == b
    ensures UserChatsKey(a) == UserChatsKey(b) ==> a == b
  {
    if CredentialsKey(a) == CredentialsKey(b) {
      MiddleOf("chat:", IntToString(a), IntToString(b), CredentialsSuffix);
      IntToStringInjective(a, b);
    }
    if ScheduleKey(a) == ScheduleKey(b) {
      MiddleOf("chat:", IntToString(a), IntToString(b), ":schedule");
      IntToStringInjective(a, b);
    }
    if ExamsKey(a) == ExamsKey(b) {
      MiddleOf("chat:", IntToString(a), IntToString(b), ":exams");
      IntToStringInjective(a, b);
    }
    if UserChatsKey(a) == UserChatsKey(b) {
      MiddleOf("user:", IntToString(a), IntToString(b), ":chats");
      IntToStringInjective(a, b);
    }
  }

  lemma EndsWith(s: string, t: string, suffix: string)
    requires s == t + suffix
    ensures |s| >= |suffix| && s[|s| - |suffix|..] == suffix
  {
  }

  /** The credentials, schedule and exams of any two chats live under three different keys. */
  lemma ChatKeysDistinct(a: int, b: int)
    ensures CredentialsKey(a) != ScheduleKey(b)
    ensures CredentialsKey(a) != ExamsKey(b)
    ensures ScheduleKey(a) != ExamsKey(b)
  {
    var ca, sb, eb := CredentialsKey(a), ScheduleKey(b), ExamsKey(b);
    EndsWith(ca, "chat:" + IntToString(a), CredentialsSuffix);
    EndsWith(sb, "chat:" + IntToString(b), ":schedule");
    EndsWith(eb, "chat:" + IntToString(b), ":exams");
    var sa := ScheduleKey(a);
    EndsWith(sa, "chat:" + IntToString(a), ":schedule");
    assert ca[|ca| - 1] == 's' && ca[|ca| - 2] == 'l';
    assert sa[|sa| - 1] == 'e' && sb[|sb| - 1] == 'e';
    assert eb[|eb| - 1] == 's' && eb[|eb| - 2] == 'm';
  }

  // ---------------------------------------------------------------------------
  // Reading the store
  // ---------------------------------------------------------------------------

  /** `getCredentials`: the credentials stored for the chat, `None` for a missing key. */
  function StoredCredentials(strings: map<string, Value>, chatId: int): Option<UserCredentials> {
    var key := CredentialsKey(chatId);
    if key in strings && strings[key].CredentialsValue? then Some(strings[key].credentials) else None
  }

  function StoredSchedule(strings: map<string, Value>, chatId: int): Option<Schedule> {
    var key := ScheduleKey(chatId);
    if key in strings && strings[key].ScheduleValue? then Some(strings[key].schedule) else None
  }

  function StoredExams(strings: map<string, Value>, chatId: int): Option<seq<Exam>> {
    var key := ExamsKey(chatId);
    if key in strings && strings[key].ExamsValue? then Some(strings[key].exams) else None
  }

  /** `smembers`: a missing set reads as empty. */
  function Members(sets: map<string, set<string>>, key: string): set<string> {
    if key in sets then sets[key] else {}
  }

  /** `sadd key member`. */
  function AddMember(sets: map<string, set<string>>, key: string, member: string): (r: map<string, set<string>>)
    ensures Members(r, key) == Members(sets, key) + {member}
    ensures forall k :: k != key ==> Members(r, k) == Members(sets, k)
  {
    sets[key := Members(sets, key) + {member}]
  }

  /** `srem key member`; Redis drops a set once its last member is removed. */
  function RemoveMember(sets: map<string, set<string>>, key: string, member: string): (r: map<string, set<string>>)
    ensures Members(r, key) == Members(sets, key) - {member}
    ensures forall k :: k != key ==> Members(r, k) == Members(sets, k)
    ensures forall k :: k in r ==> r[k] != {} || (k in sets && sets[k] == {})
  {
    if key !in sets then sets
    else
      var rest := sets[key] - {member};
      if rest == {} then sets - {key} else sets[key := rest]
  }

  // ---------------------------------------------------------------------------
  // Configured chats, from the credential keys
  // ---------------------------------------------------------------------------

  /** `redis.keys("chat:*:credentials")`: a key with that prefix and that suffix, not overlapping. */
  predicate GlobMatches(key: string) {
    |key| >= |"chat:"| + |CredentialsSuffix| && key[..5] == "chat:" && key[|key| - |CredentialsSuffix|..] == CredentialsSuffix
  }

  /** The first capture of `/^chat:(-?\d+):credentials$/` on `key`, when it matches. */
  function ConfiguredChatId(key: string): (id: Option<string>)
    ensures id.Some? ==> GlobMatches(key) && key == "chat:" + id.value + CredentialsSuffix
    ensures id.Some? ==> ParseSignedInt(id.value).Some?
  {
    if GlobMatches(key) then
      var middle := key[5..|key| - |CredentialsSuffix|];
      assert key == key[..5] + middle + key[|key| - |CredentialsSuffix|..];
      if ParseSignedInt(middle).Some? then Some(middle) else None
    else None
  }

  /** Every key `chat:<x>:credentials` whose `x` is `-?\d+` matches, capturing `x`. */
  lemma ConfiguredChatIdComplete(x: string)
    requires ParseSignedInt(x).Some?
    ensures ConfiguredChatId("chat:" + x + CredentialsSuffix) == Some(x)
  {
    var key := "chat:" + x + CredentialsSuffix;
    assert key[..5] == "chat:";
    assert key[|key| - |CredentialsSuffix|..] == CredentialsSuffix;
    assert key[5..|key| - |CredentialsSuffix|] == x;
  }

  /** The chat ids whose credential key is present and matches the pattern. */
  function ConfiguredChats(keys: set<string>): set<string> {
    set key | key in keys && ConfiguredChatId(key).Some? :: ConfiguredChatId(key).value
  }

  /** The credential key of every chat matches the pattern, capturing the chat's id. */
  lemma CredentialsKeyMatches(chatId: int)
    ensures ConfiguredChatId(CredentialsKey(chatId)) == Some(IntToString(chatId))
  {
    var key := CredentialsKey(chatId);
    var x := IntToString(chatId);
    assert key[..5] == "chat:";
    assert key[|key| - |CredentialsSuffix|..] == CredentialsSuffix;
    assert key[5..|key| - |CredentialsSuffix|] == x;
    IntToStringParses(chatId);
  }

  /** A chat whose credentials are stored is among the configured chats. */
  lemma StoredChatIsConfigured(strings: map<string, Value>, chatId: int)
    requires StoredCredentials(strings, chatId).Some?
    ensures IntToString(chatId) in ConfiguredChats(strings.Keys)
  {
    CredentialsKeyMatches(chatId);
  }

  // ---------------------------------------------------------------------------
  // The repository
  // ---------------------------------------------------------------------------

  class CredentialsRepository {
    /** String keys and their values. */
    var strings: map<string, Value>
    /** Set keys and their members. */
    var sets: map<string, set<string>>

    constructor()
      ensures strings == map[] && sets == map[]
    {
      strings := map[];
      sets := map[];
    }

    /** Stores the credentials for the chat and adds the chat to its setter's set. */
    method SaveCredentials(chatId: int, credentials: UserCredentials)
      modifies this
      ensures strings == old(strings)[CredentialsKey(chatId) := CredentialsValue(credentials)]
      ensures sets == AddMember(old(sets), UserChatsKey(credentials.setupBy), ChatMember(chatId))
      ensures StoredCredentials(strings, chatId) == Some(credentials)
      ensures ChatMember(chatId) in Members(sets, UserChatsKey(credentials.setupBy))
      ensures forall k :: k in old(sets) ==> Members(old(sets), k) <= Members(sets, k)
    {
      var key := CredentialsKey(chatId);
      strings := strings[key := CredentialsValue(credentials)];
      sets := AddMember(sets, UserChatsKey(credentials.setupBy), ChatMember(chatId));
    }

    method GetCredentials(chatId: int) returns (credentials: Option<UserCredentials>)
      ensures credentials == StoredCredentials(strings, chatId)
      ensures credentials.None? <==>
        CredentialsKey(chatId) !in strings || !strings[CredentialsKey(chatId)].CredentialsValue?
    {
      var key := CredentialsKey(chatId);
      if key !in strings || !strings[key].CredentialsValue? {
        return None;
      }
      return Some(strings[key].credentials);
    }

    /** Overwrites the chat's schedule. */
    method SaveSchedule(chatId: int, schedule: Schedule)
      modifies this
      ensures strings == old(strings)[ScheduleKey(chatId) := ScheduleValue(schedule)]
      ensures sets == old(sets)
      ensures StoredSchedule(strings, chatId) == Some(schedule)
    {
      strings := strings[ScheduleKey(chatId) := ScheduleValue(schedule)];
    }

    method GetSchedule(chatId: int) returns (schedule: Option<Schedule>)
      ensures schedule == StoredSchedule(strings, chatId)
    {
      var key := ScheduleKey(chatId);
      if key !in strings || !strings[key].ScheduleValue? {
        return None;
      }
      return Some(strings[key].schedule);
    }

    /** Overwrites the chat's exams. */
    method SaveExamSchedule(chatId: int, exams: seq<Exam>)
      modifies this
      ensures strings == old(strings)[ExamsKey(chatId) := ExamsValue(exams)]
      ensures sets == old(sets)
      ensures StoredExams(strings, chatId) == Some(exams)
    {
      strings := strings[ExamsKey(chatId) := ExamsValue(exams)];
    }

    method GetExamSchedule(chatId: int) returns (exams: Option<seq<Exam>>)
      ensures exams == StoredExams(strings, chatId)
    {
      var key := ExamsKey(chatId);
      if key !in strings || !strings[key].ExamsValue? {
        return None;
      }
      return Some(strings[key].exams);
    }

    /** A chat is configured exactly when credentials are stored for it. */
    method IsConfigured(chatId: int) returns (configured: bool)
      ensures configured <==> StoredCredentials(strings, chatId).Some?
    {
      var credentials := GetCredentials(chatId);
      configured := credentials.Some?;
    }

    /**
     * Deletes the chat's credentials and schedule, and takes the chat out of
     * the set of whoever set it up when there were credentials; the exams stay.
     */
    method RemoveChat(chatId: int)
      modifies this
      ensures strings == old(strings) - {CredentialsKey(chatId), ScheduleKey(chatId)}
      ensures sets == match old(StoredCredentials(strings, chatId))
                      case None => old(sets)
                      case Some(c) => RemoveMember(old(sets), UserChatsKey(c.setupBy), ChatMember(chatId))
      ensures StoredCredentials(strings, chatId).None? && StoredSchedule(strings, chatId).None?
      ensures StoredExams(strings, chatId) == old(StoredExams(strings, chatId))
    {
      var credentials := GetCredentials(chatId);
      if credentials.Some? {
        sets := RemoveMember(sets, UserChatsKey(credentials.value.setupBy), ChatMember(chatId));
      }
      strings := strings - {CredentialsKey(chatId)};
      strings := strings - {ScheduleKey(chatId)};
      ChatKeysDistinct(chatId, chatId);
    }

    /** The chats the user set up, as stored. */
    method GetUserChats(userId: int) returns (chats: set<string>)
      ensures chats == Members(sets, UserChatsKey(userId))
    {
      var key := UserChatsKey(userId);
      chats := if key in sets then sets[key] else {};
    }

    /**
     * Every chat id captured from a present credential key, once each, in the
     * order the keys are visited (which Redis leaves unspecified).
     */
    method GetAllConfiguredChats() returns (chatIds: seq<string>)
      ensures forall x :: x in chatIds <==> x in ConfiguredChats(strings.Keys)
      ensures forall i, j :: 0 <= i < j < |chatIds| ==> chatIds[i] != chatIds[j]
    {
      var credentialKeys := set key | key in strings.Keys && GlobMatches(key);
      var remaining := credentialKeys;
      chatIds := [];
      while remaining != {}
        invariant remaining <= credentialKeys
        invariant forall x :: x in chatIds <==>
          exists key :: key in credentialKeys - remaining && ConfiguredChatId(key) == Some(x)
        invariant forall i, j :: 0 <= i < j < |chatIds| ==> chatIds[i] != chatIds[j]
        decreases |remaining|
      {
        var key :| key in remaining;
        remaining := remaining - {key};
        var id := ConfiguredChatId(key);
        if id.Some? && id.value !in chatIds {
          chatIds := chatIds + [id.value];
        }
      }
    }
  }
}
