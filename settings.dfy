/**
 * The `/settings` conversation: an administrator of a group is walked, in a
 * private chat, through entering the portal username and password; the
 * credentials are checked by fetching the schedule, then stored for the group.
 *
 * Telegram is abstracted away: whether the chat is private, whether the sender
 * is an administrator, and whether a message could be sent or edited are
 * inputs, and so is the outcome of the schedule fetch. Callback buttons are
 * modelled by the data strings they carry.
 */
module Settings {
  import opened Results
  import opened Text
  import opened Lessons
  import opened Credentials

  // ---------------------------------------------------------------------------
  // Callback data
  // ---------------------------------------------------------------------------

  datatype Action = Delete | Reconfigure

  const CancelSetupPrefix := "cancel_setup_"
  const SettingsDeletePrefix := "settings_delete_"
  const SettingsReconfigurePrefix := "settings_reconfigure_"
  const ConfirmDeletePrefix := "confirm_delete_"
  const CancelDeletePrefix := "cancel_delete_"

  /** `cancel_setup_<userId>`. */
  function CancelSetupData(userId: int): string {
    CancelSetupPrefix + IntToString(userId)
  }

  /** `settings_delete_<chatId>` or `settings_reconfigure_<chatId>`. */
  function SettingsData(action: Action, chatId: int): string {
    (if action == Delete then SettingsDeletePrefix else SettingsReconfigurePrefix) + IntToString(chatId)
  }

  function ConfirmDeleteData(chatId: int): string {
    ConfirmDeletePrefix + IntToString(chatId)
  }

  function CancelDeleteData(chatId: int): string {
    CancelDeletePrefix + IntToString(chatId)
  }

  /** What follows `prefix` in `s`, when `s` starts with it. */
  function StripPrefix(s: string, prefix: string): (rest: Option<string>)
    ensures rest.Some? <==> |s| >= |prefix| && s[..|prefix|] == prefix
    ensures rest.Some? ==> s == prefix + rest.value
  {
    if |s| >= |prefix| && s[..|prefix|] == prefix then Some(s[|prefix|..]) else None
  }

  /** `/^cancel_setup_(\d+)$/`, then `parseInt` of the capture. */
  function ParseCancelSetup(data: string): Option<int> {
    match StripPrefix(data, CancelSetupPrefix)
    case None => None
    case Some(rest) =>
      match ParseDigits(rest)
      case None => None
      case Some(n) => Some(n)
  }

  /** `/^settings_(delete|reconfigure)_(-?\d+)$/`, then the action and `parseInt` of the id. */
  function ParseSettingsData(data: string): Option<(Action, int)> {
    match StripPrefix(data, SettingsDeletePrefix)
    case Some(rest) =>
      (match ParseSignedInt(rest)
       case None => None
       case Some(chatId) => Some((Delete, chatId)))
    case None =>
      match StripPrefix(data, SettingsReconfigurePrefix)
      case None => None
      case Some(rest) =>
        match ParseSignedInt(rest)
        case None => None
        case Some(chatId) => Some((Reconfigure, chatId))
  }

  /** `/^<prefix>(-?\d+)$/`, then `parseInt` of the capture. */
  function ParseSignedAfter(data: string, prefix: string): Option<int> {
    match StripPrefix(data, prefix)
    case None => None
    case Some(rest) => ParseSignedInt(rest)
  }

  function ParseConfirmDelete(data: string): Option<int> {
    ParseSignedAfter(data, ConfirmDeletePrefix)
  }

  function ParseCancelDelete(data: string): Option<int> {
    ParseSignedAfter(data, CancelDeletePrefix)
  }

  lemma StripPrefixOf(prefix: string, rest: string)
    ensures StripPrefix(prefix + rest, prefix) == Some(rest)
  {
    assert (prefix + rest)[..|prefix|] == prefix;
    assert (prefix + rest)[|prefix|..] == rest;
  }

  /**
   * The cancel button carries the user's id back: it parses to that id for
   * every user id `\d+` can spell, that is every non-negative one.
   */
  lemma CancelSetupRoundTrip(userId: int)
    ensures ParseCancelSetup(CancelSetupData(userId)) == if userId >= 0 then Some(userId) else None
  {
    var digits := IntToString(userId);
    StripPrefixOf(CancelSetupPrefix, digits);
    if userId >= 0 {
      NatToStringParses(userId);
    } else {
      assert digits[0] == '-';
    }
  }

  /** The settings buttons carry their action and the chat id back, negative group ids included. */
  lemma SettingsDataRoundTrip(action: Action, chatId: int)
    ensures ParseSettingsData(SettingsData(action, chatId)) == Some((action, chatId))
  {
    var digits := IntToString(chatId);
    IntToStringParses(chatId);
    if action == Delete {
      StripPrefixOf(SettingsDeletePrefix, digits);
    } else {
      var data := SettingsReconfigurePrefix + digits;
      assert data[9] == 'r';
      assert StripPrefix(data, SettingsDeletePrefix).None? by {
        assert SettingsDeletePrefix[9] == 'd';
        if |data| >= |SettingsDeletePrefix| {
          assert data[..|SettingsDeletePrefix|][9] == 'r';
        }
      }
      StripPrefixOf(SettingsReconfigurePrefix, digits);
    }
  }

  lemma ConfirmDeleteRoundTrip(chatId: int)
    ensures ParseConfirmDelete(ConfirmDeleteData(chatId)) == Some(chatId)
  {
    StripPrefixOf(ConfirmDeletePrefix, IntToString(chatId));
    IntToStringParses(chatId);
  }

  lemma CancelDeleteRoundTrip(chatId: int)
    ensures ParseCancelDelete(CancelDeleteData(chatId)) == Some(chatId)
  {
    StripPrefixOf(CancelDeletePrefix, IntToString(chatId));
    IntToStringParses(chatId);
  }

  // ---------------------------------------------------------------------------
  // The conversation
  // ---------------------------------------------------------------------------

  datatype Step = WaitingUsername | WaitingPassword

  /** `isReconfigure` absent counts as `false`. */
  datatype ConversationState = ConversationState(
    step: Step, chatId: int, userId: int, username: Option<string>, isReconfigure: bool)

  /** What fetching the schedule with the entered credentials gave. */
  datatype ScrapeOutcome = ScrapeFailed(error: string) | ScrapeSucceeded(schedule: Schedule)

  /** The reply a private text message gets. */
  datatype TextOutcome = Ignored | UsernameSaved | VerificationFailed(error: string) | SetupDone(successMessage: string)

  /** `if (!userId) return`: a missing sender, or the falsy id 0, stops a handler. */
  function Sender(from: Option<int>): (sender: Option<int>)
    ensures sender.Some? <==> from.Some? && from.value != 0
    ensures sender.Some? ==> sender == from
  {
    if from.Some? && from.value != 0 then from else None
  }

  /** The first line of the private reply after a successful setup; only the flag decides it. */
  function SuccessMessage(isReconfigure: bool): (message: string)
    ensures isReconfigure <==> message == "✅ Bot reconfigured successfully!"
    ensures !isReconfigure <==> message == "✅ Bot configured successfully!"
  {
    if isReconfigure then "✅ Bot reconfigured successfully!" else "✅ Bot configured successfully!"
  }

  /** The buttons offered for a chat that is already configured. */
  function ConfiguredButtons(chatId: int): seq<string> {
    [SettingsData(Delete, chatId), SettingsData(Reconfigure, chatId)]
  }

  /** A fresh conversation waiting for the username. */
  function Started(chatId: int, userId: int, isReconfigure: bool): ConversationState {
    ConversationState(WaitingUsername, chatId, userId, None, isReconfigure)
  }

  /** Each conversation is keyed by its user, and one waiting for the password knows the username. */
  ghost predicate WellFormed(conversations: map<int, ConversationState>) {
    forall u :: u in conversations ==>
      && conversations[u].userId == u
      && (conversations[u].step == WaitingPassword ==> conversations[u].username.Some?)
  }

  class SettingsHandler {
    /** Conversations in progress, by the id of the user being asked. */
    var conversations: map<int, ConversationState>
    const repo: CredentialsRepository

    ghost predicate Valid()
      reads this
    {
      WellFormed(conversations)
    }

    constructor(repo: CredentialsRepository)
      ensures this.repo == repo && conversations == map[] && Valid()
    {
      this.repo := repo;
      conversations := map[];
    }

    /**
     * `/settings` in a group: an administrator of a chat that is already
     * configured is offered, privately, to delete or reconfigure; for a chat
     * that is not, a conversation waiting for the username starts once the
     * private message went out. Returns the buttons that were sent.
     */
    method OnSettings(chatId: int, isPrivate: bool, from: Option<int>, isAdmin: bool, dmOk: bool)
      returns (buttons: seq<string>)
      requires Valid()
      modifies this
      ensures Valid()
      ensures var configured := StoredCredentials(repo.strings, chatId).Some?;
        && (conversations ==
              if !isPrivate && Sender(from).Some? && isAdmin && !configured && dmOk
              then old(conversations)[from.value := Started(chatId, from.value, false)]
              else old(conversations))
        && (buttons ==
              if isPrivate || Sender(from).None? || !isAdmin || !dmOk then []
              else if configured then ConfiguredButtons(chatId)
              else [CancelSetupData(from.value)])
    {
      buttons := [];
      if isPrivate {
        return;
      }
      var userId := Sender(from);
      if userId.None? {
        return;
      }
      if !isAdmin {
        return;
      }
      var configured := repo.IsConfigured(chatId);
      if configured {
        if dmOk {
          buttons := ConfiguredButtons(chatId);
        }
      } else {
        if dmOk {
          buttons := [CancelSetupData(userId.value)];
          conversations := conversations[userId.value := Started(chatId, userId.value, false)];
        }
      }
    }

    /**
     * The cancel button: the user it names, and only that user, ends their own
     * conversation; the settings buttons come back when the conversation's chat
     * is configured. Returns the buttons the edited message shows.
     */
    method OnCancelSetup(data: string, from: Option<int>) returns (buttons: seq<string>)
      requires Valid()
      modifies this
      ensures Valid()
      ensures var target := ParseCancelSetup(data);
        var cancelled := target.Some? && Sender(from) == target && target.value in old(conversations);
        && (conversations == if cancelled then old(conversations) - {target.value} else old(conversations))
        && (buttons ==
              if cancelled && StoredCredentials(repo.strings, old(conversations)[target.value].chatId).Some?
              then ConfiguredButtons(old(conversations)[target.value].chatId)
              else [])
    {
      buttons := [];
      var userId := ParseCancelSetup(data);
      if userId.None? {
        return;
      }
      var currentUserId := Sender(from);
      if currentUserId.None? || currentUserId.value != userId.value {
        return;
      }
      if userId.value !in conversations {
        return;
      }
      var chatId := conversations[userId.value].chatId;
      conversations := conversations - {userId.value};
      var configured := repo.IsConfigured(chatId);
      if configured {
        buttons := ConfiguredButtons(chatId);
      }
    }

    /**
     * Confirming the deletion, for an administrator, removes the chat's
     * credentials and schedule and takes it out of its setter's set.
     */
    method OnConfirmDelete(data: string, from: Option<int>, isAdmin: bool)
      modifies repo
      ensures var chatId := ParseConfirmDelete(data);
        if chatId.Some? && Sender(from).Some? && isAdmin then
          && repo.strings == old(repo.strings) - {CredentialsKey(chatId.value), ScheduleKey(chatId.value)}
          && (repo.sets == match old(StoredCredentials(repo.strings, chatId.value))
                           case None => old(repo.sets)
                           case Some(c) => RemoveMember(old(repo.sets), UserChatsKey(c.setupBy), ChatMember(chatId.value)))
          && StoredCredentials(repo.strings, chatId.value).None?
          && StoredExams(repo.strings, chatId.value) == old(StoredExams(repo.strings, chatId.value))
        else
          repo.strings == old(repo.strings) && repo.sets == old(repo.sets)
    {
      var chatId := ParseConfirmDelete(data);
      if chatId.None? {
        return;
      }
      var userId := Sender(from);
      if userId.None? || !isAdmin {
        return;
      }
      repo.RemoveChat(chatId.value);
    }

    /** Declining the deletion offers the settings buttons again, for an administrator. */
    method OnCancelDelete(data: string, from: Option<int>, isAdmin: bool) returns (buttons: seq<string>)
      ensures var chatId := ParseCancelDelete(data);
        buttons == if chatId.Some? && Sender(from).Some? && isAdmin then ConfiguredButtons(chatId.value) else []
    {
      var chatId := ParseCancelDelete(data);
      if chatId.None? {
        return [];
      }
      var userId := Sender(from);
      if userId.None? || !isAdmin {
        return [];
      }
      buttons := ConfiguredButtons(chatId.value);
    }

    /**
     * A settings button, for an administrator: delete asks for confirmation;
     * reconfigure starts a conversation flagged as a reconfiguration. Either
     * happens only once the message could be edited. Returns the buttons that
     * were shown.
     */
    method OnSettingsAction(data: string, from: Option<int>, isAdmin: bool, editOk: bool)
      returns (buttons: seq<string>)
      requires Valid()
      modifies this
      ensures Valid()
      ensures var parsed := ParseSettingsData(data);
        var allowed := parsed.Some? && Sender(from).Some? && isAdmin;
        && (conversations ==
              if allowed && parsed.value.0 == Reconfigure && editOk
              then old(conversations)[from.value := Started(parsed.value.1, from.value, true)]
              else old(conversations))
        && (buttons ==
              if !allowed then []
              else if !editOk then []
              else if parsed.value.0 == Delete then [ConfirmDeleteData(parsed.value.1), CancelDeleteData(parsed.value.1)]
              else [CancelSetupData(from.value)])
    {
      buttons := [];
      var parsed := ParseSettingsData(data);
      if parsed.None? {
        return;
      }
      var (action, chatId) := parsed.value;
      var userId := Sender(from);
      if userId.None? || !isAdmin {
        return;
      }
      if !editOk {
        return;
      }
      if action == Delete {
        buttons := [ConfirmDeleteData(chatId), CancelDeleteData(chatId)];
      } else {
        buttons := [CancelSetupData(userId.value)];
        conversations := conversations[userId.value := Started(chatId, userId.value, true)];
      }
    }

    /**
     * A private text message from a user in a conversation: the username is
     * kept and the password asked for; the password is checked by fetching the
     * schedule, and on failure the conversation goes back to the username,
     * otherwise the credentials (set up by this user) and the schedule are
     * stored for the chat and the conversation ends.
     */
    method OnText(isPrivate: bool, from: int, text: string, scrape: ScrapeOutcome) returns (outcome: TextOutcome)
      requires Valid()
      modifies this, repo
      ensures Valid()
      ensures !isPrivate || from !in old(conversations) ==>
        && outcome == Ignored && conversations == old(conversations)
        && repo.strings == old(repo.strings) && repo.sets == old(repo.sets)
      ensures isPrivate && from in old(conversations) && old(conversations[from]).step == WaitingUsername ==>
        && outcome == UsernameSaved
        && conversations == old(conversations)[from := old(conversations[from]).(step := WaitingPassword, username := Some(text))]
        && repo.strings == old(repo.strings) && repo.sets == old(repo.sets)
      ensures isPrivate && from in old(conversations) && old(conversations[from]).step == WaitingPassword && scrape.ScrapeFailed? ==>
        var state := old(conversations[from]);
        && outcome == VerificationFailed(scrape.error)
        && conversations == old(conversations)[from := Started(state.chatId, from, state.isReconfigure)]
        && repo.strings == old(repo.strings) && repo.sets == old(repo.sets)
      ensures isPrivate && from in old(conversations) && old(conversations[from]).step == WaitingPassword && scrape.ScrapeSucceeded? ==>
        var state := old(conversations[from]);
        var credentials := UserCredentials(state.username.value, text, from, from);
        && outcome == SetupDone(SuccessMessage(state.isReconfigure))
        && conversations == old(conversations) - {from}
        && repo.strings == old(repo.strings)[CredentialsKey(state.chatId) := CredentialsValue(credentials)]
                                            [ScheduleKey(state.chatId) := ScheduleValue(scrape.schedule)]
        && repo.sets == AddMember(old(repo.sets), UserChatsKey(from), ChatMember(state.chatId))
        && StoredCredentials(repo.strings, state.chatId) == Some(credentials)
        && StoredSchedule(repo.strings, state.chatId) == Some(scrape.schedule)
    {
      if !isPrivate || from !in conversations {
        return Ignored;
      }
      var state := conversations[from];
      if state.step == WaitingUsername {
        conversations := conversations[from := state.(step := WaitingPassword, username := Some(text))];
        return UsernameSaved;
      }
      var password := text;
      if scrape.ScrapeFailed? {
        conversations := conversations[from := Started(state.chatId, from, state.isReconfigure)];
        return VerificationFailed(scrape.error);
      }
      var credentials := UserCredentials(state.username.value, password, from, from);
      repo.SaveCredentials(state.chatId, credentials);
      repo.SaveSchedule(state.chatId, scrape.schedule);
      ChatKeysDistinct(state.chatId, state.chatId);
      conversations := conversations - {from};
      outcome := SetupDone(SuccessMessage(state.isReconfigure));
    }
  }
}
