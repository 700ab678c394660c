/**
 * The journaling component's state machine (src/journaling_app.tsx): the
 * in-memory user table, sign-up, login and logout, saving and loading a
 * user's history, submitting an entry for guidance and showing an insight.
 *
 * The React component becomes the class `Journaling`: each piece of
 * component state is a field and each handler a method that performs its
 * state updates as one step. Clock readings and the language model's replies
 * are parameters of the methods.
 */
module JournalApp {
  import opened Wrappers
  import opened Journal

  datatype AuthMode = Login | Signup

  datatype AuthForm = AuthForm(username: string, password: string, confirmPassword: string)

  const EMPTY_FORM: AuthForm := AuthForm("", "", "")

  const MIN_PASSWORD_LENGTH: nat := 6

  const MSG_FILL_ALL: string := "Please fill in all fields"
  const MSG_MISMATCH: string := "Passwords do not match"
  const MSG_SHORT: string := "Password must be at least 6 characters"
  const MSG_TAKEN: string := "Username already exists"
  const MSG_LOGIN_EMPTY: string := "Please enter username and password"
  const MSG_LOGIN_INVALID: string := "Invalid username or password"

  /** The reply shown when the guidance request fails. */
  const FALLBACK_REPLY: string := "I'm here with you. How are you feeling after writing this?"

  /** What is put between the reply and an appended insight: two line breaks and a light bulb. */
  const INSIGHT_SEPARATOR: string := "\n\n\U{1F4A1} "

  /**
   * One record of the user table. Records made by sign-up carry every field;
   * saving a history under a name with no record makes one with only
   * `journalHistory` and `lastActive`, so the other fields are optional.
   */
  datatype UserData = UserData(
    username: Option<string>,
    password: Option<string>,
    createdAt: Option<int>,
    lastActive: int,
    journalHistory: seq<JournalEntry>)

  /** The clock readings stamped on a new entry. */
  datatype Stamp = Stamp(id: int, date: string, time: string, dayOfWeek: string, fullDate: int)

  /** A language-model reply, or a failed request. */
  datatype LlmReply<T> = Replied(value: T) | Failed

  // ---------------------------------------------------------------------------
  // Accounts

  /** The sign-up checks, first failure wins. */
  function SignupError(form: AuthForm, users: set<string>): (err: Option<string>)
    ensures err.None? <==>
      form.username != "" && form.password != "" && form.confirmPassword != "" &&
      form.password == form.confirmPassword &&
      Utf16Length(form.password) >= MIN_PASSWORD_LENGTH &&
      form.username !in users
    ensures err == Some(MSG_FILL_ALL) <==>
      form.username == "" || form.password == "" || form.confirmPassword == ""
    ensures err == Some(MSG_MISMATCH) <==>
      form.username != "" && form.password != "" && form.confirmPassword != "" &&
      form.password != form.confirmPassword
    ensures err == Some(MSG_SHORT) <==>
      form.username != "" && form.password != "" && form.confirmPassword != "" &&
      form.password == form.confirmPassword && Utf16Length(form.password) < MIN_PASSWORD_LENGTH
    ensures err == Some(MSG_TAKEN) <==>
      form.username != "" && form.password != "" && form.confirmPassword != "" &&
      form.password == form.confirmPassword && Utf16Length(form.password) >= MIN_PASSWORD_LENGTH &&
      form.username in users
  {
    if form.username == "" || form.password == "" || form.confirmPassword == "" then Some(MSG_FILL_ALL)
    else if form.password != form.confirmPassword then Some(MSG_MISMATCH)
    else if Utf16Length(form.password) < MIN_PASSWORD_LENGTH then Some(MSG_SHORT)
    else if form.username in users then Some(MSG_TAKEN)
    else None
  }

  /**
   * The property names every plain JavaScript object inherits from
   * `Object.prototype`. Reading `userDatabase[name]` with one of them finds
   * the inherited member, which is truthy, even when no such user exists.
   */
  const INHERITED_NAMES: set<string> := {
    "constructor", "__proto__", "__defineGetter__", "__defineSetter__",
    "__lookupGetter__", "__lookupSetter__", "hasOwnProperty", "isPrototypeOf",
    "propertyIsEnumerable", "toString", "toLocaleString", "valueOf"}

  /**
   * The sign-up checks as the component runs them: the existence test
   * `userDatabase[username]` is also true for an inherited property name.
   */
  function SignupErrorAsWritten(form: AuthForm, users: set<string>): (err: Option<string>)
    ensures err == SignupError(form, users + INHERITED_NAMES)
  {
    if form.username == "" || form.password == "" || form.confirmPassword == "" then Some(MSG_FILL_ALL)
    else if form.password != form.confirmPassword then Some(MSG_MISMATCH)
    else if Utf16Length(form.password) < MIN_PASSWORD_LENGTH then Some(MSG_SHORT)
    else if form.username in users || form.username in INHERITED_NAMES then Some(MSG_TAKEN)
    else None
  }

  /** With an empty user table, the name "constructor" is reported as taken. */
  lemma InheritedNameReportedTaken()
    ensures SignupErrorAsWritten(AuthForm("constructor", "secret1", "secret1"), {}) == Some(MSG_TAKEN)
    ensures SignupError(AuthForm("constructor", "secret1", "secret1"), {}) == None
  {
  }

  /**
   * The length test counts UTF-16 code units: three emoji make a password of
   * length 6, which sign-up accepts.
   */
  lemma SurrogatePairsCountTwice()
    ensures Utf16Length("\U{1F600}\U{1F600}\U{1F600}") == 6
    ensures SignupError(AuthForm("alice", "\U{1F600}\U{1F600}\U{1F600}", "\U{1F600}\U{1F600}\U{1F600}"), {}) == None
  {
  }

  /**
   * The two existence tests differ exactly on an inherited property name that
   * would otherwise be accepted, which the code as written reports as taken.
   */
  lemma SignupChecksDifferOnlyOnInheritedNames(form: AuthForm, users: set<string>)
    ensures SignupErrorAsWritten(form, users) != SignupError(form, users) <==>
      form.username in INHERITED_NAMES && SignupError(form, users).None?
    ensures SignupErrorAsWritten(form, users) != SignupError(form, users) ==>
      SignupErrorAsWritten(form, users) == Some(MSG_TAKEN)
  {
  }

  /** The login checks: an unknown user and a wrong password give the same message. */
  function LoginError(form: AuthForm, db: map<string, UserData>): (err: Option<string>)
    ensures err.None? <==>
      form.username != "" && form.password != "" &&
      form.username in db && db[form.username].password == Some(form.password)
    ensures err == Some(MSG_LOGIN_EMPTY) <==> form.username == "" || form.password == ""
    ensures err == Some(MSG_LOGIN_INVALID) <==>
      form.username != "" && form.password != "" &&
      (form.username !in db || db[form.username].password != Some(form.password))
  {
    if form.username == "" || form.password == "" then Some(MSG_LOGIN_EMPTY)
    else if form.username !in db || db[form.username].password != Some(form.password) then Some(MSG_LOGIN_INVALID)
    else None
  }

  /** The user table after a successful sign-up: one new record, everyone else untouched. */
  function Register(db: map<string, UserData>, form: AuthForm, now: int): (r: map<string, UserData>)
    ensures r.Keys == db.Keys + {form.username}
    ensures r[form.username] == UserData(Some(form.username), Some(form.password), Some(now), now, [])
    ensures forall u :: u in db && u != form.username ==> r[u] == db[u]
  {
    db[form.username := UserData(Some(form.username), Some(form.password), Some(now), now, [])]
  }

  /**
   * saveUserJournalData on the table: the named record gets the new history
   * and activity time and keeps its other fields; other records are
   * untouched.
   */
  function SaveJournal(db: map<string, UserData>, username: string, data: seq<JournalEntry>, now: int): (r: map<string, UserData>)
    ensures r.Keys == db.Keys + {username}
    ensures r[username].journalHistory == data && r[username].lastActive == now
    ensures username in db ==>
      r[username].password == db[username].password &&
      r[username].username == db[username].username &&
      r[username].createdAt == db[username].createdAt
    ensures username !in db ==> r[username].password.None?
    ensures forall u :: u in db && u != username ==> r[u] == db[u]
  {
    var rec := if username in db then db[username].(journalHistory := data, lastActive := now)
               else UserData(None, None, None, now, data);
    db[username := rec]
  }

  /** loadUserJournalData's lookup: the stored history, or none for an unknown user. */
  function StoredHistory(db: map<string, UserData>, username: string): (h: seq<JournalEntry>)
    ensures username !in db ==> h == []
    ensures username in db ==> h == db[username].journalHistory
  {
    if username in db then db[username].journalHistory else []
  }

  /** Whoever signs up successfully can then log in with the same name and password. */
  lemma RegisteredCanLogIn(db: map<string, UserData>, form: AuthForm, now: int, confirm: string)
    requires SignupError(form, db.Keys).None?
    ensures LoginError(AuthForm(form.username, form.password, confirm), Register(db, form, now)).None?
    ensures StoredHistory(Register(db, form, now), form.username) == []
  {
  }

  /** Saving a history and loading it back gives the saved history. */
  lemma SaveThenLoad(db: map<string, UserData>, username: string, data: seq<JournalEntry>, now: int, other: string)
    ensures StoredHistory(SaveJournal(db, username, data, now), username) == data
    ensures other != username ==> StoredHistory(SaveJournal(db, username, data, now), other) == StoredHistory(db, other)
  {
  }

  /**
   * Saving a history changes no one's ability to log in: a known record keeps
   * its password, and a record made by the save has none.
   */
  lemma SaveKeepsLogins(db: map<string, UserData>, username: string, data: seq<JournalEntry>, now: int, form: AuthForm)
    ensures LoginError(form, SaveJournal(db, username, data, now)) == LoginError(form, db)
  {
  }

  /** A stored account: a non-empty name with a password that passed the sign-up checks. */
  predicate ValidAccount(name: string, d: UserData) {
    name != "" && d.password.Some? && Utf16Length(d.password.value) >= MIN_PASSWORD_LENGTH
  }

  // ---------------------------------------------------------------------------
  // Entries

  /** The entry a successful submission records. */
  function NewEntry(text: string, stamp: Stamp, mood: string, guidance: string, insights: LlmReply<Option<Analysis>>): (e: JournalEntry)
    ensures e.entry == text && e.mood == mood && e.guidance == guidance
    ensures e.fullDate == stamp.fullDate && e.id == stamp.id
    ensures e.date == stamp.date && e.time == stamp.time && e.dayOfWeek == stamp.dayOfWeek
    ensures insights.Failed? ==> e.analysis == Some(DEFAULT_ANALYSIS)
    ensures insights.Replied? ==> e.analysis == insights.value
  {
    JournalEntry(stamp.id, stamp.date, stamp.time, stamp.dayOfWeek, stamp.fullDate, text, guidance, mood,
                 match insights case Replied(a) => a case Failed => Some(DEFAULT_ANALYSIS))
  }

  /** The newest entry has an analysis with a non-empty insight. */
  predicate HasInsight(history: seq<JournalEntry>) {
    |history| > 0 && history[0].analysis.Some? && history[0].analysis.value.insight != ""
  }

  // ---------------------------------------------------------------------------
  // The component

  class Journaling {
    var userDatabase: map<string, UserData>
    var currentUser: Option<string>
    var showAuth: bool
    var authMode: AuthMode
    var authForm: AuthForm
    var authError: string
    var journalEntry: string
    var aiResponse: string
    var isLoading: bool
    var journalHistory: seq<JournalEntry>
    var currentMood: string
    var activeTab: string
    var showInsightOption: bool
    var wantsInsight: bool
    var selectedTimeframe: string

    /**
     * The sign-in screen shows exactly when no one is signed in, the
     * signed-in user has a record, and every record is a valid account.
     */
    ghost predicate Valid()
      reads this
    {
      (showAuth <==> currentUser.None?) &&
      (currentUser.Some? ==> currentUser.value in userDatabase) &&
      (forall u :: u in userDatabase ==> ValidAccount(u, userDatabase[u]))
    }

    /** The component's initial state. */
    constructor ()
      ensures Valid()
      ensures userDatabase == map[] && currentUser.None? && showAuth
      ensures authMode == Login && authForm == EMPTY_FORM && authError == ""
      ensures journalEntry == "" && aiResponse == "" && !isLoading && journalHistory == []
      ensures currentMood == "" && activeTab == "write" && !showInsightOption && !wantsInsight
      ensures selectedTimeframe == "all"
    {
      userDatabase := map[];
      currentUser := None;
      showAuth := true;
      authMode := Login;
      authForm := EMPTY_FORM;
      authError := "";
      journalEntry := "";
      aiResponse := "";
      isLoading := false;
      journalHistory := [];
      currentMood := "";
      activeTab := "write";
      showInsightOption := false;
      wantsInsight := false;
      selectedTimeframe := "all";
    }

    /** saveUserJournalData: only the named user's record changes. */
    method SaveUserJournalData(username: string, data: seq<JournalEntry>, now: int)
      requires Valid()
      modifies this`userDatabase
      ensures userDatabase == SaveJournal(old(userDatabase), username, data, now)
      ensures username in old(userDatabase) ==> Valid()
    {
      userDatabase := SaveJournal(userDatabase, username, data, now);
    }

    /** loadUserJournalData: the current history becomes the user's stored one, or empty. */
    method LoadUserJournalData(username: string)
      modifies this`journalHistory
      ensures journalHistory == StoredHistory(userDatabase, username)
    {
      if username in userDatabase {
        journalHistory := userDatabase[username].journalHistory;
      } else {
        journalHistory := [];
      }
    }

    /**
     * The effect that saves the history whenever it or the user changes: it
     * writes only when someone is signed in and the history is not empty.
     */
    method SyncJournal(now: int)
      requires Valid()
      modifies this`userDatabase
      ensures Valid()
      ensures currentUser.Some? && |journalHistory| > 0 ==>
        userDatabase == SaveJournal(old(userDatabase), currentUser.value, journalHistory, now)
      ensures currentUser.None? || |journalHistory| == 0 ==> userDatabase == old(userDatabase)
    {
      if currentUser.Some? && |journalHistory| > 0 {
        SaveUserJournalData(currentUser.value, journalHistory, now);
      }
    }

    /**
     * handleAuth: sign-up or login, depending on the mode. On any failure only
     * the error message changes.
     */
    method HandleAuth(now: int)
      requires Valid()
      modifies this`userDatabase, this`currentUser, this`journalHistory, this`showAuth, this`authForm, this`authError
      ensures Valid()
      ensures authMode == Signup && SignupError(old(authForm), old(userDatabase).Keys).Some? ==>
        authError == SignupError(old(authForm), old(userDatabase).Keys).value &&
        userDatabase == old(userDatabase) && currentUser == old(currentUser) &&
        journalHistory == old(journalHistory) && showAuth == old(showAuth) && authForm == old(authForm)
      ensures authMode == Signup && SignupError(old(authForm), old(userDatabase).Keys).None? ==>
        authError == "" &&
        userDatabase == Register(old(userDatabase), old(authForm), now) &&
        currentUser == Some(old(authForm).username) &&
        journalHistory == [] && !showAuth && authForm == EMPTY_FORM
      ensures authMode == Login && LoginError(old(authForm), old(userDatabase)).Some? ==>
        authError == LoginError(old(authForm), old(userDatabase)).value &&
        userDatabase == old(userDatabase) && currentUser == old(currentUser) &&
        journalHistory == old(journalHistory) && showAuth == old(showAuth) && authForm == old(authForm)
      ensures authMode == Login && LoginError(old(authForm), old(userDatabase)).None? ==>
        authError == "" && userDatabase == old(userDatabase) &&
        currentUser == Some(old(authForm).username) &&
        journalHistory == StoredHistory(old(userDatabase), old(authForm).username) &&
        !showAuth && authForm == EMPTY_FORM
    {
      authError := "";
      if authMode == Signup {
        var err := SignupError(authForm, userDatabase.Keys);
        if err.Some? {
          authError := err.value;
          return;
        }
        userDatabase := Register(userDatabase, authForm, now);
        currentUser := Some(authForm.username);
        journalHistory := [];
        showAuth := false;
        authForm := EMPTY_FORM;
      } else {
        var err := LoginError(authForm, userDatabase);
        if err.Some? {
          authError := err.value;
          return;
        }
        currentUser := Some(authForm.username);
        LoadUserJournalData(authForm.username);
        showAuth := false;
        authForm := EMPTY_FORM;
      }
    }

    /** handleLogout: back to the sign-in screen with the writing state cleared. */
    method HandleLogout()
      requires Valid()
      modifies this`currentUser, this`journalHistory, this`showAuth, this`activeTab,
               this`aiResponse, this`journalEntry, this`currentMood
      ensures Valid()
      ensures currentUser.None? && journalHistory == [] && showAuth && activeTab == "write"
      ensures aiResponse == "" && journalEntry == "" && currentMood == ""
    {
      currentUser := None;
      journalHistory := [];
      showAuth := true;
      activeTab := "write";
      aiResponse := "";
      journalEntry := "";
      currentMood := "";
    }

    /**
     * analyzeEntry: on a guidance reply, the new entry goes in front of the
     * history and the reply is shown; when the guidance request fails, only
     * the fallback reply is shown. Loading is over either way.
     */
    method AnalyzeEntry(text: string, stamp: Stamp, insights: LlmReply<Option<Analysis>>, guidance: LlmReply<string>)
      requires Valid()
      modifies this`journalHistory, this`aiResponse, this`showInsightOption, this`journalEntry, this`isLoading
      ensures Valid()
      ensures !isLoading
      ensures guidance.Replied? ==>
        journalHistory == [NewEntry(text, stamp, currentMood, guidance.value, insights)] + old(journalHistory) &&
        aiResponse == guidance.value && showInsightOption && journalEntry == ""
      ensures guidance.Failed? ==>
        journalHistory == old(journalHistory) && aiResponse == FALLBACK_REPLY &&
        showInsightOption == old(showInsightOption) && journalEntry == old(journalEntry)
    {
      isLoading := true;
      if guidance.Replied? {
        var e := NewEntry(text, stamp, currentMood, guidance.value, insights);
        journalHistory := [e] + journalHistory;
        aiResponse := guidance.value;
        showInsightOption := true;
        journalEntry := "";
      } else {
        aiResponse := FALLBACK_REPLY;
      }
      isLoading := false;
    }

    /** handleSubmit: an entry that is only whitespace is ignored; any other is analysed. */
    method HandleSubmit(stamp: Stamp, insights: LlmReply<Option<Analysis>>, guidance: LlmReply<string>)
      requires Valid()
      modifies this`journalHistory, this`aiResponse, this`showInsightOption, this`journalEntry, this`isLoading
      ensures Valid()
      ensures (forall i :: 0 <= i < |old(journalEntry)| ==> IsJsWhitespace(old(journalEntry)[i])) ==>
        journalHistory == old(journalHistory) && aiResponse == old(aiResponse) &&
        showInsightOption == old(showInsightOption) && journalEntry == old(journalEntry) &&
        isLoading == old(isLoading)
      ensures (exists i :: 0 <= i < |old(journalEntry)| && !IsJsWhitespace(old(journalEntry)[i])) ==>
        !isLoading &&
        (guidance.Replied? ==>
          journalHistory == [NewEntry(old(journalEntry), stamp, currentMood, guidance.value, insights)] + old(journalHistory) &&
          aiResponse == guidance.value && showInsightOption && journalEntry == "") &&
        (guidance.Failed? ==>
          journalHistory == old(journalHistory) && aiResponse == FALLBACK_REPLY &&
          showInsightOption == old(showInsightOption) && journalEntry == old(journalEntry))
    {
      TrimBlank(journalEntry);
      if Trim(journalEntry) != "" {
        AnalyzeEntry(journalEntry, stamp, insights, guidance);
      }
    }

    /** provideInsight: appends the newest entry's insight to the reply, when it has one. */
    method ProvideInsight()
      modifies this`aiResponse, this`showInsightOption, this`wantsInsight
      ensures HasInsight(journalHistory) ==>
        aiResponse == old(aiResponse) + INSIGHT_SEPARATOR + journalHistory[0].analysis.value.insight &&
        !showInsightOption && !wantsInsight
      ensures !HasInsight(journalHistory) ==>
        aiResponse == old(aiResponse) && showInsightOption == old(showInsightOption) &&
        wantsInsight == old(wantsInsight)
    {
      if !HasInsight(journalHistory) {
        return;
      }
      var insight := journalHistory[0].analysis.value.insight;
      aiResponse := aiResponse + INSIGHT_SEPARATOR + insight;
      showInsightOption := false;
      wantsInsight := false;
    }
  }
}
