/**
 * The settings screen (`SettingsView`): a draft of the profile and interface
 * preferences seeded from the signed-in user, edited field by field, the
 * theme buttons, the four tabs, and the save button, which forwards the
 * nickname to the parent only when it differs from the stored one.
 */
module Settings {
  import opened JsValues

  /** The tabs of the sidebar. */
  datatype Tab = Account | Interface | Privacy | Danger

  /** The `activeTab` value each tab button sets. */
  function TabName(t: Tab): (s: string)
    ensures s in TabNames
  {
    match t
    case Account => "account"
    case Interface => "interface"
    case Privacy => "privacy"
    case Danger => "danger"
  }

  const TabNames: set<string> := {"account", "interface", "privacy", "danger"}

  /** Each tab has its own name. */
  lemma TabNamesDistinct(t1: Tab, t2: Tab)
    ensures TabName(t1) == TabName(t2) <==> t1 == t2
  {
  }

  /** The properties of the settings draft. */
  const SettingsFields: set<string> :=
    {"nickname", "phrase", "theme", "streamerMode", "animations", "soundEffects"}

  /** `currentUser?.user || {}`: `None` stands for a missing or null user. */
  function UserRecord(currentUserUser: Option<Record>): Record {
    if currentUserUser.Some? then currentUserUser.value else map[]
  }

  /**
   * The initial `formData`: the user's nickname and phrase, `''` when missing
   * or empty; the dark theme, streamer mode off, animations and sound on.
   */
  function InitialFormData(user: Record): (r: Record)
    ensures r.Keys == SettingsFields
    ensures r["nickname"] == ValueOr(Get(user, "nickname"), Str(""))
    ensures r["phrase"] == ValueOr(Get(user, "phrase"), Str(""))
    ensures r["theme"] == Str("dark") && r["streamerMode"] == Bool(false)
    ensures r["animations"] == Bool(true) && r["soundEffects"] == Bool(true)
  {
    map[
      "nickname" := ValueOr(Get(user, "nickname"), Str("")),
      "phrase" := ValueOr(Get(user, "phrase"), Str("")),
      "theme" := Str("dark"),
      "streamerMode" := Bool(false),
      "animations" := Bool(true),
      "soundEffects" := Bool(true)]
  }

  /**
   * The `handleSave` test `formData.nickname !== user.nickname && handleUpdateNickname`:
   * the nickname forwarded to the parent, if any.
   */
  function NicknameUpdate(formData: Record, user: Record, hasCallback: bool): (u: Option<Value>)
    ensures u.Some? <==> Get(formData, "nickname") != Get(user, "nickname") && hasCallback
    ensures u.Some? ==> u.value == Get(formData, "nickname")
  {
    if Get(formData, "nickname") != Get(user, "nickname") && hasCallback then Some(Get(formData, "nickname"))
    else None
  }

  /** Saving an untouched draft of a user who has a nickname forwards nothing. */
  lemma UntouchedSaveSendsNothing(user: Record, hasCallback: bool)
    requires Truthy(Get(user, "nickname"))
    ensures NicknameUpdate(InitialFormData(user), user, hasCallback) == None
  {
  }

  /**
   * A user with no stored nickname is sent an update on every save, even of
   * the untouched draft: its `''` is strictly different from `undefined`.
   */
  lemma SaveWithoutStoredNickname(user: Record)
    requires "nickname" !in user
    ensures NicknameUpdate(InitialFormData(user), user, true) == Some(Str(""))
  {
  }

  /** Editing the nickname to a new text and saving forwards that text. */
  lemma EditedNicknameIsSent(user: Record, formData: Record, text: string)
    requires Get(user, "nickname") != Str(text)
    ensures NicknameUpdate(ApplyChange(formData, InputEvent("nickname", text, "text", false)), user, true)
      == Some(Str(text))
  {
  }

  class SettingsView {
    var user: Record
    var hasCallback: bool
    var activeTab: string
    var formData: Record
    var isSaving: bool

    /** The active tab is one of the four, and the draft keeps all its properties. */
    ghost predicate Valid()
      reads this
    {
      activeTab in TabNames && SettingsFields <= formData.Keys
    }

    /** The screen at mount: the account tab, the seeded draft, not saving. */
    constructor (currentUserUser: Option<Record>, hasUpdateNickname: bool)
      ensures Valid()
      ensures user == UserRecord(currentUserUser) && hasCallback == hasUpdateNickname
      ensures activeTab == "account" && formData == InitialFormData(UserRecord(currentUserUser)) && !isSaving
    {
      user := UserRecord(currentUserUser);
      hasCallback := hasUpdateNickname;
      activeTab := "account";
      formData := InitialFormData(UserRecord(currentUserUser));
      isSaving := false;
    }

    /** `handleChange`: the named property takes `checked` for a checkbox and the text otherwise. */
    method HandleChange(e: InputEvent)
      requires Valid()
      modifies this
      ensures Valid()
      ensures formData == ApplyChange(old(formData), e)
      ensures activeTab == old(activeTab) && isSaving == old(isSaving)
      ensures user == old(user) && hasCallback == old(hasCallback)
    {
      formData := ApplyChange(formData, e);
    }

    /** The DARK and LIGHT buttons: `theme` is set and every other property kept. */
    method SetTheme(dark: bool)
      requires Valid()
      modifies this
      ensures Valid()
      ensures formData.Keys == old(formData).Keys
      ensures formData["theme"] == Str(if dark then "dark" else "light")
      ensures forall k :: k in old(formData) && k != "theme" ==> formData[k] == old(formData)[k]
      ensures activeTab == old(activeTab) && isSaving == old(isSaving)
      ensures user == old(user) && hasCallback == old(hasCallback)
    {
      formData := Spread(formData, map["theme" := Str(if dark then "dark" else "light")]);
    }

    /** A sidebar button: the tab becomes active. */
    method SelectTab(t: Tab)
      requires Valid()
      modifies this
      ensures Valid()
      ensures activeTab == TabName(t)
      ensures formData == old(formData) && isSaving == old(isSaving)
      ensures user == old(user) && hasCallback == old(hasCallback)
    {
      activeTab := TabName(t);
    }

    /**
     * `handleSave` up to its timer: saving starts, and the nickname goes to
     * the parent exactly when it differs from the stored one and the parent
     * passed a callback.
     */
    method Save() returns (update: Option<Value>)
      requires Valid()
      modifies this
      ensures Valid()
      ensures update == NicknameUpdate(formData, user, hasCallback)
      ensures isSaving
      ensures formData == old(formData) && activeTab == old(activeTab)
      ensures user == old(user) && hasCallback == old(hasCallback)
    {
      isSaving := true;
      update := NicknameUpdate(formData, user, hasCallback);
    }

    /** The save timer fired: saving ends. */
    method SaveTimerFired()
      requires Valid()
      modifies this
      ensures Valid()
      ensures !isSaving
      ensures formData == old(formData) && activeTab == old(activeTab)
      ensures user == old(user) && hasCallback == old(hasCallback)
    {
      isSaving := false;
    }

    /** A new `currentUser` from the parent: the draft is not seeded again. */
    method ReceiveUser(currentUserUser: Option<Record>, hasUpdateNickname: bool)
      requires Valid()
      modifies this
      ensures Valid()
      ensures user == UserRecord(currentUserUser) && hasCallback == hasUpdateNickname
      ensures formData == old(formData) && activeTab == old(activeTab) && isSaving == old(isSaving)
    {
      user := UserRecord(currentUserUser);
      hasCallback := hasUpdateNickname;
    }
  }
}
