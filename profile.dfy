/**
 * The profile page: the form defaults built from the fetched profile, the
 * update record built from the submitted form, and the visibility toggle.
 */
module Profile {
  import opened Wrappers
  import opened Text
  import opened CommaList
  import AuthContext

  const Public := "PUBLIC"
  const Private := "PRIVATE"

  /** A list-valued profile field as the server sent it: an array, or anything else. */
  datatype ListValue = List(items: seq<string>) | NotList

  /** The fetched profile, as far as the page reads it. */
  datatype ProfileRecord = ProfileRecord(
    name: string, bio: Option<string>, skills: ListValue, portfolioLinks: ListValue,
    profileVisibility: Option<string>)

  /** The form's text values. */
  datatype FormValues = FormValues(
    name: string, bio: string, skills: string, portfolioLinks: string, profileVisibility: string)

  /** The record sent to `updateProfile` on submit: exactly these five fields. */
  datatype UpdateData = UpdateData(
    name: string, bio: string, skills: seq<string>, portfolioLinks: seq<string>, profileVisibility: string)

  /** An array field shown in the form: its entries joined with ", ", or "" for anything else. */
  function ListText(v: ListValue): (text: string)
    ensures v.NotList? || v == List([]) ==> text == ""
  {
    if v.List? then Format(v.items) else ""
  }

  /** `reset({...})` after the profile is fetched. */
  function FormDefaults(p: ProfileRecord): (f: FormValues)
    ensures f.name == p.name
    ensures f.bio == if p.bio.Some? then p.bio.value else ""
    ensures f.skills == ListText(p.skills) && f.portfolioLinks == ListText(p.portfolioLinks)
    ensures p.profileVisibility.None? || p.profileVisibility == Some("") ==> f.profileVisibility == Public
    ensures p.profileVisibility.Some? && p.profileVisibility.value != "" ==> f.profileVisibility == p.profileVisibility.value
  {
    FormValues(
      p.name,
      if p.bio.Some? then p.bio.value else "",
      ListText(p.skills),
      ListText(p.portfolioLinks),
      if p.profileVisibility.Some? && p.profileVisibility.value != "" then p.profileVisibility.value else Public)
  }

  /** A list field on submit: its trimmed, non-empty comma-separated entries; nothing for "". */
  function ListField(text: string): (items: seq<string>)
    ensures text == "" ==> items == []
    ensures forall k :: 0 <= k < |items| ==> IsEntry(items[k])
  {
    ParseEntries(text);
    if text != "" then Parse(text) else []
  }

  /** `updateData` in `onSubmit`. */
  function Submit(f: FormValues): (u: UpdateData)
    ensures u.name == f.name && u.bio == f.bio && u.profileVisibility == f.profileVisibility
    ensures u.skills == ListField(f.skills) && u.portfolioLinks == ListField(f.portfolioLinks)
  {
    UpdateData(f.name, f.bio, ListField(f.skills), ListField(f.portfolioLinks), f.profileVisibility)
  }

  /** A list whose entries are non-empty, trimmed and free of commas. */
  predicate EntryList(v: ListValue) {
    v.List? ==> forall k :: 0 <= k < |v.items| ==> IsEntry(v.items[k])
  }

  /**
   * Saving the form unchanged sends back the lists that were fetched, when
   * their entries are non-empty, trimmed and free of commas; a non-array
   * field is sent as the empty list.
   */
  lemma SubmitDefaultsRoundTrip(p: ProfileRecord)
    requires EntryList(p.skills) && EntryList(p.portfolioLinks)
    ensures var u := Submit(FormDefaults(p));
      u.name == p.name &&
      u.skills == (if p.skills.List? then p.skills.items else []) &&
      u.portfolioLinks == (if p.portfolioLinks.List? then p.portfolioLinks.items else [])
  {
    if p.skills.List? {
      ParseFormat(p.skills.items);
    }
    if p.portfolioLinks.List? {
      ParseFormat(p.portfolioLinks.items);
    }
  }

  /** `PUBLIC` becomes `PRIVATE`; anything else becomes `PUBLIC`. */
  function NextVisibility(current: Option<string>): (v: string)
    ensures v == Public || v == Private
    ensures v == Private <==> current == Some(Public)
  {
    if current == Some(Public) then Private else Public
  }

  /** Toggling twice from either setting returns to it. */
  lemma ToggleTwice(v: string)
    requires v == Public || v == Private
    ensures NextVisibility(Some(NextVisibility(Some(v)))) == v
  {
  }

  const VisibilityFailed := "Failed to update visibility"

  /** The page's state: the loaded profile (`None` until loaded) and the toasts shown. */
  class ProfilePage {
    var profile: Option<ProfileRecord>
    var toasts: seq<string>

    constructor (profile: Option<ProfileRecord>)
      ensures this.profile == profile && toasts == []
    {
      this.profile := profile;
      toasts := [];
    }

    /**
     * `toggleVisibility`: when the server accepts the new setting, only the
     * profile's visibility changes, the signed-in user is patched with that one
     * field, and a toast names the setting in lower case; otherwise (or before
     * the profile has loaded) nothing changes but the failure toast.
     */
    method ToggleVisibility(auth: AuthContext.AuthProvider, serverAccepts: bool)
      modifies this, auth`state
      ensures old(profile).Some? && serverAccepts ==>
        var v := NextVisibility(old(profile).value.profileVisibility);
        profile == Some(old(profile).value.(profileVisibility := Some(v))) &&
        auth.state == AuthContext.Reduce(old(auth.state), AuthContext.UpdateUser(map["profileVisibility" := v])) &&
        toasts == old(toasts) + ["Profile is now " + Lower(v)]
      ensures old(profile).None? || !serverAccepts ==>
        profile == old(profile) && auth.state == old(auth.state) && toasts == old(toasts) + [VisibilityFailed]
    {
      if profile.None? {
        toasts := toasts + [VisibilityFailed];
        return;
      }
      var v := NextVisibility(profile.value.profileVisibility);
      if !serverAccepts {
        toasts := toasts + [VisibilityFailed];
        return;
      }
      profile := Some(profile.value.(profileVisibility := Some(v)));
      auth.UpdateUser(map["profileVisibility" := v]);
      toasts := toasts + ["Profile is now " + Lower(v)];
    }
  }
}
