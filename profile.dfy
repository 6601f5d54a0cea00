/** The profile page of src/pages/Profile.tsx: the edit form filled from (and reset to) the
    signed-in user's profile, single-field edits, and the update sent on save, including the
    comma-separated skills list and its round trip through the form. */
module Profile {
  import opened Common

  /** `ProfileForm`: every field is a plain string. */
  datatype ProfileForm = ProfileForm(
    displayName: string,
    bio: string,
    website: string,
    location: string,
    skills: string,
    companyName: string,
    companyWebsite: string)

  const EmptyForm := ProfileForm("", "", "", "", "", "", "")

  // ---------------------------------------------------------------------------
  // Skills: list -> form text -> list

  /** `skills?.join(', ') || ''` */
  function FormatSkills(skills: Option<seq<string>>): string
  {
    if skills.Some? then Join(skills.value, ", ") else ""
  }

  /** A skill as the parser produces it: non-empty, trimmed, comma-free. */
  predicate WellFormedSkill(x: string)
  {
    x != "" && Trimmed(x) && ',' !in x
  }

  /** `parts.map(s => s.trim()).filter(s => s)` */
  function TrimNonEmpty(parts: seq<string>): (r: seq<string>)
    requires forall p :: p in parts ==> ',' !in p
    ensures |r| <= |parts|
    ensures forall x :: x in r ==> WellFormedSkill(x)
  {
    if parts == [] then []
    else
      assert parts[0] in parts;
      assert forall p :: p in parts[1..] ==> p in parts;
      var t := Trim(parts[0]);
      if t == "" then TrimNonEmpty(parts[1..]) else [t] + TrimNonEmpty(parts[1..])
  }

  /** The skills sent on save: `s ? s.split(',').map(trim).filter(nonEmpty) : []`. */
  function ParseSkills(s: string): (r: seq<string>)
    ensures s == "" ==> r == []
    ensures forall x :: x in r ==> WellFormedSkill(x)
    ensures |r| <= |Split(s, ',')|
  {
    if s == "" then [] else TrimNonEmpty(Split(s, ','))
  }

  /** Parts that each trim to the matching well-formed item parse to exactly those items. */
  lemma {:induction false} TrimNonEmptyExact(parts: seq<string>, items: seq<string>)
    requires forall p :: p in parts ==> ',' !in p
    requires |parts| == |items|
    requires forall i :: 0 <= i < |items| ==> Trim(parts[i]) == items[i] && items[i] != ""
    ensures TrimNonEmpty(parts) == items
    decreases |parts|
  {
    if parts != [] {
      assert forall p :: p in parts[1..] ==> p in parts;
      TrimNonEmptyExact(parts[1..], items[1..]);
    }
  }

  /** The comma-split pieces of a joined skills list: the first item, then each later item
      behind the one space of its separator. */
  lemma SplitJoinedSkills(items: seq<string>)
    requires |items| >= 1
    requires forall x :: x in items ==> WellFormedSkill(x)
    ensures var parts := Split(Join(items, ", "), ',');
            |parts| == |items| && parts[0] == items[0] &&
            forall i :: 1 <= i < |items| ==> parts[i] == " " + items[i]
  {
    assert forall x :: x in items ==> ',' !in x;
    SplitJoinComma("", items);
    assert "" + Join(items, ", ") == Join(items, ", ");
    assert "" + items[0] == items[0];
  }

  /** Each split piece trims back to its item. */
  lemma TrimJoinedSkills(items: seq<string>)
    requires |items| >= 1
    requires forall x :: x in items ==> WellFormedSkill(x)
    ensures var parts := Split(Join(items, ", "), ',');
            |parts| == |items| && forall i :: 0 <= i < |items| ==> Trim(parts[i]) == items[i] && items[i] != ""
  {
    var parts := Split(Join(items, ", "), ',');
    SplitJoinedSkills(items);
    forall i | 0 <= i < |items|
      ensures Trim(parts[i]) == items[i] && items[i] != ""
    {
      assert items[i] in items;
      if i > 0 {
        TrimLeadingSpace(items[i]);
      }
    }
  }

  /** Displaying a parsed-shaped skills list in the form and saving it unchanged gives the
      same list back. */
  lemma FormatParseRoundTrip(items: seq<string>)
    requires forall x :: x in items ==> WellFormedSkill(x)
    ensures ParseSkills(FormatSkills(Some(items))) == items
  {
    if items != [] {
      var s := Join(items, ", ");
      assert items[0] in items;
      TrimJoinedSkills(items);
      if |items| == 1 {
        assert s == items[0];
      } else {
        assert s == items[0] + ", " + Join(items[1..], ", ");
      }
      TrimNonEmptyExact(Split(s, ','), items);
    }
  }

  /** Saving the form twice without editing it sends the same skills both times. */
  lemma ParseFormatStable(s: string)
    ensures ParseSkills(FormatSkills(Some(ParseSkills(s)))) == ParseSkills(s)
  {
    FormatParseRoundTrip(ParseSkills(s));
  }

  // ---------------------------------------------------------------------------
  // The form

  /** The form filled from the profile (on load and on cancel): each optional field or "". */
  function FormFromProfile(p: UserProfile): (f: ProfileForm)
    ensures f.displayName == p.displayName
    ensures f.bio == OrEmpty(p.bio) && f.website == OrEmpty(p.website) && f.location == OrEmpty(p.location)
    ensures f.companyName == OrEmpty(p.companyName) && f.companyWebsite == OrEmpty(p.companyWebsite)
    ensures f.skills == FormatSkills(p.skills)
  {
    ProfileForm(p.displayName, OrEmpty(p.bio), OrEmpty(p.website), OrEmpty(p.location),
                FormatSkills(p.skills), OrEmpty(p.companyName), OrEmpty(p.companyWebsite))
  }

  datatype ProfileField = DisplayNameField | BioField | WebsiteField | LocationField
                        | SkillsField | CompanyNameField | CompanyWebsiteField

  function Get(f: ProfileForm, field: ProfileField): string
  {
    match field
    case DisplayNameField => f.displayName
    case BioField => f.bio
    case WebsiteField => f.website
    case LocationField => f.location
    case SkillsField => f.skills
    case CompanyNameField => f.companyName
    case CompanyWebsiteField => f.companyWebsite
  }

  /** `updateForm(field, value)`: `{ ...prev, [field]: value }`. */
  function UpdateForm(f: ProfileForm, field: ProfileField, v: string): (r: ProfileForm)
    ensures Get(r, field) == v
    ensures forall other :: other != field ==> Get(r, other) == Get(f, other)
  {
    match field
    case DisplayNameField => f.(displayName := v)
    case BioField => f.(bio := v)
    case WebsiteField => f.(website := v)
    case LocationField => f.(location := v)
    case SkillsField => f.(skills := v)
    case CompanyNameField => f.(companyName := v)
    case CompanyWebsiteField => f.(companyWebsite := v)
  }

  /** The field the single website input writes: the company site for a company, the
      personal site otherwise. */
  function WebsiteInputField(t: UserType): (field: ProfileField)
    ensures field == CompanyWebsiteField <==> t == Company
    ensures field == WebsiteField <==> t == Developer
  {
    match t
    case Company => CompanyWebsiteField
    case Developer => WebsiteField
  }

  // ---------------------------------------------------------------------------
  // The update sent on save

  datatype CompanyUpdate = CompanyUpdate(companyName: string, companyWebsite: string)

  datatype ProfileUpdate = ProfileUpdate(
    displayName: string,
    bio: string,
    website: string,
    location: string,
    skills: seq<string>,
    company: Option<CompanyUpdate>)

  /** `updateData`: the personal fields and the parsed skills always, the company fields only
      for a company profile. */
  function UpdateDataFor(t: UserType, f: ProfileForm): (u: ProfileUpdate)
    ensures u.displayName == f.displayName && u.bio == f.bio && u.website == f.website && u.location == f.location
    ensures u.skills == ParseSkills(f.skills)
    ensures u.company.Some? <==> t == Company
    ensures u.company.Some? ==> u.company.value == CompanyUpdate(f.companyName, f.companyWebsite)
  {
    ProfileUpdate(f.displayName, f.bio, f.website, f.location, ParseSkills(f.skills),
                  if t == Company then Some(CompanyUpdate(f.companyName, f.companyWebsite)) else None)
  }

  /** Saving an unedited form writes back what the profile already holds. */
  lemma SaveUneditedKeepsProfile(p: UserProfile)
    requires p.skills.Some? ==> forall x :: x in p.skills.value ==> WellFormedSkill(x)
    ensures var u := UpdateDataFor(p.userType, FormFromProfile(p));
            u.displayName == p.displayName && u.bio == OrEmpty(p.bio) &&
            u.website == OrEmpty(p.website) && u.location == OrEmpty(p.location) &&
            u.skills == (if p.skills.Some? then p.skills.value else []) &&
            (p.userType == Company ==>
               u.company == Some(CompanyUpdate(OrEmpty(p.companyName), OrEmpty(p.companyWebsite))))
  {
    if p.skills.Some? {
      FormatParseRoundTrip(p.skills.value);
    }
  }

  const SavedMessage := "Профиль успешно обновлен!"
  const SaveFailedMessage := "Произошла ошибка при обновлении профиля"

  datatype MessageKind = Success | Failure
  datatype Message = Message(kind: MessageKind, text: string)

  // ---------------------------------------------------------------------------
  // The page

  class ProfilePage {
    var form: ProfileForm
    var loading: bool
    var message: Option<Message>

    constructor ()
      ensures form == EmptyForm && !loading && message == None
    {
      form := EmptyForm;
      loading := false;
      message := None;
    }

    /** The effect run when the profile arrives: fill the form when there is a profile. */
    method ProfileLoaded(profile: Option<UserProfile>)
      modifies this
      ensures profile.Some? ==> form == FormFromProfile(profile.value)
      ensures profile.None? ==> form == old(form)
      ensures loading == old(loading) && message == old(message)
    {
      if profile.Some? {
        form := FormFromProfile(profile.value);
      }
    }

    /** `updateForm` */
    method Edit(field: ProfileField, v: string)
      modifies this
      ensures form == UpdateForm(old(form), field, v)
      ensures loading == old(loading) && message == old(message)
    {
      form := UpdateForm(form, field, v);
    }

    /** The cancel button: back to the values the form was filled with, no message. */
    method Cancel(profile: UserProfile)
      modifies this
      ensures form == FormFromProfile(profile) && message == None && loading == old(loading)
    {
      form := FormFromProfile(profile);
      message := None;
    }

    /** `handleSubmit`; `saved` is whether `updateUserProfile` succeeds. Returns the update sent. */
    method Submit(profile: UserProfile, saved: bool) returns (sent: ProfileUpdate)
      modifies this
      ensures sent == UpdateDataFor(profile.userType, form)
      ensures form == old(form) && !loading
      ensures saved ==> message == Some(Message(Success, SavedMessage))
      ensures !saved ==> message == Some(Message(Failure, SaveFailedMessage))
    {
      loading := true;
      message := None;
      sent := UpdateDataFor(profile.userType, form);
      if saved {
        message := Some(Message(Success, SavedMessage));
      } else {
        message := Some(Message(Failure, SaveFailedMessage));
      }
      loading := false;
    }
  }
}
