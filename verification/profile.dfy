/** The profile page: the user record with its defaults, the field
    updates, and the loading and saving flags around the two requests. */
module Profile {
  import opened Base

  datatype Contact = Contact(name: string, relationship: string, phone: string)

  datatype UserData = UserData(
    name: string,
    phone: string,
    gender: string,
    country: string,
    dateOfBirth: string,
    language: string,
    emergencyContact: Contact)

  /** The record before anything is loaded: every text empty except the
      language, which is English. */
  const DefaultUser := UserData("", "", "", "", "", "en", Contact("", "", ""))

  lemma DefaultUserIsBlank()
    ensures forall f: Field :: Get(DefaultUser, f) == if f == Language then "en" else ""
    ensures DefaultUser.emergencyContact == Contact("", "", "")
  {
  }

  /** The top-level text fields, which the form edits one at a time. */
  datatype Field = Name | Phone | Gender | Country | DateOfBirth | Language

  function Get(u: UserData, f: Field): string {
    match f
    case Name => u.name
    case Phone => u.phone
    case Gender => u.gender
    case Country => u.country
    case DateOfBirth => u.dateOfBirth
    case Language => u.language
  }

  /** `updateField`: field `f` becomes `v`; the other fields and the
      emergency contact keep their values. */
  function UpdateField(u: UserData, f: Field, v: string): (r: UserData)
    ensures Get(r, f) == v
    ensures forall g: Field :: g != f ==> Get(r, g) == Get(u, g)
    ensures r.emergencyContact == u.emergencyContact
  {
    match f
    case Name => u.(name := v)
    case Phone => u.(phone := v)
    case Gender => u.(gender := v)
    case Country => u.(country := v)
    case DateOfBirth => u.(dateOfBirth := v)
    case Language => u.(language := v)
  }

  /** A record is determined by its fields and its contact. */
  lemma SameFieldsSameUser(a: UserData, b: UserData)
    requires forall f: Field :: Get(a, f) == Get(b, f)
    requires a.emergencyContact == b.emergencyContact
    ensures a == b
  {
    assert Get(a, Name) == Get(b, Name) && Get(a, Phone) == Get(b, Phone);
    assert Get(a, Gender) == Get(b, Gender) && Get(a, Country) == Get(b, Country);
    assert Get(a, DateOfBirth) == Get(b, DateOfBirth) && Get(a, Language) == Get(b, Language);
  }

  /** Edits of two different fields commute, and a later edit of the same
      field overrides an earlier one. */
  lemma UpdatesCommute(u: UserData, f: Field, g: Field, v: string, w: string)
    ensures f != g ==> UpdateField(UpdateField(u, f, v), g, w) == UpdateField(UpdateField(u, g, w), f, v)
    ensures UpdateField(UpdateField(u, f, v), f, w) == UpdateField(u, f, w)
  {
    var a := UpdateField(UpdateField(u, f, v), g, w);
    var b := UpdateField(UpdateField(u, g, w), f, v);
    if f != g {
      SameFieldsSameUser(a, b);
    }
    SameFieldsSameUser(UpdateField(UpdateField(u, f, v), f, w), UpdateField(u, f, w));
  }

  datatype ContactField = ContactName | Relationship | ContactPhone

  function GetContact(c: Contact, f: ContactField): string {
    match f
    case ContactName => c.name
    case Relationship => c.relationship
    case ContactPhone => c.phone
  }

  /** `updateEmergencyContact`: only the contact's field `f` changes. */
  function UpdateContact(u: UserData, f: ContactField, v: string): (r: UserData)
    ensures GetContact(r.emergencyContact, f) == v
    ensures forall g: ContactField :: g != f ==> GetContact(r.emergencyContact, g) == GetContact(u.emergencyContact, g)
    ensures forall g: Field :: Get(r, g) == Get(u, g)
  {
    var c := u.emergencyContact;
    var c' := match f
      case ContactName => c.(name := v)
      case Relationship => c.(relationship := v)
      case ContactPhone => c.(phone := v);
    u.(emergencyContact := c')
  }

  /** Writing a contact field's current value back changes nothing. */
  lemma UpdateContactSameValue(u: UserData, f: ContactField)
    ensures UpdateContact(u, f, GetContact(u.emergencyContact, f)) == u
  {
    var r := UpdateContact(u, f, GetContact(u.emergencyContact, f));
    assert GetContact(r.emergencyContact, ContactName) == GetContact(u.emergencyContact, ContactName);
    assert GetContact(r.emergencyContact, Relationship) == GetContact(u.emergencyContact, Relationship);
    assert GetContact(r.emergencyContact, ContactPhone) == GetContact(u.emergencyContact, ContactPhone);
    SameFieldsSameUser(r, u);
  }

  // The page

  datatype Page = Page(data: UserData, loading: bool, saving: bool)

  /** The page as first rendered: loading, with the defaults. */
  const Initial := Page(DefaultUser, true, false)

  /** How the profile request ended: a record, a non-2xx status, or a
      failure (network or unreadable JSON). */
  datatype LoadOutcome = Loaded(user: UserData) | NotOk | LoadFailed

  /** `fetchProfile` finished: the spinner goes away on every path, a
      record replaces the data, and only a failure shows a toast. */
  function FinishLoad(p: Page, outcome: LoadOutcome): (r: (Page, Option<string>))
    ensures !r.0.loading && r.0.saving == p.saving
    ensures outcome.Loaded? ==> r.0.data == outcome.user
    ensures !outcome.Loaded? ==> r.0.data == p.data
    ensures r.1.Some? <==> outcome.LoadFailed?
    ensures r.1.Some? ==> r.1.value == "Failed to load profile data"
  {
    match outcome
    case Loaded(user) => (p.(data := user, loading := false), None)
    case NotOk => (p.(loading := false), None)
    case LoadFailed => (p.(loading := false), Some("Failed to load profile data"))
  }

  /** When the profile cannot be fetched the form shows the defaults. */
  lemma FailedLoadKeepsDefaults(outcome: LoadOutcome)
    requires !outcome.Loaded?
    ensures FinishLoad(Initial, outcome).0 == Page(DefaultUser, false, false)
  {
  }

  /** The Save button is enabled. */
  predicate SaveEnabled(p: Page) {
    !p.saving
  }

  /** `saveProfile` up to its request: the page shows that it is saving
      and posts the current record. */
  function BeginSave(p: Page): (r: (Page, UserData))
    ensures r.0.saving && !SaveEnabled(r.0)
    ensures r.0.data == p.data && r.0.loading == p.loading
    ensures r.1 == p.data
  {
    (p.(saving := true), p.data)
  }

  /** The save request ended, `accepted` when its status was 2xx; a
      network failure counts as not accepted. */
  function FinishSave(p: Page, accepted: bool): (r: (Page, string))
    ensures !r.0.saving && r.0.data == p.data && r.0.loading == p.loading
    ensures r.1 == (if accepted then "Profile updated successfully" else "Failed to save profile")
  {
    (p.(saving := false), if accepted then "Profile updated successfully" else "Failed to save profile")
  }

  /** A whole save, successful or not, returns the page to where it was
      with the button enabled again. */
  lemma SaveRestoresPage(p: Page, accepted: bool)
    requires SaveEnabled(p)
    ensures FinishSave(BeginSave(p).0, accepted).0 == p
    ensures SaveEnabled(FinishSave(BeginSave(p).0, accepted).0)
  {
  }
}
