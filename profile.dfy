/** The profile page (src/pages/Profile/Profile.jsx): five state fields loaded from the
    stored `userInfo`, an update body whose shape depends on the role, and the success
    message a timer clears again. */
module ProfilePage {
  import opened Api

  const SuccessMessage := "Profile updated successfully!"
  const ProfileCall := "/api/users/profile"

  /** The three editable fields. */
  datatype Fields = Fields(name: string, profileImage: string, companyLogo: string)

  /** The fields the mount effect sets from a stored user; the company logo is loaded only
      for role "hr" and otherwise keeps its previous value (initially ""). */
  function Loaded(u: User, logo: string): (f: Fields)
    ensures f.name == u.name
    ensures f.profileImage == OrElse(u.profileImage, "")
    ensures u.role == "hr" ==> f.companyLogo == OrElse(u.companyLogo, "")
    ensures u.role != "hr" ==> f.companyLogo == logo
  {
    Fields(u.name, OrElse(u.profileImage, ""), if u.role == "hr" then OrElse(u.companyLogo, "") else logo)
  }

  /** The update body: name and profileImage, and companyLogo exactly for role "hr". */
  function UpdateBody(role: string, f: Fields): (b: Body)
    ensures b.Keys == {"name", "profileImage"} + (if role == "hr" then {"companyLogo"} else {})
    ensures b["name"] == Str(f.name) && b["profileImage"] == Str(f.profileImage)
    ensures role == "hr" ==> b["companyLogo"] == Str(f.companyLogo)
  {
    var b := map["name" := Str(f.name), "profileImage" := Str(f.profileImage)];
    if role == "hr" then b["companyLogo" := Str(f.companyLogo)] else b
  }

  /** Submitting right after the page loads sends the stored values back, with "" for a
      missing image, and a company logo only for an hr user. */
  lemma UntouchedSubmitResendsStored(u: User)
    ensures UpdateBody(u.role, Loaded(u, "")) ==
            map["name" := Str(u.name), "profileImage" := Str(OrElse(u.profileImage, ""))] +
            (if u.role == "hr" then map["companyLogo" := Str(OrElse(u.companyLogo, ""))] else map[])
  {
  }

  /** The preview image: the typed URL, or the generated avatar with the name appended as typed. */
  function PreviewSrc(f: Fields): (src: string)
    ensures f.profileImage != "" ==> src == f.profileImage
    ensures f.profileImage == "" ==> src == "https://ui-avatars.com/api/?name=" + f.name
  {
    if f.profileImage != "" then f.profileImage else "https://ui-avatars.com/api/?name=" + f.name
  }

  datatype Screen = LoadingText | Form(preview: string, email: string, logoField: bool, message: Option<string>)

  function Render(user: Option<User>, f: Fields, successMsg: string): (s: Screen)
    ensures s.LoadingText? <==> user.None?
    ensures s.Form? ==> s.preview == PreviewSrc(f) && s.email == user.value.email
    ensures s.Form? ==> (s.logoField <==> user.value.role == "hr")
    ensures s.Form? ==> (s.message.Some? <==> successMsg != "")
  {
    if user.None? then LoadingText
    else Form(PreviewSrc(f), user.value.email, user.value.role == "hr",
              if successMsg != "" then Some(successMsg) else None)
  }

  class Profile {
    var user: Option<User>
    var fields: Fields
    var successMsg: string
    /** Timers started by successful updates that have not yet fired. */
    var timers: nat
    var log: seq<Effect>

    constructor ()
      ensures user.None? && fields == Fields("", "", "") && successMsg == "" && timers == 0 && log == []
    {
      user, fields, successMsg, timers, log := None, Fields("", "", ""), "", 0, [];
    }

    /** The mount effect; a missing record leaves the initial state. */
    method Load(stored: Option<User>)
      modifies this
      ensures stored.Some? ==> user == stored && fields == Loaded(stored.value, old(fields).companyLogo)
      ensures stored.None? ==> user == old(user) && fields == old(fields)
      ensures successMsg == old(successMsg) && timers == old(timers) && log == old(log)
    {
      if stored.Some? {
        var parsed := stored.value;
        user := Some(parsed);
        fields := fields.(name := parsed.name, profileImage := OrElse(parsed.profileImage, ""));
        if parsed.role == "hr" {
          fields := fields.(companyLogo := OrElse(parsed.companyLogo, ""));
        }
      }
    }

    method EditName(v: string)
      modifies this`fields
      ensures fields == old(fields).(name := v)
    {
      fields := fields.(name := v);
    }

    method EditProfileImage(v: string)
      modifies this`fields
      ensures fields == old(fields).(profileImage := v)
    {
      fields := fields.(profileImage := v);
    }

    /** The company logo input exists only for an hr user. */
    method EditCompanyLogo(v: string)
      requires user.Some? && user.value.role == "hr"
      modifies this`fields
      ensures fields == old(fields).(companyLogo := v)
    {
      fields := fields.(companyLogo := v);
    }

    /** `const body = { name, profileImage }`, then `body.companyLogo = companyLogo` for hr. */
    method BuildBody() returns (body: Body)
      requires user.Some?
      ensures body == UpdateBody(user.value.role, fields)
    {
      body := map["name" := Str(fields.name), "profileImage" := Str(fields.profileImage)];
      if user.value.role == "hr" {
        body := body["companyLogo" := Str(fields.companyLogo)];
      }
    }

    /** The form's submit (it is rendered only once a user is loaded). Only an ok response
        changes state: the stored record and the user become the response, the message is
        set and a timer to clear it starts; the edited fields keep their values. */
    method HandleUpdate(reply: Fetched<User>)
      requires user.Some?
      modifies this
      ensures fields == old(fields)
      ensures reply.Ok() ==>
                user == Some(reply.body) && successMsg == SuccessMessage && timers == old(timers) + 1 &&
                log == old(log) + [Sent(Call(PUT, ProfileCall, UpdateBody(old(user).value.role, old(fields)))),
                                   SavedUserInfo(reply.body)]
      ensures !reply.Ok() ==>
                user == old(user) && successMsg == old(successMsg) && timers == old(timers) &&
                log == old(log) + [Sent(Call(PUT, ProfileCall, UpdateBody(old(user).value.role, old(fields))))]
    {
      var body := BuildBody();
      log := log + [Sent(Call(PUT, ProfileCall, body))];
      if reply.Ok() {
        var updated := reply.body;
        log := log + [SavedUserInfo(updated)];
        user := Some(updated);
        successMsg := SuccessMessage;
        timers := timers + 1;
      }
    }

    /** Three seconds after a successful update: the message is cleared, even one set by a later update. */
    method TimerFires()
      requires timers > 0
      modifies this`successMsg, this`timers
      ensures successMsg == "" && timers == old(timers) - 1
    {
      successMsg := "";
      timers := timers - 1;
    }
  }
}
