/** The HR manager registration form (src/pages/Auth/RegisterHr/RegisterHR.jsx): the
    field errors react-hook-form reports, the request body the submit handler builds,
    and the submit itself through the session provider. */
module HrRegistration {
  import opened Api
  import opened RegistrationRules
  import Session

  /** The form's registered fields, as the inputs hold them (an untouched input holds ""). */
  datatype HrForm = HrForm(name: string, companyName: string, companyLogo: string,
                           email: string, password: string, dateOfBirth: string)

  /** The errors react-hook-form reports: name, companyName, companyLogo and email are
      required, the password follows the shared rule, and dateOfBirth has no rule. */
  function Errors(f: HrForm): (errs: map<string, string>)
    ensures errs.Keys <= {"name", "companyName", "companyLogo", "email", "password"}
    ensures "name" in errs <==> f.name == ""
    ensures "companyName" in errs <==> f.companyName == ""
    ensures "companyLogo" in errs <==> f.companyLogo == ""
    ensures "email" in errs <==> f.email == ""
    ensures "password" in errs <==> PasswordError(f.password).Some?
    ensures "password" in errs ==> Some(errs["password"]) == PasswordError(f.password)
    ensures forall k :: k in errs && k != "password" ==> errs[k] == ""
  {
    var required := Require(Require(Require(Require(map[], "name", f.name), "companyName", f.companyName),
                                    "companyLogo", f.companyLogo), "email", f.email);
    CheckPassword(required, f.password)
  }

  const PayloadKeys := {"name", "email", "password", "dateOfBirth", "companyName", "companyLogo", "role"}

  /** The body `handleHR` sends: the six fields as typed, and the role "hr". */
  function Payload(f: HrForm): (b: Body)
    ensures b.Keys == PayloadKeys
    ensures b["role"] == Str("hr")
  {
    map["name" := Str(f.name), "email" := Str(f.email), "password" := Str(f.password),
        "dateOfBirth" := Str(f.dateOfBirth), "companyName" := Str(f.companyName),
        "companyLogo" := Str(f.companyLogo), "role" := Str("hr")]
  }

  /** How a server reads the body back into a form: every field a string, the role "hr". */
  function Read(b: Body): Option<HrForm> {
    if b.Keys == PayloadKeys && (forall k :: k in b ==> b[k].Str?) && b["role"] == Str("hr") then
      Some(HrForm(b["name"].s, b["companyName"].s, b["companyLogo"].s,
                  b["email"].s, b["password"].s, b["dateOfBirth"].s))
    else None
  }

  /** The body carries every typed field unchanged: reading it back gives the form. */
  lemma PayloadRoundTrip(f: HrForm)
    ensures Read(Payload(f)) == Some(f)
  {
    var b := Payload(f);
    assert forall k :: k in b ==> b[k].Str?;
  }

  class RegisterHrPage {
    const auth: Session.AuthProvider
    var errors: map<string, string>
    var log: seq<Effect>

    constructor (auth: Session.AuthProvider)
      ensures this.auth == auth && errors == map[] && log == []
    {
      this.auth := auth;
      errors := map[];
      log := [];
    }

    /** `handleSubmit(handleHR)`: with any field error nothing is sent; otherwise the
        payload goes to `register` and its outcome is shown. */
    method Submit(f: HrForm, reply: Reply<User>)
      modifies this, auth
      ensures errors == Errors(f)
      ensures errors != map[] ==> log == old(log) && unchanged(auth)
      ensures errors == map[] ==>
                auth.calls == old(auth.calls) + [Session.Pending(Session.RegisterCall(Payload(f)), true)] &&
                auth.user == Session.Replaced(old(auth.user), reply) && !auth.loading &&
                log == old(log) + Outcome(reply)
      ensures auth.mounted == old(auth.mounted)
    {
      errors := Errors(f);
      if errors == map[] {
        var settled := auth.Register(Payload(f), reply);
        log := log + Outcome(settled);
      }
    }
  }
}
