/** The employee registration form (src/pages/Auth/RegisterEmployee/RegisterEmployee.jsx):
    the same password rule as the HR form, fewer required fields, and a body without
    company fields. */
module EmployeeRegistration {
  import opened Api
  import opened RegistrationRules
  import Session

  datatype EmployeeForm = EmployeeForm(name: string, email: string, password: string, dateOfBirth: string)

  /** name and email are required, the password follows the shared rule, dateOfBirth has no rule. */
  function Errors(f: EmployeeForm): (errs: map<string, string>)
    ensures errs.Keys <= {"name", "email", "password"}
    ensures "name" in errs <==> f.name == ""
    ensures "email" in errs <==> f.email == ""
    ensures "password" in errs <==> PasswordError(f.password).Some?
    ensures "password" in errs ==> Some(errs["password"]) == PasswordError(f.password)
    ensures forall k :: k in errs && k != "password" ==> errs[k] == ""
  {
    CheckPassword(Require(Require(map[], "name", f.name), "email", f.email), f.password)
  }

  const PayloadKeys := {"name", "email", "password", "dateOfBirth", "role"}

  /** The body `handleEmployee` sends: the four fields as typed, and the role "employee". */
  function Payload(f: EmployeeForm): (b: Body)
    ensures b.Keys == PayloadKeys
    ensures "companyName" !in b && "companyLogo" !in b
    ensures b["role"] == Str("employee")
  {
    map["name" := Str(f.name), "email" := Str(f.email), "password" := Str(f.password),
        "dateOfBirth" := Str(f.dateOfBirth), "role" := Str("employee")]
  }

  function Read(b: Body): Option<EmployeeForm> {
    if b.Keys == PayloadKeys && (forall k :: k in b ==> b[k].Str?) && b["role"] == Str("employee") then
      Some(EmployeeForm(b["name"].s, b["email"].s, b["password"].s, b["dateOfBirth"].s))
    else None
  }

  lemma PayloadRoundTrip(f: EmployeeForm)
    ensures Read(Payload(f)) == Some(f)
  {
    var b := Payload(f);
    assert forall k :: k in b ==> b[k].Str?;
  }

  class RegisterEmployeePage {
    const auth: Session.AuthProvider
    var errors: map<string, string>
    var log: seq<Effect>

    constructor (auth: Session.AuthProvider)
      ensures this.auth == auth && errors == map[] && log == []
    {
      this.auth := auth;
      errors := map[];
      log := [];
    }

    method Submit(f: EmployeeForm, reply: Reply<User>)
      modifies this, auth
      ensures errors == Errors(f)
      ensures errors != map[] ==> log == old(log) && unchanged(auth)
      ensures errors == map[] ==>
                auth.calls == old(auth.calls) + [Session.Pending(Session.RegisterCall(Payload(f)), true)] &&
                auth.user == Session.Replaced(old(auth.user), reply) && !auth.loading &&
                log == old(log) + Outcome(reply)
      ensures auth.mounted == old(auth.mounted)
    {
      errors := Errors(f);
      if errors == map[] {
        var settled := auth.Register(Payload(f), reply);
        log := log + Outcome(settled);
      }
    }
  }
}
