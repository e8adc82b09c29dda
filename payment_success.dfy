/** The payment return page (src/pages/Subscription/PaymentSuccess.jsx): with a
    `session_id` it asks the server, through the secure client, to verify the payment,
    and routes on the answer; without one it goes home. */
module PaymentVerification {
  import opened Api
  import Session
  import Interceptor

  /** The verification reply's body: its `status` field, or no body at all (then reading
      `res.data.status` throws inside `.then`, and `.catch` handles it). */
  datatype Verdict = Verdict(status: Option<string>) | NoData

  const VerifyPath := "/payments/payment-success"

  function VerifyCall(sessionId: string): (c: Call)
    ensures c.verb == POST && c.path == VerifyPath && c.body == map["sessionId" := Str(sessionId)]
  {
    Call(POST, VerifyPath, map["sessionId" := Str(sessionId)])
  }

  predicate Verified(v: Verdict) {
    v.Verdict? && (v.status == Some("success") || v.status == Some("already_processed"))
  }

  /** `searchParams.get("session_id")` taken as a condition: a missing or empty value is falsy. */
  predicate HasSession(sessionId: Option<string>) {
    sessionId.Some? && sessionId.value != ""
  }

  /** Where the page goes, given what the caller of the secure client sees. */
  function Destination(sessionId: Option<string>, seen: Reply<Verdict>): (to: string)
    ensures !HasSession(sessionId) ==> to == "/"
    ensures HasSession(sessionId) && seen.Resolved? && Verified(seen.data) ==> to == "/dashboard"
    ensures HasSession(sessionId) && !(seen.Resolved? && Verified(seen.data)) ==> to == "/subscription"
  {
    if !HasSession(sessionId) then "/"
    else if seen.Resolved? && Verified(seen.data) then "/dashboard"
    else "/subscription"
  }

  /** The dialog shown before navigating; none without a session id. */
  function Dialog(seen: Reply<Verdict>): (d: Effect)
    ensures d.Popup?
    ensures d.icon == "success" <==> seen.Resolved? && Verified(seen.data)
    ensures seen.Resolved? && Verified(seen.data) ==>
              d == Popup("success", "Payment Successful", "Your package has been upgraded!")
    ensures seen.Resolved? && seen.data.Verdict? && !Verified(seen.data) ==>
              d == Popup("error", "Payment Failed", "Could not verify payment.")
    ensures seen.Rejected? || seen.data.NoData? ==>
              d == Popup("error", "Error", "Something went wrong during payment verification.")
  {
    if seen.Resolved? && Verified(seen.data) then Popup("success", "Payment Successful", "Your package has been upgraded!")
    else if seen.Resolved? && seen.data.Verdict? then Popup("error", "Payment Failed", "Could not verify payment.")
    else Popup("error", "Error", "Something went wrong during payment verification.")
  }

  class PaymentSuccess {
    const client: Interceptor.SecureClient
    var log: seq<Effect>

    constructor (client: Interceptor.SecureClient)
      ensures this.client == client && log == []
    {
      this.client := client;
      log := [];
    }

    /** The effect. `outcome` is the server's answer to the POST, `logout` how the
        interceptor's sign-out would settle, `me` the reply to the session refresh. */
    method Run(sessionId: Option<string>, outcome: Reply<Verdict>, logout: Reply<()>, me: Reply<User>)
      modifies this, client, client.auth
      ensures !HasSession(sessionId) ==> log == old(log) + [Navigated("/")] && unchanged(client, client.auth)
      ensures HasSession(sessionId) ==>
                var seen := if outcome.Resolved? then outcome
                            else Rejected(Interceptor.React(outcome.error, logout).rejection);
                log == old(log) + [Sent(VerifyCall(sessionId.value)), Dialog(seen),
                                   Navigated(Destination(sessionId, seen))]
      ensures HasSession(sessionId) && outcome.Resolved? && Verified(outcome.data) ==>
                client.auth.user == Session.Checked(me) && !client.auth.loading &&
                client.auth.calls == old(client.auth.calls) + [Session.Pending(Session.MeCall, old(client.auth.loading))]
      ensures HasSession(sessionId) && outcome.Resolved? && !Verified(outcome.data) ==> unchanged(client.auth)
      ensures HasSession(sessionId) && outcome.Resolved? ==> client.navigations == old(client.navigations)
      ensures HasSession(sessionId) && outcome.Rejected? ==>
                client.navigations == old(client.navigations) +
                (if Interceptor.React(outcome.error, logout).navigatesTo.Some? then ["/login"] else [])
      ensures HasSession(sessionId) && outcome.Rejected? && Interceptor.ForcesLogout(outcome.error.status) ==>
                client.auth.calls == old(client.auth.calls) + [Session.Pending(Session.LogoutCall, true)] &&
                client.auth.user == Session.LoggedOut(old(client.auth.user), logout) && !client.auth.loading
      ensures HasSession(sessionId) && outcome.Rejected? && !Interceptor.ForcesLogout(outcome.error.status) ==>
                unchanged(client.auth)
      ensures client.auth.mounted == old(client.auth.mounted)
    {
      if !HasSession(sessionId) {
        log := log + [Navigated("/")];
        return;
      }
      log := log + [Sent(VerifyCall(sessionId.value))];
      var seen := client.Send(outcome, logout);
      log := log + [Dialog(seen)];
      if seen.Resolved? && Verified(seen.data) {
        client.auth.CheckUser(me);
        log := log + [Navigated("/dashboard")];
      } else {
        log := log + [Navigated("/subscription")];
      }
    }
  }

  /** A verification answered 401 signs the user out and sends the browser to `/login`
      through the interceptor, and then the page's own `.catch` sends it to `/subscription`. */
  method ExpiredSessionAtVerification(page: PaymentSuccess, sessionId: string, message: Option<string>)
    requires sessionId != ""
    modifies page, page.client, page.client.auth
    ensures page.client.navigations == old(page.client.navigations) + ["/login"]
    ensures page.client.auth.user.None?
    ensures |page.log| > 0 && page.log[|page.log| - 1] == Navigated("/subscription")
  {
    page.Run(Some(sessionId), Rejected(HttpError(Some(401), message)), Resolved(200, ()), Resolved(200, User("", "", "", None, None)));
  }
}
