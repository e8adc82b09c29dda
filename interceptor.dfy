/** The secure HTTP client (src/hooks/useAxiosSecure.jsx): successful responses pass
    through; the error handler signs the user out and goes to `/login` on 401 or 403,
    and rejects back to the caller in every case. */
module Interceptor {
  import opened Api
  import Session

  /** The status test: `status === 401 || status === 403`, with null for an error that has no response. */
  predicate ForcesLogout(status: Option<int>) {
    status == Some(401) || status == Some(403)
  }

  /** What the error handler does with one rejected call, given how its `await logout()` settles. */
  datatype Reaction = Reaction(logsOut: bool, navigatesTo: Option<string>, rejection: HttpError)

  function React(error: HttpError, logout: Reply<()>): (r: Reaction)
    ensures r.logsOut <==> ForcesLogout(error.status)
    ensures r.navigatesTo.Some? <==> r.logsOut && logout.Resolved?
    ensures r.navigatesTo.Some? ==> r.navigatesTo.value == "/login"
    ensures !r.logsOut || logout.Resolved? ==> r.rejection == error
    ensures r.logsOut && logout.Rejected? ==> r.rejection == logout.error
  {
    if !ForcesLogout(error.status) then Reaction(false, None, error)
    else if logout.Resolved? then Reaction(true, Some("/login"), error)
    else Reaction(true, None, logout.error)
  }

  /** An error without a response, or with any status but 401 and 403, is handed back untouched. */
  lemma OtherErrorsUntouched(error: HttpError, logout: Reply<()>)
    requires error.status.None? || error.status.value !in {401, 403}
    ensures React(error, logout) == Reaction(false, None, error)
  {
  }

  class SecureClient {
    const auth: Session.AuthProvider
    var navigations: seq<string>

    constructor (auth: Session.AuthProvider)
      ensures this.auth == auth && navigations == []
    {
      this.auth := auth;
      navigations := [];
    }

    /** `(response) => response` */
    method OnFulfilled<T>(response: T) returns (passed: T)
      ensures passed == response
    {
      passed := response;
    }

    method OnRejected(error: HttpError, logout: Reply<()>) returns (rejection: HttpError)
      modifies this, auth
      ensures rejection == React(error, logout).rejection
      ensures navigations == old(navigations) +
              (if React(error, logout).navigatesTo.Some? then ["/login"] else [])
      ensures ForcesLogout(error.status) ==>
              auth.calls == old(auth.calls) + [Session.Pending(Session.LogoutCall, true)] &&
              auth.user == Session.LoggedOut(old(auth.user), logout) &&
              !auth.loading && auth.mounted == old(auth.mounted)
      ensures !ForcesLogout(error.status) ==> unchanged(auth)
    {
      rejection := error;
      if ForcesLogout(error.status) {
        var settled := auth.Logout(logout);
        if settled.Rejected? {
          // `await logout()` throws: navigate is skipped and the async handler rejects with it
          rejection := settled.error;
          return;
        }
        navigations := navigations + ["/login"];
      }
    }

    /** A request through this client: the server's outcome as the caller sees it. */
    method Send<T>(outcome: Reply<T>, logout: Reply<()>) returns (seen: Reply<T>)
      modifies this, auth
      ensures outcome.Resolved? ==> seen == outcome && unchanged(this, auth)
      ensures outcome.Rejected? ==> seen == Rejected(React(outcome.error, logout).rejection)
      ensures outcome.Rejected? ==>
                navigations == old(navigations) +
                (if React(outcome.error, logout).navigatesTo.Some? then ["/login"] else [])
      ensures outcome.Rejected? && ForcesLogout(outcome.error.status) ==>
              auth.calls == old(auth.calls) + [Session.Pending(Session.LogoutCall, true)] &&
              auth.user == Session.LoggedOut(old(auth.user), logout) &&
              !auth.loading && auth.mounted == old(auth.mounted)
      ensures outcome.Rejected? && !ForcesLogout(outcome.error.status) ==> unchanged(auth)
    {
      if outcome.Resolved? {
        seen := OnFulfilled(outcome);
      } else {
        var rejection := OnRejected(outcome.error, logout);
        seen := Rejected(rejection);
      }
    }
  }
}
