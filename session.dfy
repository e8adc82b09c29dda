/** The session provider (src/providers/AuthProvider.jsx): the signed-in user and the
    `loading` flag, changed only by its six operations. Each network call is an input
    value; the provider records every request it issues together with the value of
    `loading` while that request is pending. */
module Session {
  import opened Api

  const MeCall := Call(GET, "/users/me", map[])
  const LogoutCall := Call(POST, "/users/logout", map[])

  function LoginCall(email: string, password: string): (c: Call)
    ensures c.verb == POST && c.path == "/users/login"
    ensures c.body == map["email" := Str(email), "password" := Str(password)]
    ensures c.body.Keys == {"email", "password"}
  {
    Call(POST, "/users/login", map["email" := Str(email), "password" := Str(password)])
  }

  function RegisterCall(userData: Body): Call {
    Call(POST, "/users/register", userData)
  }

  function ProfileCall(updatedData: Body): Call {
    Call(PUT, "/users/profile", updatedData)
  }

  /** A request as the provider issued it, with `loading` as it stood while the request was pending. */
  datatype Pending = Pending(call: Call, loading: bool)

  /** The user `checkUser` leaves behind: the fetched identity, or nobody on any failure. */
  function Checked(me: Reply<User>): (u: Option<User>)
    ensures u.Some? <==> me.Resolved?
    ensures me.Resolved? ==> u == Some(me.data)
  {
    if me.Resolved? then Some(me.data) else None
  }

  /** The user after `login`, `register` or `updateUser`: the server's identity on
      success, the previous user when the call throws. */
  function Replaced(before: Option<User>, reply: Reply<User>): (u: Option<User>)
    ensures reply.Resolved? ==> u == Some(reply.data)
    ensures reply.Rejected? ==> u == before
  {
    if reply.Resolved? then Some(reply.data) else before
  }

  /** The user after `logout`: nobody on success, unchanged when the call throws. */
  function LoggedOut(before: Option<User>, reply: Reply<()>): (u: Option<User>)
    ensures reply.Resolved? ==> u.None?
    ensures reply.Rejected? ==> u == before
  {
    if reply.Resolved? then None else before
  }

  class AuthProvider {
    var user: Option<User>
    var loading: bool
    var mounted: bool
    var calls: seq<Pending>

    /** useState(null) and useState(true). */
    constructor ()
      ensures user.None? && loading && !mounted && calls == []
    {
      user, loading, mounted, calls := None, true, false, [];
    }

    /** The mount effect with an empty dependency list: it runs `checkUser` once. */
    method Mount(me: Reply<User>)
      requires !mounted
      modifies this
      ensures mounted
      ensures calls == old(calls) + [Pending(MeCall, old(loading))]
      ensures user == Checked(me) && !loading
    {
      mounted := true;
      CheckUser(me);
    }

    /** checkUser does not raise `loading` first; it only lowers it when done. */
    method CheckUser(me: Reply<User>)
      modifies this
      ensures mounted == old(mounted)
      ensures calls == old(calls) + [Pending(MeCall, old(loading))]
      ensures user == Checked(me) && !loading
    {
      calls := calls + [Pending(MeCall, loading)];
      if me.Resolved? {
        user := Some(me.data);
      } else {
        user := None;
      }
      loading := false;
    }

    /** Returns the server's identity, or rethrows the error it received. */
    method Login(email: string, password: string, reply: Reply<User>) returns (result: Reply<User>)
      modifies this
      ensures mounted == old(mounted)
      ensures calls == old(calls) + [Pending(LoginCall(email, password), true)]
      ensures user == Replaced(old(user), reply) && !loading
      ensures result == reply
    {
      loading := true;
      calls := calls + [Pending(LoginCall(email, password), loading)];
      if reply.Resolved? {
        user := Some(reply.data);
      }
      result := reply;
      loading := false;
    }

    method Register(userData: Body, reply: Reply<User>) returns (result: Reply<User>)
      modifies this
      ensures mounted == old(mounted)
      ensures calls == old(calls) + [Pending(RegisterCall(userData), true)]
      ensures user == Replaced(old(user), reply) && !loading
      ensures result == reply
    {
      loading := true;
      calls := calls + [Pending(RegisterCall(userData), loading)];
      if reply.Resolved? {
        user := Some(reply.data);
      }
      result := reply;
      loading := false;
    }

    /** Clears the user only when the POST succeeds; a failure is rethrown and the user kept. */
    method Logout(reply: Reply<()>) returns (result: Reply<()>)
      modifies this
      ensures mounted == old(mounted)
      ensures calls == old(calls) + [Pending(LogoutCall, true)]
      ensures user == LoggedOut(old(user), reply) && !loading
      ensures result == reply
    {
      loading := true;
      calls := calls + [Pending(LogoutCall, loading)];
      if reply.Resolved? {
        user := None;
      }
      result := reply;
      loading := false;
    }

    method UpdateUser(updatedData: Body, reply: Reply<User>) returns (result: Reply<User>)
      modifies this
      ensures mounted == old(mounted)
      ensures calls == old(calls) + [Pending(ProfileCall(updatedData), true)]
      ensures user == Replaced(old(user), reply) && !loading
      ensures result == reply
    {
      loading := true;
      calls := calls + [Pending(ProfileCall(updatedData), loading)];
      if reply.Resolved? {
        user := Some(reply.data);
      }
      result := reply;
      loading := false;
    }
  }

  /** A client that signs in and out: whatever the replies, `loading` is raised while each
      call is pending and lowered afterwards, and the user follows the two replies. */
  method SignInThenOut(auth: AuthProvider, email: string, password: string,
                       loginReply: Reply<User>, logoutReply: Reply<()>)
    modifies auth
    ensures !auth.loading
    ensures auth.calls == old(auth.calls) +
            [Pending(LoginCall(email, password), true), Pending(LogoutCall, true)]
    ensures auth.user == LoggedOut(Replaced(old(auth.user), loginReply), logoutReply)
    ensures logoutReply.Rejected? && loginReply.Resolved? ==> auth.user == Some(loginReply.data)
  {
    var signedIn := auth.Login(email, password, loginReply);
    var signedOut := auth.Logout(logoutReply);
  }
}
