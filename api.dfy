/** Values the components exchange with the REST API and the browser.
    Every network reply, confirm dialog and stored record is an input value;
    every request sent, navigation, alert and storage write is an Effect. */
module Api {

  datatype Option<+T> = None | Some(value: T)

  /** JavaScript's `s || fallback` on a string field that may be missing:
      both a missing field and "" are falsy. */
  function OrElse(s: Option<string>, fallback: string): (r: string)
    ensures r == fallback || (s.Some? && r == s.value && r != "")
    ensures s.Some? && s.value != "" ==> r == s.value
  {
    if s.Some? && s.value != "" then s.value else fallback
  }

  /** `xs || []` on a list field that may be missing or null. */
  function OrEmpty<T>(xs: Option<seq<T>>): (list: seq<T>)
    ensures xs.Some? ==> list == xs.value
    ensures xs.None? ==> list == []
  {
    if xs.Some? then xs.value else []
  }

  /** A rejected axios call: `error.response ? error.response.status : null`
      and `error.response?.data?.message`. */
  datatype HttpError = HttpError(status: Option<int>, message: Option<string>)

  /** The settled outcome of an awaited axios call. */
  datatype Reply<+T> = Resolved(status: int, data: T) | Rejected(error: HttpError)

  /** The settled outcome of an awaited `fetch` followed by the code's own parse of the
      body: a response of any status, or a thrown error (network failure, or a body that is
      not JSON where the code parses it). */
  datatype Fetched<+T> = Response(status: int, body: T) | Threw {
    /** `res.ok` */
    predicate Ok() {
      Response? && 200 <= status <= 299
    }
  }

  /** A JSON request body: an object whose fields are strings, numbers or null
      (JSON.stringify writes NaN as null and drops undefined fields). */
  datatype Value = Str(s: string) | Num(n: int) | Null
  type Body = map<string, Value>

  datatype Verb = GET | POST | PUT | DELETE
  datatype Call = Call(verb: Verb, path: string, body: Body)

  /** The identity the server returns for a signed-in user. */
  datatype User = User(name: string, email: string, role: string,
                       profileImage: Option<string>, companyLogo: Option<string>)

  /** What a component does to the outside world, in order. */
  datatype Effect =
    | Sent(call: Call)                                // an HTTP request issued
    | Navigated(to: string)                           // navigate(to) or a link followed
    | Alerted(text: string)                           // window.alert(text)
    | Popup(icon: string, title: string, text: string) // a SweetAlert dialog
    | SavedUserInfo(user: User)                       // localStorage "userInfo" written

  /** The requests among a component's effects, in order. */
  function Requests(log: seq<Effect>): (calls: seq<Call>)
    ensures |calls| <= |log|
    ensures forall c :: c in calls <==> Sent(c) in log
  {
    if log == [] then []
    else (if log[0].Sent? then [log[0].call] else []) + Requests(log[1..])
  }

  lemma {:induction false} RequestsAppend(a: seq<Effect>, b: seq<Effect>)
    ensures Requests(a + b) == Requests(a) + Requests(b)
  {
    if a == [] {
      assert a + b == b;
    } else {
      assert (a + b)[1..] == a[1..] + b;
      RequestsAppend(a[1..], b);
    }
  }
}
