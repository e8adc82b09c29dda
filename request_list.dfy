/** The request table (src/components/RequestList/RequestList.jsx). This file compares the
    stored role with "HR" and "Employee", capitalised, unlike the rest of the client. */
module RequestListView {
  import opened Api

  datatype AssetRef = AssetRef(name: Option<string>, kind: Option<string>)
  datatype Requester = Requester(name: Option<string>, email: Option<string>)
  datatype Request = Request(id: string, assetId: Option<AssetRef>, userId: Option<Requester>,
                             requestType: string, status: string)

  /** The list endpoint: all requests for "HR", the user's own for any other role. */
  function Endpoint(role: string): (url: string)
    ensures url == "/api/requests" <==> role == "HR"
    ensures url == "/api/requests/myrequests" <==> role != "HR"
  {
    if role == "HR" then "/api/requests" else "/api/requests/myrequests"
  }

  /** The role the other screens and the registration body use, "hr", is not "HR" here:
      such a user is sent the own-requests endpoint and gets no actions column. */
  lemma LowerCaseHrIsNotHr()
    ensures Endpoint("hr") == "/api/requests/myrequests"
    ensures !ActionsColumn(Some(User("", "", "hr", None, None)))
  {
  }

  /** The status badge: success for "Approved", error for "Rejected", warning otherwise. */
  function Badge(status: string): (b: string)
    ensures b == "badge-success" <==> status == "Approved"
    ensures b == "badge-error" <==> status == "Rejected"
    ensures b == "badge-warning" <==> status != "Approved" && status != "Rejected"
  {
    if status == "Approved" then "badge-success" else if status == "Rejected" then "badge-error" else "badge-warning"
  }

  /** `user?.role === "HR"` */
  predicate ActionsColumn(user: Option<User>) {
    user.Some? && user.value.role == "HR"
  }

  /** The statuses the Approve and Reject buttons send: present in a row exactly when the
      column exists and the request is pending. */
  function ActionStatuses(user: Option<User>, status: string): (statuses: seq<string>)
    ensures statuses != [] <==> ActionsColumn(user) && status == "Pending"
    ensures statuses != [] ==> statuses == ["Approved", "Rejected"]
  {
    if ActionsColumn(user) && status == "Pending" then ["Approved", "Rejected"] else []
  }

  function AssetName(r: Request): (s: string)
    ensures r.assetId.Some? && r.assetId.value.name.Some? && r.assetId.value.name.value != "" ==> s == r.assetId.value.name.value
    ensures r.assetId.None? || r.assetId.value.name.None? || r.assetId.value.name.value == "" ==> s == "N/A"
  {
    if r.assetId.Some? then OrElse(r.assetId.value.name, "N/A") else "N/A"
  }

  function AssetKind(r: Request): (s: string)
    ensures r.assetId.Some? && r.assetId.value.kind.Some? && r.assetId.value.kind.value != "" ==> s == r.assetId.value.kind.value
    ensures r.assetId.None? || r.assetId.value.kind.None? || r.assetId.value.kind.value == "" ==> s == "N/A"
  {
    if r.assetId.Some? then OrElse(r.assetId.value.kind, "N/A") else "N/A"
  }

  /** `request.userId?.name || "Me"` */
  function RequesterName(r: Request): (s: string)
    ensures r.userId.Some? && r.userId.value.name.Some? && r.userId.value.name.value != "" ==> s == r.userId.value.name.value
    ensures r.userId.None? || r.userId.value.name.None? || r.userId.value.name.value == "" ==> s == "Me"
  {
    if r.userId.Some? then OrElse(r.userId.value.name, "Me") else "Me"
  }

  /** `request.userId?.name?.charAt(0) || "U"`: the first character, or "U" for a missing or empty name. */
  function Initial(r: Request): (s: string)
    ensures |s| == 1
    ensures r.userId.Some? && r.userId.value.name.Some? && r.userId.value.name.value != "" ==>
              s == [r.userId.value.name.value[0]]
    ensures r.userId.None? || r.userId.value.name.None? || r.userId.value.name.value == "" ==> s == "U"
  {
    if r.userId.Some? && r.userId.value.name.Some? && r.userId.value.name.value != "" then [r.userId.value.name.value[0]]
    else "U"
  }

  class RequestList {
    var requests: seq<Request>
    var user: Option<User>
    var log: seq<Effect>

    constructor ()
      ensures requests == [] && user.None? && log == []
    {
      requests, user, log := [], None, [];
    }

    /** `fetchRequests(userInfo)`: nothing without a user; otherwise the role's endpoint,
        and the list is replaced only by an ok reply. */
    method FetchRequests(userInfo: Option<User>, reply: Fetched<seq<Request>>)
      modifies this`requests, this`log
      ensures userInfo.None? ==> log == old(log) && requests == old(requests)
      ensures userInfo.Some? ==> log == old(log) + [Sent(Call(GET, Endpoint(userInfo.value.role), map[]))]
      ensures userInfo.Some? && reply.Ok() ==> requests == reply.body
      ensures !(userInfo.Some? && reply.Ok()) ==> requests == old(requests)
    {
      if userInfo.None? {
        return;
      }
      var url := Endpoint(userInfo.value.role);
      log := log + [Sent(Call(GET, url, map[]))];
      if reply.Ok() {
        requests := reply.body;
      }
    }

    /** The mount effect: the stored user becomes the state, and the fetch uses it directly. */
    method Mount(stored: Option<User>, reply: Fetched<seq<Request>>)
      modifies this
      ensures user == stored
      ensures stored.None? ==> log == old(log) && requests == old(requests)
      ensures stored.Some? ==> log == old(log) + [Sent(Call(GET, Endpoint(stored.value.role), map[]))]
      ensures stored.Some? && reply.Ok() ==> requests == reply.body
      ensures !(stored.Some? && reply.Ok()) ==> requests == old(requests)
    {
      user := stored;
      FetchRequests(stored, reply);
    }

    /** An Approve or Reject click (the buttons exist only for "HR"): PUT the new status; an
        ok reply refetches, any other reply alerts its message. */
    method HandleAction(id: string, status: string, put: Fetched<Option<string>>, refetch: Fetched<seq<Request>>)
      requires ActionsColumn(user)
      modifies this`requests, this`log
      ensures put.Ok() ==> log == old(log) + [Sent(Call(PUT, "/api/requests/" + id, map["status" := Str(status)])),
                                              Sent(Call(GET, "/api/requests", map[]))]
      ensures put.Ok() && refetch.Ok() ==> requests == refetch.body
      ensures put.Ok() && !refetch.Ok() ==> requests == old(requests)
      ensures put.Response? && !put.Ok() ==>
                requests == old(requests) &&
                log == old(log) + [Sent(Call(PUT, "/api/requests/" + id, map["status" := Str(status)])),
                                   Alerted(if put.body.Some? then put.body.value else "undefined")]
      ensures put.Threw? ==>
                requests == old(requests) &&
                log == old(log) + [Sent(Call(PUT, "/api/requests/" + id, map["status" := Str(status)]))]
    {
      log := log + [Sent(Call(PUT, "/api/requests/" + id, map["status" := Str(status)]))];
      if put.Ok() {
        FetchRequests(user, refetch);
      } else if put.Response? {
        log := log + [Alerted(if put.body.Some? then put.body.value else "undefined")];
      }
    }
  }
}
