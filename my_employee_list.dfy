/** The HR manager's team list (src/pages/MyEmployeeList/MyEmployeeList.jsx): one fetch on
    mount, and confirm-then-remove-then-refetch. */
module MyEmployeesView {
  import opened Api

  datatype Employee = Employee(id: string, employeeName: string, employeeEmail: string)

  const TeamCall := Call(GET, "/api/employees/my-team", map[])

  function RemoveCall(id: string): (c: Call)
    ensures c.verb == DELETE && c.path == "/api/employees/" + id
  {
    Call(DELETE, "/api/employees/" + id, map[])
  }

  datatype Screen = Spinner | Page(cards: seq<Employee>, emptyNotice: bool)

  /** The spinner while loading; afterwards the cards, with the "No employees in your team
      yet." block exactly when there are none. */
  function Render(loading: bool, employees: seq<Employee>): (s: Screen)
    ensures s.Spinner? <==> loading
    ensures s.Page? ==> s.cards == employees && (s.emptyNotice <==> employees == [])
  {
    if loading then Spinner else Page(employees, employees == [])
  }

  class MyEmployeeList {
    var employees: seq<Employee>
    var loading: bool
    var log: seq<Effect>

    constructor ()
      ensures employees == [] && loading && log == []
    {
      employees, loading, log := [], true, [];
    }

    /** `fetchEmployees`: the parsed body replaces the list whatever the status; `finally`
        lowers `loading`. */
    method FetchEmployees(reply: Fetched<seq<Employee>>)
      modifies this`employees, this`loading, this`log
      ensures log == old(log) + [Sent(TeamCall)]
      ensures reply.Response? ==> employees == reply.body
      ensures reply.Threw? ==> employees == old(employees)
      ensures !loading
    {
      log := log + [Sent(TeamCall)];
      if reply.Response? {
        employees := reply.body;
      }
      loading := false;
    }

    /** `handleRemove`: nothing without confirmation; an ok DELETE refetches, another
        status alerts, a thrown error is only logged to the console. */
    method HandleRemove(id: string, confirmed: bool, removed: Fetched<()>, refetch: Fetched<seq<Employee>>)
      modifies this`employees, this`loading, this`log
      ensures !confirmed ==> log == old(log) && employees == old(employees) && loading == old(loading)
      ensures confirmed && removed.Ok() ==> log == old(log) + [Sent(RemoveCall(id)), Sent(TeamCall)] && !loading
      ensures confirmed && removed.Ok() && refetch.Response? ==> employees == refetch.body
      ensures confirmed && removed.Ok() && refetch.Threw? ==> employees == old(employees)
      ensures confirmed && removed.Response? && !removed.Ok() ==>
                log == old(log) + [Sent(RemoveCall(id)), Alerted("Failed to remove employee")] &&
                employees == old(employees)
      ensures confirmed && removed.Threw? ==> log == old(log) + [Sent(RemoveCall(id))] && employees == old(employees)
      ensures confirmed && !removed.Ok() ==> loading == old(loading)
    {
      if confirmed {
        log := log + [Sent(RemoveCall(id))];
        if removed.Ok() {
          FetchEmployees(refetch);
        } else if removed.Response? {
          log := log + [Alerted("Failed to remove employee")];
        }
      }
    }
  }
}
