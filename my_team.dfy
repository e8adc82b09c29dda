/** The employee's team page (src/pages/MyTeam/MyTeam.jsx): the affiliated companies are
    fetched first, the first one is selected, and each change of the selected company
    fetches that company's team. */
module MyTeamView {
  import opened Api

  datatype Company = Company(hrId: string, companyName: string)
  datatype Member = Member(id: string, employeeName: string, employeeEmail: string)

  /** The parsed reply of `/api/employees/team-list`, by its `type` field. */
  datatype Listing = Companies(companies: seq<Company>) | Team(members: seq<Member>) | Other

  const CompaniesCall := Call(GET, "/api/employees/team-list", map[])

  function TeamCall(hrId: string): (c: Call)
    ensures c.verb == GET && c.path == "/api/employees/team-list?hrId=" + hrId
  {
    Call(GET, "/api/employees/team-list?hrId=" + hrId, map[])
  }

  /** The company selected after the companies reply: the first one's hrId when the reply
      lists at least one, otherwise the previous selection. */
  function DefaultSelection(before: string, reply: Fetched<Listing>): (id: string)
    ensures reply.Response? && reply.body.Companies? && |reply.body.companies| > 0 ==> id == reply.body.companies[0].hrId
    ensures !(reply.Response? && reply.body.Companies? && |reply.body.companies| > 0) ==> id == before
  {
    if reply.Response? && reply.body.Companies? && |reply.body.companies| > 0 then reply.body.companies[0].hrId else before
  }

  datatype Screen =
    | Spinner
    | NotAffiliated
    | Page(selector: Option<seq<Company>>, companyName: Option<string>, members: seq<Member>)

  /** The spinner while loading; the "not affiliated" view with no company; a selector only
      for several companies, and the one company's name when there is exactly one. */
  function Render(loading: bool, companies: seq<Company>, teamData: seq<Member>): (s: Screen)
    ensures s.Spinner? <==> loading
    ensures s.NotAffiliated? <==> !loading && companies == []
    ensures s.Page? ==> s.members == teamData
    ensures s.Page? ==> (s.selector.Some? <==> |companies| > 1)
    ensures s.Page? ==> (s.companyName.Some? <==> |companies| == 1)
    ensures s.Page? && |companies| == 1 ==> s.companyName == Some(companies[0].companyName)
    ensures s.Page? && s.selector.Some? ==> s.selector.value == companies
  {
    if loading then Spinner
    else if companies == [] then NotAffiliated
    else Page(if |companies| > 1 then Some(companies) else None,
              if |companies| == 1 then Some(companies[0].companyName) else None,
              teamData)
  }

  class MyTeam {
    var teamData: seq<Member>
    var companies: seq<Company>
    var selectedCompanyId: string
    var loading: bool
    var log: seq<Effect>

    constructor ()
      ensures teamData == [] && companies == [] && selectedCompanyId == "" && loading && log == []
    {
      teamData, companies, selectedCompanyId, loading, log := [], [], "", true, [];
    }

    /** The first effect: companies are taken only from a reply of type "companies";
        `finally` lowers `loading` whatever the outcome. */
    method FetchCompanies(reply: Fetched<Listing>)
      modifies this`companies, this`selectedCompanyId, this`loading, this`log
      ensures log == old(log) + [Sent(CompaniesCall)]
      ensures reply.Response? && reply.body.Companies? ==> companies == reply.body.companies
      ensures !(reply.Response? && reply.body.Companies?) ==> companies == old(companies)
      ensures selectedCompanyId == DefaultSelection(old(selectedCompanyId), reply)
      ensures !loading
    {
      log := log + [Sent(CompaniesCall)];
      if reply.Response? && reply.body.Companies? {
        companies := reply.body.companies;
        if |reply.body.companies| > 0 {
          selectedCompanyId := reply.body.companies[0].hrId;
        }
      }
      loading := false;
    }

    /** The second effect: nothing without a selection; teamData is taken only from a reply of type "team". */
    method FetchTeam(reply: Fetched<Listing>)
      modifies this`teamData, this`log
      ensures selectedCompanyId == "" ==> log == old(log) && teamData == old(teamData)
      ensures selectedCompanyId != "" ==> log == old(log) + [Sent(TeamCall(selectedCompanyId))]
      ensures selectedCompanyId != "" && reply.Response? && reply.body.Team? ==> teamData == reply.body.members
      ensures !(selectedCompanyId != "" && reply.Response? && reply.body.Team?) ==> teamData == old(teamData)
    {
      if selectedCompanyId == "" {
        return;
      }
      log := log + [Sent(TeamCall(selectedCompanyId))];
      if reply.Response? && reply.body.Team? {
        teamData := reply.body.members;
      }
    }

    /** Mounting: the team effect first runs with the empty selection and does nothing; the
        companies reply may then select a company, which runs the team effect again. */
    method Mount(companiesReply: Fetched<Listing>, teamReply: Fetched<Listing>)
      requires selectedCompanyId == "" && loading
      modifies this
      ensures !loading
      ensures selectedCompanyId == DefaultSelection("", companiesReply)
      ensures selectedCompanyId == "" ==> log == old(log) + [Sent(CompaniesCall)] && teamData == old(teamData)
      ensures selectedCompanyId != "" ==> log == old(log) + [Sent(CompaniesCall), Sent(TeamCall(selectedCompanyId))]
      ensures selectedCompanyId != "" && teamReply.Response? && teamReply.body.Team? ==> teamData == teamReply.body.members
      ensures !(teamReply.Response? && teamReply.body.Team?) ==> teamData == old(teamData)
      ensures companiesReply.Response? && companiesReply.body.Companies? ==> companies == companiesReply.body.companies
      ensures !(companiesReply.Response? && companiesReply.body.Companies?) ==> companies == old(companies)
    {
      FetchTeam(teamReply);
      FetchCompanies(companiesReply);
      if selectedCompanyId != "" {
        FetchTeam(teamReply);
      }
    }

    /** Picking another company in the selector fetches its team. */
    method HandleCompanyChange(v: string, reply: Fetched<Listing>)
      modifies this`selectedCompanyId, this`teamData, this`log
      ensures selectedCompanyId == v
      ensures v == old(selectedCompanyId) || v == "" ==> log == old(log) && teamData == old(teamData)
      ensures v != old(selectedCompanyId) && v != "" ==> log == old(log) + [Sent(TeamCall(v))]
      ensures v != old(selectedCompanyId) && v != "" && reply.Response? && reply.body.Team? ==> teamData == reply.body.members
      ensures !(v != "" && reply.Response? && reply.body.Team?) ==> teamData == old(teamData)
    {
      var changed := v != selectedCompanyId;
      selectedCompanyId := v;
      if changed {
        FetchTeam(reply);
      }
    }
  }
}
