/** The employee's assigned assets (src/pages/MyAssets/MyAssets.jsx): the same `+=` query
    on `/api/assigned-assets`, the whole reply body as the list, and a `loading` flag that
    only ever goes from true to false. */
module MyAssetsView {
  import opened Api
  import Query

  datatype Assigned = Assigned(id: string, assetName: string, assetImage: Option<string>, assetType: string,
                               companyName: string)

  function AssignedQuery(search: string, filterType: string): string {
    Query.Url("/api/assigned-assets", [("search", search), ("type", filterType)])
  }

  lemma QueryShape(search: string, filterType: string, query: string)
    requires query == "/api/assigned-assets?" + (if search != "" then "search=" + search + "&" else "") +
                      (if filterType != "" then "type=" + filterType + "&" else "")
    ensures query == AssignedQuery(search, filterType)
  {
    Query.AppendTwo(("search", search), ("type", filterType));
  }

  /** The server reads exactly the non-empty filters, search before type, when neither
      holds an `&` or a `#`. */
  lemma QueryReadsBack(search: string, filterType: string)
    requires '&' !in search && '&' !in filterType
    requires '#' !in search && '#' !in filterType
    ensures Query.Parse(Query.QueryOf(AssignedQuery(search, filterType))) ==
            (if search != "" then [("search", search)] else []) + (if filterType != "" then [("type", filterType)] else [])
  {
    var params := [("search", search), ("type", filterType)];
    assert forall p :: p in params ==> Query.Safe(p);
    Query.UrlReadsBack("/api/assigned-assets", params);
    assert Query.Present(params[1..][1..]) == [];
  }

  /** The action cell: a Return button, always disabled, only for a returnable asset. */
  datatype Action = ReturnButton(disabled: bool) | NoAction

  function RowAction(a: Assigned): (act: Action)
    ensures act.ReturnButton? <==> a.assetType == "Returnable"
    ensures act.ReturnButton? ==> act.disabled
  {
    if a.assetType == "Returnable" then ReturnButton(true) else NoAction
  }

  function RowImage(a: Assigned): (src: string)
    ensures a.assetImage.Some? && a.assetImage.value != "" ==> src == a.assetImage.value
    ensures a.assetImage.None? || a.assetImage.value == "" ==> src == "https://via.placeholder.com/150"
  {
    OrElse(a.assetImage, "https://via.placeholder.com/150")
  }

  datatype Screen = Spinner | Rows(assets: seq<Assigned>) | NoAssetsRow(text: string)

  function Render(loading: bool, assets: seq<Assigned>): (s: Screen)
    ensures s.Spinner? <==> loading
    ensures s.NoAssetsRow? <==> !loading && assets == []
    ensures s.NoAssetsRow? ==> s.text == "No assets assigned yet."
    ensures s.Rows? ==> s.assets == assets
  {
    if loading then Spinner else if assets == [] then NoAssetsRow("No assets assigned yet.") else Rows(assets)
  }

  type ListReply = Fetched<Option<seq<Assigned>>>

  class MyAssets {
    var assets: seq<Assigned>
    var search: string
    var filterType: string
    var loading: bool
    var log: seq<Effect>

    constructor ()
      ensures assets == [] && search == "" && filterType == "" && loading && log == []
    {
      assets, search, filterType, loading, log := [], "", "", true, [];
    }

    method BuildQuery() returns (query: string)
      ensures query == AssignedQuery(search, filterType)
    {
      query := "/api/assigned-assets?";
      if search != "" {
        query := query + ("search=" + search + "&");
      }
      if filterType != "" {
        query := query + ("type=" + filterType + "&");
      }
      QueryShape(search, filterType, query);
    }

    /** `fetchAssets`: any parsed reply replaces the list; `finally` lowers `loading` whatever happens. */
    method FetchAssets(reply: ListReply)
      modifies this`assets, this`loading, this`log
      ensures log == old(log) + [Sent(Call(GET, AssignedQuery(search, filterType), map[]))]
      ensures reply.Response? ==> assets == OrEmpty(reply.body)
      ensures reply.Threw? ==> assets == old(assets)
      ensures !loading
    {
      var query := BuildQuery();
      log := log + [Sent(Call(GET, query, map[]))];
      if reply.Response? {
        assets := OrEmpty(reply.body);
      }
      loading := false;
    }

    /** A changed filter refetches; later fetches never show the spinner again. */
    method ChangeSearch(v: string, reply: ListReply)
      modifies this`search, this`assets, this`loading, this`log
      ensures search == v && filterType == old(filterType)
      ensures !old(loading) ==> !loading
      ensures v == old(search) ==> log == old(log) && assets == old(assets) && loading == old(loading)
      ensures v != old(search) ==> log == old(log) + [Sent(Call(GET, AssignedQuery(v, filterType), map[]))] && !loading
      ensures v != old(search) && reply.Response? ==> assets == OrEmpty(reply.body)
      ensures v != old(search) && reply.Threw? ==> assets == old(assets)
    {
      var changed := v != search;
      search := v;
      if changed {
        FetchAssets(reply);
      }
    }

    method ChangeType(v: string, reply: ListReply)
      modifies this`filterType, this`assets, this`loading, this`log
      ensures filterType == v && search == old(search)
      ensures !old(loading) ==> !loading
      ensures v == old(filterType) ==> log == old(log) && assets == old(assets) && loading == old(loading)
      ensures v != old(filterType) ==> log == old(log) + [Sent(Call(GET, AssignedQuery(search, v), map[]))] && !loading
      ensures v != old(filterType) && reply.Response? ==> assets == OrEmpty(reply.body)
      ensures v != old(filterType) && reply.Threw? ==> assets == old(assets)
    {
      var changed := v != filterType;
      filterType := v;
      if changed {
        FetchAssets(reply);
      }
    }
  }
}
