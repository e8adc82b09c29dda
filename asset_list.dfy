/** The HR asset inventory (src/components/AssetList/AssetList.jsx): the query built from
    the search box and type filter, the list taken from the reply's `assets` field, a
    refetch on every filter change, and confirm-then-delete-then-refetch. */
module AssetListView {
  import opened Api
  import Query

  datatype Product = Product(id: string, productName: string, productType: string, productImage: string,
                             availableQuantity: int, productQuantity: int)

  /** The query for the current filters: `"/api/assets?"`, then `search=<s>&` for a
      non-empty search and `type=<t>&` for a non-empty type, values as typed. */
  function AssetQuery(search: string, filterType: string): string {
    Query.Url("/api/assets", [("search", search), ("type", filterType)])
  }

  lemma QueryShape(search: string, filterType: string, query: string)
    requires query == "/api/assets?" + (if search != "" then "search=" + search + "&" else "") +
                      (if filterType != "" then "type=" + filterType + "&" else "")
    ensures query == AssetQuery(search, filterType)
  {
    Query.AppendTwo(("search", search), ("type", filterType));
  }

  /** What a server reads from the query: exactly the non-empty filters, when neither holds
      an `&` or a `#`. */
  lemma QueryReadsBack(search: string, filterType: string)
    requires '&' !in search && '&' !in filterType
    requires '#' !in search && '#' !in filterType
    ensures Query.Parse(Query.QueryOf(AssetQuery(search, filterType))) ==
            (if search != "" then [("search", search)] else []) + (if filterType != "" then [("type", filterType)] else [])
  {
    var params := [("search", search), ("type", filterType)];
    assert forall p :: p in params ==> Query.Safe(p);
    Query.UrlReadsBack("/api/assets", params);
    assert Query.Present(params[1..][1..]) == [];
  }

  /** With both filters empty the query is the bare `"/api/assets?"`, and only then. */
  lemma BareQuery(search: string, filterType: string)
    ensures AssetQuery(search, filterType) == "/api/assets?" <==> search == "" && filterType == ""
  {
    var params := [("search", search), ("type", filterType)];
    Query.UrlBare("/api/assets", params);
    assert (forall p :: p in params ==> p.1 == "") <==> search == "" && filterType == "";
  }

  /** The values go into the URL unencoded, so a search text `s&type=t` yields the very
      URL of the search `s` with the type filter `t`. */
  lemma SearchCanPoseAsType(search: string, filterType: string)
    requires search != "" && filterType != ""
    ensures AssetQuery(search + "&type=" + filterType, "") == AssetQuery(search, filterType)
  {
    var sep := "&" + "type" + "=";
    assert sep == "&type=";
    assert search + "&" + "type" + "=" + filterType == search + sep + filterType;
    Query.PoseAsSecond("search", search, "type", filterType);
  }

  /** A search starting with `#` begins the URL's fragment, which the browser does not
      send: the server reads an empty search and no type at all. */
  lemma FragmentCutsSearch(search: string, filterType: string)
    requires search != "" && search[0] == '#'
    ensures Query.Parse(Query.QueryOf(AssetQuery(search, filterType))) == [("search", "")]
  {
    assert [("search", search), ("type", filterType)] == [("search", search)] + [("type", filterType)];
    Query.FragmentCutsFirst("/api/assets", "search", search, [("type", filterType)]);
  }

  /** The type badge: warning for "Returnable", ghost for everything else. */
  function Badge(productType: string): (b: string)
    ensures b == "badge-warning" <==> productType == "Returnable"
    ensures b in {"badge-warning", "badge-ghost"}
  {
    if productType == "Returnable" then "badge-warning" else "badge-ghost"
  }

  datatype Body = Rows(products: seq<Product>) | NoAssetsRow(text: string)

  function Table(assets: seq<Product>): (t: Body)
    ensures t.NoAssetsRow? <==> assets == []
    ensures t.NoAssetsRow? ==> t.text == "No assets found."
    ensures t.Rows? ==> t.products == assets
  {
    if assets == [] then NoAssetsRow("No assets found.") else Rows(assets)
  }

  /** One settled `fetch` of the list: the parsed reply's `assets` field, or Threw. */
  type ListReply = Fetched<Option<seq<Product>>>

  class AssetList {
    var assets: seq<Product>
    var search: string
    var filterType: string
    var log: seq<Effect>

    constructor ()
      ensures assets == [] && search == "" && filterType == "" && log == []
    {
      assets, search, filterType, log := [], "", "", [];
    }

    /** `let query = "/api/assets?"` and the two `+=`. */
    method BuildQuery() returns (query: string)
      ensures query == AssetQuery(search, filterType)
    {
      query := "/api/assets?";
      if search != "" {
        query := query + ("search=" + search + "&");
      }
      if filterType != "" {
        query := query + ("type=" + filterType + "&");
      }
      QueryShape(search, filterType, query);
    }

    /** `fetchAssets`: there is no status check, so any parsed reply replaces the list. */
    method FetchAssets(reply: ListReply)
      modifies this`assets, this`log
      ensures log == old(log) + [Sent(Call(GET, AssetQuery(search, filterType), map[]))]
      ensures reply.Response? ==> assets == OrEmpty(reply.body)
      ensures reply.Threw? ==> assets == old(assets)
    {
      var query := BuildQuery();
      log := log + [Sent(Call(GET, query, map[]))];
      if reply.Response? {
        assets := OrEmpty(reply.body);
      }
    }

    /** The effect on `[search, filterType]` runs on mount. */
    method Mount(reply: ListReply)
      modifies this`assets, this`log
      ensures log == old(log) + [Sent(Call(GET, AssetQuery(search, filterType), map[]))]
      ensures reply.Response? ==> assets == OrEmpty(reply.body)
      ensures reply.Threw? ==> assets == old(assets)
    {
      FetchAssets(reply);
    }

    /** Typing in the search box: a changed value refetches with the new query. */
    method ChangeSearch(v: string, reply: ListReply)
      modifies this`search, this`assets, this`log
      ensures search == v && filterType == old(filterType)
      ensures v == old(search) ==> log == old(log) && assets == old(assets)
      ensures v != old(search) ==> log == old(log) + [Sent(Call(GET, AssetQuery(v, filterType), map[]))]
      ensures v != old(search) && reply.Response? ==> assets == OrEmpty(reply.body)
      ensures v != old(search) && reply.Threw? ==> assets == old(assets)
    {
      var changed := v != search;
      search := v;
      if changed {
        FetchAssets(reply);
      }
    }

    /** Picking a type in the select: a changed value refetches with the new query. */
    method ChangeType(v: string, reply: ListReply)
      modifies this`filterType, this`assets, this`log
      ensures filterType == v && search == old(search)
      ensures v == old(filterType) ==> log == old(log) && assets == old(assets)
      ensures v != old(filterType) ==> log == old(log) + [Sent(Call(GET, AssetQuery(search, v), map[]))]
      ensures v != old(filterType) && reply.Response? ==> assets == OrEmpty(reply.body)
      ensures v != old(filterType) && reply.Threw? ==> assets == old(assets)
    {
      var changed := v != filterType;
      filterType := v;
      if changed {
        FetchAssets(reply);
      }
    }

    /** `handleDelete`: without confirmation nothing is sent; a confirmed DELETE refetches
        only when its response is ok. */
    method HandleDelete(id: string, confirmed: bool, deleted: Fetched<()>, refetch: ListReply)
      modifies this`assets, this`log
      ensures !confirmed ==> log == old(log) && assets == old(assets)
      ensures confirmed && !deleted.Ok() ==>
                log == old(log) + [Sent(Call(DELETE, "/api/assets/" + id, map[]))] && assets == old(assets)
      ensures confirmed && deleted.Ok() ==>
                log == old(log) + [Sent(Call(DELETE, "/api/assets/" + id, map[])),
                                   Sent(Call(GET, AssetQuery(search, filterType), map[]))]
      ensures confirmed && deleted.Ok() && refetch.Response? ==> assets == OrEmpty(refetch.body)
      ensures confirmed && deleted.Ok() && refetch.Threw? ==> assets == old(assets)
    {
      if confirmed {
        log := log + [Sent(Call(DELETE, "/api/assets/" + id, map[]))];
        if deleted.Ok() {
          FetchAssets(refetch);
        }
      }
    }
  }
}
