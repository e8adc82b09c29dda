/** The employee's asset catalogue (src/pages/RequestAsset/RequestAsset.jsx): a search-only
    query, per-card request buttons, and a modal holding the selected asset and a note. */
module RequestAssetView {
  import opened Api
  import Query

  /** `availableQuantity` as the reply may carry it: a number, null, or no field at all. */
  datatype Stock = Count(n: int) | NullCount | Missing

  datatype Product = Product(id: string, productName: string, productImage: Option<string>,
                             companyName: string, productType: string, availableQuantity: Stock)

  function SearchQuery(search: string): string {
    Query.Url("/api/assets", [("search", search)])
  }

  /** The server reads exactly the search, or nothing for an empty one, when it holds
      neither `&` nor `#`. */
  lemma QueryReadsBack(search: string)
    requires '&' !in search && '#' !in search
    ensures Query.Parse(Query.QueryOf(SearchQuery(search))) == (if search != "" then [("search", search)] else [])
  {
    var params := [("search", search)];
    assert forall p :: p in params ==> Query.Safe(p);
    Query.UrlReadsBack("/api/assets", params);
    assert Query.Present(params[1..]) == [];
  }

  /** The card's button: `disabled={q <= 0}` and the label `q > 0 ? "Request" : "Out of Stock"`,
      with JavaScript's comparisons (null compares as 0, undefined compares false both ways). */
  datatype Button = Button(disabled: bool, caption: string)

  function RequestButton(q: Stock): (b: Button)
    ensures b.disabled <==> (q.Count? && q.n <= 0) || q.NullCount?
    ensures b.caption == "Request" <==> q.Count? && q.n > 0
    ensures b.caption in {"Request", "Out of Stock"}
  {
    match q
    case Count(n) => Button(n <= 0, if n > 0 then "Request" else "Out of Stock")
    case NullCount => Button(true, "Out of Stock")
    case Missing => Button(false, "Out of Stock")
  }

  /** For a numeric or null quantity the button is enabled exactly when it reads "Request";
      a card without the field offers an enabled "Out of Stock" button. */
  lemma ButtonAgreesWithCaption(q: Stock)
    ensures !q.Missing? ==> (!RequestButton(q).disabled <==> RequestButton(q).caption == "Request")
    ensures q.Missing? ==> !RequestButton(q).disabled && RequestButton(q).caption == "Out of Stock"
  {
  }

  /** The POST body: the selected asset's id, the fixed type "Request" and the note. */
  function RequestBody(selected: Product, note: string): (b: Body)
    ensures b.Keys == {"assetId", "requestType", "note"}
    ensures b["assetId"] == Str(selected.id) && b["requestType"] == Str("Request") && b["note"] == Str(note)
  {
    map["assetId" := Str(selected.id), "requestType" := Str("Request"), "note" := Str(note)]
  }

  /** `alert(data.message)` shows "undefined" when the reply has no message. */
  function AlertText(message: Option<string>): (t: string)
    ensures message.Some? ==> t == message.value
    ensures message.None? ==> t == "undefined"
  {
    if message.Some? then message.value else "undefined"
  }

  type ListReply = Fetched<Option<seq<Product>>>

  class RequestAsset {
    var assets: seq<Product>
    var search: string
    var loading: bool
    var modalOpen: bool
    var selected: Option<Product>
    var note: string
    var log: seq<Effect>

    /** The modal is open only with an asset selected. */
    predicate Valid()
      reads this
    {
      modalOpen ==> selected.Some?
    }

    constructor ()
      ensures Valid()
      ensures assets == [] && search == "" && loading && !modalOpen && selected.None? && note == "" && log == []
    {
      assets, search, loading, modalOpen, selected, note, log := [], "", true, false, None, "", [];
    }

    method BuildQuery() returns (query: string)
      ensures query == SearchQuery(search)
    {
      query := "/api/assets?";
      if search != "" {
        query := query + ("search=" + search + "&");
      }
      Query.AppendOne(("search", search));
    }

    method FetchAssets(reply: ListReply)
      modifies this`assets, this`loading, this`log
      ensures log == old(log) + [Sent(Call(GET, SearchQuery(search), map[]))]
      ensures reply.Response? ==> assets == OrEmpty(reply.body)
      ensures reply.Threw? ==> assets == old(assets)
      ensures !loading
    {
      var query := BuildQuery();
      log := log + [Sent(Call(GET, query, map[]))];
      if reply.Response? {
        assets := OrEmpty(reply.body);
      }
      loading := false;
    }

    /** The effect on `[search]`: a changed search refetches. */
    method ChangeSearch(v: string, reply: ListReply)
      modifies this`search, this`assets, this`loading, this`log
      ensures search == v
      ensures v == old(search) ==> log == old(log) && assets == old(assets) && loading == old(loading)
      ensures v != old(search) ==> log == old(log) + [Sent(Call(GET, SearchQuery(v), map[]))] && !loading
      ensures v != old(search) && reply.Response? ==> assets == OrEmpty(reply.body)
      ensures v != old(search) && reply.Threw? ==> assets == old(assets)
    {
      var changed := v != search;
      search := v;
      if changed {
        FetchAssets(reply);
      }
    }

    /** A click on an enabled Request button. */
    method OpenRequestModal(asset: Product)
      requires !RequestButton(asset.availableQuantity).disabled
      modifies this`selected, this`modalOpen
      ensures Valid()
      ensures selected == Some(asset) && modalOpen
    {
      selected := Some(asset);
      modalOpen := true;
    }

    method EditNote(v: string)
      modifies this`note
      ensures note == v
    {
      note := v;
    }

    /** Cancel keeps the note and the selection for the next opening. */
    method Cancel()
      modifies this`modalOpen
      ensures Valid()
      ensures !modalOpen
    {
      modalOpen := false;
    }

    /** Submit Request (the button exists only in the open modal). The JSON is parsed
        before the status is looked at; an ok reply closes the modal and clears the note,
        any other reply alerts its message and leaves the modal as it was. */
    method HandleRequest(reply: Fetched<Option<string>>)
      requires Valid() && modalOpen
      modifies this`modalOpen, this`note, this`log
      ensures Valid()
      ensures reply.Ok() ==>
                !modalOpen && note == "" &&
                log == old(log) + [Sent(Call(POST, "/api/requests", RequestBody(selected.value, old(note)))),
                                   Alerted("Request sent successfully!")]
      ensures reply.Response? && !reply.Ok() ==>
                modalOpen && note == old(note) &&
                log == old(log) + [Sent(Call(POST, "/api/requests", RequestBody(selected.value, old(note)))),
                                   Alerted(AlertText(reply.body))]
      ensures reply.Threw? ==>
                modalOpen && note == old(note) &&
                log == old(log) + [Sent(Call(POST, "/api/requests", RequestBody(selected.value, old(note))))]
    {
      log := log + [Sent(Call(POST, "/api/requests", RequestBody(selected.value, note)))];
      if reply.Ok() {
        log := log + [Alerted("Request sent successfully!")];
        modalOpen := false;
        note := "";
      } else if reply.Response? {
        log := log + [Alerted(AlertText(reply.body))];
      }
    }
  }
}
