/** The asset request form (src/components/RequestForm/RequestForm.jsx): the list of
    offered assets, the field shown for the watched request type, the body with its fixed
    `requestType`, and the submit that counts only status 201 as success. */
module RequestFormPage {
  import opened Api
  import AssetFormPage

  datatype Asset = Asset(id: string, name: string, kind: string, status: string)

  /** `data.filter((a) => a.status === "Available")`. */
  function Available(xs: seq<Asset>): (r: seq<Asset>)
    ensures forall a :: a in r <==> a in xs && a.status == "Available"
    ensures |r| <= |xs|
  {
    if xs == [] then []
    else (if xs[0].status == "Available" then [xs[0]] else []) + Available(xs[1..])
  }

  /** The filter keeps the server's order: filtering a concatenation concatenates the filtered parts. */
  lemma {:induction false} AvailableAppend(xs: seq<Asset>, ys: seq<Asset>)
    ensures Available(xs + ys) == Available(xs) + Available(ys)
  {
    if xs == [] {
      assert xs + ys == ys;
    } else {
      assert (xs + ys)[1..] == xs[1..] + ys;
      AvailableAppend(xs[1..], ys);
    }
  }

  /** Filtering twice changes nothing. */
  lemma {:induction false} AvailableIdempotent(xs: seq<Asset>)
    ensures Available(Available(xs)) == Available(xs)
  {
    if xs != [] {
      var head := if xs[0].status == "Available" then [xs[0]] else [];
      AvailableIdempotent(xs[1..]);
      AvailableAppend(head, Available(xs[1..]));
      if xs[0].status == "Available" {
        assert Available(head) == head by { assert head[1..] == []; }
      }
    }
  }

  /** The control shown below the type selector: the required asset selector for
      "Request", a disabled placeholder input for anything else (including no value yet). */
  datatype AssetField = Selector(options: seq<Asset>) | DisabledInput

  function Field(watched: Option<string>, assets: seq<Asset>): (c: AssetField)
    ensures c.Selector? <==> watched == Some("Request")
    ensures c.Selector? ==> c.options == assets
  {
    if watched == Some("Request") then Selector(assets) else DisabledInput
  }

  /** The submitted values: `assetId` is absent when its selector was never shown. */
  datatype RequestForm = RequestForm(requestType: string, assetId: Option<string>, reason: string)

  /** The one rule: a shown asset selector left at its empty first option. */
  function MissingAsset(f: RequestForm): (missing: bool)
    ensures missing <==> f.requestType == "Request" && (f.assetId.None? || f.assetId.value == "")
  {
    f.requestType == "Request" && (f.assetId.None? || f.assetId.value == "")
  }

  /** The body `handleRequest` sends: the requestType is always "Request", whatever was selected;
      an undefined assetId is dropped by JSON.stringify. */
  function Payload(f: RequestForm): (b: Body)
    ensures "requestType" in b && "reason" in b
    ensures b["requestType"] == Str("Request") && b["reason"] == Str(f.reason)
    ensures "assetId" in b <==> f.assetId.Some?
    ensures f.assetId.Some? ==> b["assetId"] == Str(f.assetId.value)
    ensures b.Keys <= {"assetId", "requestType", "reason"}
  {
    var b := map["requestType" := Str("Request"), "reason" := Str(f.reason)];
    if f.assetId.Some? then b["assetId" := Str(f.assetId.value)] else b
  }

  /** Choosing "Return" or "Repair" changes nothing in what is sent. */
  lemma TypeIgnored(f: RequestForm, other: string)
    ensures Payload(f.(requestType := other)) == Payload(f)
  {
  }

  const AssetsCall := Call(GET, "/assets", map[])

  class RequestFormView {
    var assets: seq<Asset>
    var log: seq<Effect>

    constructor ()
      ensures assets == [] && log == []
    {
      assets, log := [], [];
    }

    /** The mount effect: only a 200 reply replaces the (initially empty) list, with the available assets. */
    method LoadAssets(reply: Reply<seq<Asset>>)
      modifies this
      ensures log == old(log) + [Sent(AssetsCall)]
      ensures reply.Resolved? && reply.status == 200 ==> assets == Available(reply.data)
      ensures !(reply.Resolved? && reply.status == 200) ==> assets == old(assets)
      ensures forall a :: a in assets ==> a in old(assets) || a.status == "Available"
    {
      log := log + [Sent(AssetsCall)];
      if reply.Resolved? && reply.status == 200 {
        assets := Available(reply.data);
      }
    }

    /** The POST settles exactly as the asset form's does: only 201 navigates, with the
        same "New Asset  has been Created" dialog, and a rejection alerts the message or " failed". */
    method Submit(f: RequestForm, reply: Reply<()>)
      modifies this`log
      ensures MissingAsset(f) ==> log == old(log)
      ensures !MissingAsset(f) ==> log == old(log) + [Sent(Call(POST, "/requests", Payload(f)))] + AssetFormPage.Outcome(reply)
    {
      if !MissingAsset(f) {
        log := log + [Sent(Call(POST, "/requests", Payload(f)))] + AssetFormPage.Outcome(reply);
      }
    }

    /** Cancel goes back to the dashboard and sends nothing. */
    method Cancel()
      modifies this`log
      ensures log == old(log) + [Navigated("/dashboard")]
      ensures Requests(log) == Requests(old(log))
    {
      RequestsAppend(log, [Navigated("/dashboard")]);
      log := log + [Navigated("/dashboard")];
    }
  }
}
