/** The add-asset form (src/components/AssetForm/AssetForm.jsx): required fields, the body
    with the quantity read by `parseInt`, and a submit that counts only status 201 as
    success. */
module AssetFormPage {
  import opened Api
  import JsNumber
  import Query

  /** The select's two options; the first is preselected, so a value is always present. */
  datatype ProductType = Returnable | NonReturnable {
    function Name(): (s: string)
      ensures s in {"Returnable", "Non-returnable"}
    {
      if Returnable? then "Returnable" else "Non-returnable"
    }
  }

  /** The registered fields, as the inputs hold them; a number input holds "" when empty or invalid. */
  datatype AssetForm = AssetForm(productName: string, productImage: string,
                                 productType: ProductType, productQuantity: string)

  /** The fields registered with `{ required: true }` that are empty; productType has no rule. */
  function MissingFields(f: AssetForm): (missing: set<string>)
    ensures missing <= {"productName", "productImage", "productQuantity"}
    ensures "productName" in missing <==> f.productName == ""
    ensures "productImage" in missing <==> f.productImage == ""
    ensures "productQuantity" in missing <==> f.productQuantity == ""
  {
    (if f.productName == "" then {"productName"} else {}) +
    (if f.productImage == "" then {"productImage"} else {}) +
    (if f.productQuantity == "" then {"productQuantity"} else {})
  }

  /** `parseInt(data.productQuantity)` as JSON carries it: NaN becomes null. */
  function Quantity(input: string): (v: Value)
    ensures v.Num? <==> JsNumber.ParseInt(input).Some?
    ensures v.Num? ==> v.n == JsNumber.ParseInt(input).value
    ensures v.Num? || v.Null?
  {
    match JsNumber.ParseInt(input)
    case Some(n) => Num(n)
    case None => Null
  }

  /** The body `handleAsset` sends. */
  function Payload(f: AssetForm): (b: Body)
    ensures b.Keys == {"productName", "productType", "productQuantity", "productImage"}
    ensures b["productName"] == Str(f.productName) && b["productImage"] == Str(f.productImage)
    ensures b["productType"] in {Str("Returnable"), Str("Non-returnable")}
    ensures b["productQuantity"] == Quantity(f.productQuantity)
  {
    map["productName" := Str(f.productName), "productType" := Str(f.productType.Name()),
        "productQuantity" := Quantity(f.productQuantity), "productImage" := Str(f.productImage)]
  }

  /** A whole number typed into the quantity field is sent as that number. */
  lemma QuantityOfNumeral(n: int)
    ensures Quantity(JsNumber.Numeral(n)) == Num(n)
  {
    JsNumber.ParseBareNumeral(n, "");
    assert JsNumber.Numeral(n) + "" == JsNumber.Numeral(n);
  }

  /** A fractional quantity is cut at the decimal point, toward zero for either sign. */
  lemma QuantityDropsFraction(n: int, fraction: string)
    ensures Quantity(JsNumber.Numeral(n) + "." + fraction) == Num(n)
  {
    var numeral, tail := JsNumber.Numeral(n), "." + fraction;
    assert tail[0] == '.';
    JsNumber.ParseBareNumeral(n, tail);
    Query.Associate(numeral, ".", fraction);
  }

  const AssetsCall := Call(POST, "/assets", map[])
  const CreatedTitle := "New Asset  has been Created"

  /** What `handleAsset` shows once the POST settles: only 201 counts as success; another
      resolved status shows nothing; a rejection alerts the server's message or " failed". */
  function Outcome(reply: Reply<()>): (effects: seq<Effect>)
    ensures Navigated("/dashboard") in effects <==> reply.Resolved? && reply.status == 201
    ensures reply.Resolved? && reply.status == 201 ==> effects == [Popup("success", CreatedTitle, ""), Navigated("/dashboard")]
    ensures reply.Resolved? && reply.status != 201 ==> effects == []
    ensures reply.Rejected? ==> effects == [Alerted(OrElse(reply.error.message, " failed"))]
  {
    match reply
    case Resolved(status, _) => if status == 201 then [Popup("success", CreatedTitle, ""), Navigated("/dashboard")] else []
    case Rejected(error) => [Alerted(OrElse(error.message, " failed"))]
  }

  class AssetFormView {
    var log: seq<Effect>

    constructor ()
      ensures log == []
    {
      log := [];
    }

    /** `handleSubmit(handleAsset)`: nothing is sent while a required field is empty. */
    method Submit(f: AssetForm, reply: Reply<()>)
      modifies this
      ensures MissingFields(f) != {} ==> log == old(log)
      ensures MissingFields(f) == {} ==> log == old(log) + [Sent(Call(POST, "/assets", Payload(f)))] + Outcome(reply)
    {
      if MissingFields(f) == {} {
        log := log + [Sent(Call(POST, "/assets", Payload(f)))];
        log := log + Outcome(reply);
      }
    }
  }
}
