/** The pricing section (src/pages/Home/Packages/Packages.jsx): the server's packages when
    it returns any, the three built-in tiers otherwise and on error, and a border colour
    cycling with the card index. */
module PackagesSection {
  import opened Api

  datatype Package = Package(name: string, price: int, employeeLimit: int, features: seq<string>)

  const Defaults := [
    Package("Basic", 5, 5, ["Up to 5 Employees", "Basic Support", "Asset Tracking"]),
    Package("Standard", 8, 10, ["Up to 10 Employees", "Priority Support", "Basic Analytics"]),
    Package("Premium", 15, 20, ["Up to 20 Employees", "Full Support", "Advanced Analytics"])
  ]

  /** The list shown after `GET /packages`: `res.data` when it is a non-empty list, the
      defaults for a missing or empty one and when the call fails. */
  function Resolve(reply: Reply<Option<seq<Package>>>): (packages: seq<Package>)
    ensures reply.Resolved? && reply.data.Some? && |reply.data.value| > 0 ==> packages == reply.data.value
    ensures !(reply.Resolved? && reply.data.Some? && |reply.data.value| > 0) ==> packages == Defaults
    ensures |packages| > 0
  {
    if reply.Resolved? && reply.data.Some? && |reply.data.value| > 0 then reply.data.value else Defaults
  }

  /** The tiers are ordered by price and by employee limit, and each one lists three features. */
  lemma DefaultsOrdered()
    ensures forall i, j :: 0 <= i < j < |Defaults| ==> Defaults[i].price < Defaults[j].price
    ensures forall i, j :: 0 <= i < j < |Defaults| ==> Defaults[i].employeeLimit < Defaults[j].employeeLimit
    ensures forall i :: 0 <= i < |Defaults| ==> |Defaults[i].features| == 3
  {
  }

  const Colors := ["border-primary", "border-secondary", "border-accent"]

  /** `colors[index % colors.length]` */
  function GetColor(index: nat): (c: string)
    ensures c == Colors[index % 3]
    ensures c in Colors
  {
    Colors[index % |Colors|]
  }

  /** The colours repeat every three cards, and neighbouring cards never share one. */
  lemma ColorsCycle(index: nat)
    ensures GetColor(index + 3) == GetColor(index)
    ensures GetColor(index + 1) != GetColor(index)
  {
    assert (index + 3) % 3 == index % 3;
    assert (index + 1) % 3 == (index % 3 + 1) % 3;
  }

  class Packages {
    var packages: seq<Package>

    constructor ()
      ensures packages == []
    {
      packages := [];
    }

    method FetchPackages(reply: Reply<Option<seq<Package>>>)
      modifies this
      ensures packages == Resolve(reply)
    {
      if reply.Resolved? && reply.data.Some? && |reply.data.value| > 0 {
        packages := reply.data.value;
      } else {
        packages := Defaults;
      }
    }
  }
}
