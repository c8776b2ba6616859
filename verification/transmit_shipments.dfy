/** The request document of `TransmitShipments` (canada_post/service/contract_shipping.py):
    a `transmit-set` naming the groups to put in a manifest, the shipping
    point, the kind of manifest, the sender's manifest address and the
    shipments to leave out. Nothing in it is checked, so it always succeeds. */
module Transmit {
  import opened Common
  import opened Xml
  import opened Address

  const ManifestNamespace := "http://www.canadapost.ca/ws/manifest-v7"

  /** One element `tag` per id, in order, each holding `unicode(id)`. */
  function IdLeaves(tag: string, ids: seq<string>): (r: seq<Node>)
    ensures |r| == |ids|
    decreases |ids|
  {
    if ids == [] then []
    else IdLeaves(tag, ids[..|ids| - 1]) + [Leaf(tag, Some(ids[|ids| - 1]))]
  }

  /** The `address-details` of the manifest address, where `prov-state` is
      always present. */
  function ManifestDetails(origin: Address): seq<Node> {
    [Leaf("address-line-1", origin.address1)] + [Leaf("address-line-2", origin.address2)]
    + [Leaf("city", origin.city)] + [Leaf("prov-state", origin.province)]
    + [Leaf("postal-zip-code", Some(origin.postalCode))]
  }

  /** `manifest-address`: the company, the manifest name when truthy, the
      phone as `unicode()` writes it, and the address details. */
  function ManifestAddress(origin: Address, name: Option<string>): Node {
    Element("manifest-address",
            [Leaf("manifest-company", origin.company)] + Optional("manifest-name", name)
            + [Leaf("phone-number", Some(Unicode(origin.phone)))]
            + [Element("address-details", ManifestDetails(origin))])
  }

  /** `excluded-shipments`, present only for a non-empty list. */
  function ExcludedPart(excluded: seq<string>): seq<Node> {
    if excluded == [] then [] else [Element("excluded-shipments", IdLeaves("shipment-id", excluded))]
  }

  /** The children of `transmit-set` before the excluded shipments. */
  function TransmitHead(origin: Address, groupIds: seq<string>, name: Option<string>, detailed: bool): seq<Node> {
    [Element("group-ids", IdLeaves("group-id", groupIds))]
    + [Leaf("requested-shipping-point", Some(origin.postalCode))]
    + [Leaf("detailed-manifests", Some(if detailed then "true" else "false"))]
    + [Leaf("method-of-payment", Some("Account"))]
    + [ManifestAddress(origin, name)]
  }

  /** The document `TransmitShipments.__call__` sends. */
  function TransmitXml(origin: Address, groupIds: seq<string>, name: Option<string>, detailed: bool,
                       excluded: seq<string>): Node {
    Node("transmit-set", None, map["xmlns" := ManifestNamespace],
         TransmitHead(origin, groupIds, name, detailed) + ExcludedPart(excluded))
  }

  // ---------------------------------------------------------------------
  // The builder

  /** One element per id, appended in a loop as `for group_id in group_ids`
      and `for shipment in excluded_shipments` do. */
  method AppendIds(tag: string, ids: seq<string>) returns (r: seq<Node>)
    ensures r == IdLeaves(tag, ids)
  {
    r := [];
    for i := 0 to |ids|
      invariant r == IdLeaves(tag, ids[..i])
    {
      assert ids[..i + 1][..i] == ids[..i];
      r := r + [Leaf(tag, Some(ids[i]))];
    }
    assert ids[..|ids|] == ids;
  }

  /** Lines 365-399: the root and its children, appended in source order. */
  method BuildTransmit(origin: Address, groupIds: seq<string>, name: Option<string>, detailed: bool,
                       excluded: seq<string>) returns (r: Node)
    ensures r == TransmitXml(origin, groupIds, name, detailed, excluded)
  {
    var groups := AppendIds("group-id", groupIds);
    var children := [Element("group-ids", groups)];
    children := children + [Leaf("requested-shipping-point", Some(origin.postalCode))];
    children := children + [Leaf("detailed-manifests", Some(if detailed then "true" else "false"))];
    children := children + [Leaf("method-of-payment", Some("Account"))];
    var address := [Leaf("manifest-company", origin.company)];
    if Truthy(name) {
      address := address + [Leaf("manifest-name", name)];
    }
    assert address == [Leaf("manifest-company", origin.company)] + Optional("manifest-name", name);
    address := address + [Leaf("phone-number", Some(Unicode(origin.phone)))];
    var details := [Leaf("address-line-1", origin.address1)];
    details := details + [Leaf("address-line-2", origin.address2)];
    details := details + [Leaf("city", origin.city)];
    details := details + [Leaf("prov-state", origin.province)];
    details := details + [Leaf("postal-zip-code", Some(origin.postalCode))];
    address := address + [Element("address-details", details)];
    children := children + [Element("manifest-address", address)];
    ghost var head := children;
    if excluded != [] {
      var shipments := AppendIds("shipment-id", excluded);
      children := children + [Element("excluded-shipments", shipments)];
    }
    assert children == head + ExcludedPart(excluded);
    r := Node("transmit-set", None, map["xmlns" := ManifestNamespace], children);
  }

  // ---------------------------------------------------------------------
  // Properties

  /** The `i`-th element holds the `i`-th id. */
  lemma {:induction false} IdLeavesAt(tag: string, ids: seq<string>, i: nat)
    requires i < |ids|
    ensures IdLeaves(tag, ids)[i] == Leaf(tag, Some(ids[i]))
    decreases |ids|
  {
    if i < |ids| - 1 {
      IdLeavesAt(tag, ids[..|ids| - 1], i);
    }
  }

  /** `findall(tag)` on the list element reads back every id, in order. */
  lemma IdsRoundTrip(list: string, tag: string, ids: seq<string>)
    ensures var found := FindAll(Element(list, IdLeaves(tag, ids)), tag);
            && |found| == |ids|
            && forall i :: 0 <= i < |ids| ==> found[i].text == Some(ids[i])
  {
    forall i | 0 <= i < |ids|
      ensures IdLeaves(tag, ids)[i] == Leaf(tag, Some(ids[i]))
    {
      IdLeavesAt(tag, ids, i);
    }
    FilterAllMatching(IdLeaves(tag, ids), tag);
  }

  /** The children of `transmit-set`, in order: `excluded-shipments` comes
      last and only for a non-empty list. */
  lemma TransmitTags(origin: Address, groupIds: seq<string>, name: Option<string>, detailed: bool,
                     excluded: seq<string>)
    ensures var root := TransmitXml(origin, groupIds, name, detailed, excluded);
            && root.tag == "transmit-set"
            && root.attrs == map["xmlns" := ManifestNamespace]
            && Tags(root.children) ==
                 ["group-ids", "requested-shipping-point", "detailed-manifests", "method-of-payment", "manifest-address"]
                 + (if excluded != [] then ["excluded-shipments"] else [])
  {
    TagsConcat(TransmitHead(origin, groupIds, name, detailed), ExcludedPart(excluded));
  }

  lemma TransmitDistinct(origin: Address, groupIds: seq<string>, name: Option<string>, detailed: bool,
                         excluded: seq<string>)
    ensures DistinctTags(TransmitXml(origin, groupIds, name, detailed, excluded).children)
  {
    TransmitTags(origin, groupIds, name, detailed, excluded);
  }

  /** Where each child of `transmit-set` sits. */
  lemma TransmitAt(origin: Address, groupIds: seq<string>, name: Option<string>, detailed: bool,
                   excluded: seq<string>)
    ensures var ns := TransmitXml(origin, groupIds, name, detailed, excluded).children;
            && |ns| == 5 + (if excluded != [] then 1 else 0)
            && ns[0] == Element("group-ids", IdLeaves("group-id", groupIds))
            && ns[1] == Leaf("requested-shipping-point", Some(origin.postalCode))
            && ns[2] == Leaf("detailed-manifests", Some(if detailed then "true" else "false"))
            && ns[4] == ManifestAddress(origin, name)
            && (excluded != [] ==> ns[5] == Element("excluded-shipments", IdLeaves("shipment-id", excluded)))
  {
  }

  /** `find` on the root gives each fixed child, and `excluded-shipments`
      exactly when the list is non-empty. */
  lemma {:induction false} TransmitFinds(origin: Address, groupIds: seq<string>, name: Option<string>, detailed: bool,
                                         excluded: seq<string>)
    ensures var root := TransmitXml(origin, groupIds, name, detailed, excluded);
            && Find(root, "group-ids") == Some(Element("group-ids", IdLeaves("group-id", groupIds)))
            && Find(root, "requested-shipping-point") == Some(Leaf("requested-shipping-point", Some(origin.postalCode)))
            && Find(root, "detailed-manifests") == Some(Leaf("detailed-manifests", Some(if detailed then "true" else "false")))
            && Find(root, "manifest-address") == Some(ManifestAddress(origin, name))
            && Find(root, "excluded-shipments") ==
                 (if excluded == [] then None else Some(Element("excluded-shipments", IdLeaves("shipment-id", excluded))))
  {
    var ns := TransmitXml(origin, groupIds, name, detailed, excluded).children;
    TransmitTags(origin, groupIds, name, detailed, excluded);
    TransmitDistinct(origin, groupIds, name, detailed, excluded);
    TransmitAt(origin, groupIds, name, detailed, excluded);
    FindDistinct(ns);
  }

  /** Reading the request back gives the group ids, the kind of manifest and
      the excluded shipments it was built from. */
  lemma TransmitRoundTrip(origin: Address, groupIds: seq<string>, name: Option<string>, detailed: bool,
                          excluded: seq<string>)
    ensures var root := TransmitXml(origin, groupIds, name, detailed, excluded);
            && Find(root, "group-ids").Some?
            && Find(root, "detailed-manifests").Some?
            && var groups := FindAll(Find(root, "group-ids").value, "group-id");
            && |groups| == |groupIds|
            && (forall i :: 0 <= i < |groupIds| ==> groups[i].text == Some(groupIds[i]))
            && (Find(root, "detailed-manifests").value.text == Some("true") <==> detailed)
            && (Find(root, "excluded-shipments").Some? <==> excluded != [])
            && (excluded != [] ==>
                  var shipments := FindAll(Find(root, "excluded-shipments").value, "shipment-id");
                  && |shipments| == |excluded|
                  && forall i :: 0 <= i < |excluded| ==> shipments[i].text == Some(excluded[i]))
  {
    TransmitFinds(origin, groupIds, name, detailed, excluded);
    IdsRoundTrip("group-ids", "group-id", groupIds);
    IdsRoundTrip("excluded-shipments", "shipment-id", excluded);
  }

  /** The manifest address: the name only when truthy, then the phone, which
      is always present (a missing phone is written as the text "None"), then
      the address details. */
  lemma ManifestAddressTags(origin: Address, name: Option<string>)
    ensures var n := ManifestAddress(origin, name);
            && Tags(n.children) == ["manifest-company"] + (if Truthy(name) then ["manifest-name"] else [])
                                   + ["phone-number", "address-details"]
            && n.children[|n.children| - 2].text == Some(if origin.phone.None? then "None" else origin.phone.value)
            && n.children[|n.children| - 1] == Element("address-details", ManifestDetails(origin))
  {
    var front := [Leaf("manifest-company", origin.company)] + Optional("manifest-name", name);
    var tail := [Leaf("phone-number", Some(Unicode(origin.phone)))] + [Element("address-details", ManifestDetails(origin))];
    assert ManifestAddress(origin, name).children == front + tail;
    OptionalTags("manifest-name", name);
    TagsConcat(front, tail);
    TagsConcat([Leaf("manifest-company", origin.company)], Optional("manifest-name", name));
  }

  /** The five address lines, `prov-state` included whatever the province. */
  lemma ManifestDetailsContents(origin: Address)
    ensures Tags(ManifestDetails(origin)) == ["address-line-1", "address-line-2", "city", "prov-state", "postal-zip-code"]
    ensures Texts(ManifestDetails(origin)) == [origin.address1, origin.address2, origin.city, origin.province, Some(origin.postalCode)]
  {
  }
}
