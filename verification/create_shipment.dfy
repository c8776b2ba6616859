/** The request document of `CreateShipment` (canada_post/service/contract_shipping.py):
    a `shipment` element whose `delivery-spec` describes the sender, the
    destination, the customs declaration, the parcel and the payment. Each
    failed `assert` of the builder is an `Invalid` outcome; an attribute the
    parcel never received is a `MissingAttribute` outcome. The first failure
    in source order is the one reported. */
module CreateShipment {
  import opened Common
  import opened Text
  import opened Xml
  import opened Address
  import opened Parcels
  import References

  const ShipmentNamespace := "http://www.canadapost.ca/ws/shipment-v7"

  /** The service codes for which the destination needs a phone number, as
      the tuple at contract_shipping.py:191-192 spells them (`INT.PK.PAK`
      where the comment above it names `INT.PW.PAK`). */
  const PhoneRequiredServices: seq<string> :=
    ["USA.EP", "USA.XP", "INT.XP", "USA.PW.PARCEL", "USA.PW.PAK", "INT.PW.PARCEL", "INT.PK.PAK"]

  // ---------------------------------------------------------------------
  // The document, part by part

  /** `address.country_code not in ("US", "CA")` */
  predicate NorthAmerican(countryCode: string) {
    countryCode == "US" || countryCode == "CA"
  }

  /** The children of `address-details` up to the country code. */
  function DetailsHead(a: Address): seq<Node> {
    [Leaf("address-line-1", a.address1), Leaf("address-line-2", a.address2), Leaf("city", a.city)]
    + Optional("prov-state", a.province)
    + [Leaf("country-code", Some(a.countryCode))]
  }

  /** `_create_address_detail`: the address lines and city as they are, the
      province when given, the country code, then the postal code, which
      only addresses outside the United States and Canada may lack. */
  function AddressDetails(a: Address): Result<Node> {
    if a.postalCode != "" then
      Success(Element("address-details", DetailsHead(a) + [Leaf("postal-zip-code", Some(a.postalCode))]))
    else if NorthAmerican(a.countryCode) then
      Failure(Invalid(PostalCodeRequired(a.countryCode)))
    else
      Success(Element("address-details", DetailsHead(a)))
  }

  /** The `sender` element, after the sender's checks. */
  function SenderXml(origin: Address): (r: Result<Node>)
    ensures r.Success? ==> r.value.tag == "sender"
  {
    if !Truthy(origin.company) then Failure(Invalid(SenderCompanyRequired))
    else if !Truthy(origin.phone) then Failure(Invalid(SenderPhoneRequired))
    else if !(Truthy(origin.address1) || Truthy(origin.address2)) then Failure(Invalid(SenderAddressRequired))
    else if !Truthy(origin.city) then Failure(Invalid(SenderCityRequired))
    else if !Truthy(origin.province) then Failure(Invalid(SenderProvinceRequired))
    else
      var details :- AddressDetails(origin);
      Success(Element("sender", Optional("name", origin.name) +
                                [Leaf("company", origin.company), Leaf("contact-phone", origin.phone), details]))
  }

  /** The `client-voice-number` element, or the refusal of a service that needs it. */
  function PhonePart(destination: Address, service: string): Result<seq<Node>> {
    if Truthy(destination.phone) then Success(Optional("client-voice-number", destination.phone))
    else if service in PhoneRequiredServices then Failure(Invalid(DestinationPhoneRequired(service)))
    else Success([])
  }

  /** The `destination` element, after the destination's checks. Its `extra`
      text is not part of it: see `ExtraPart`. */
  function DestinationXml(destination: Address, service: string): (r: Result<Node>)
    ensures r.Success? ==> r.value.tag == "destination"
  {
    var phone :- PhonePart(destination, service);
    if !(Truthy(destination.address1) || Truthy(destination.address2)) then
      Failure(Invalid(DestinationAddressRequired))
    else if !Truthy(destination.province) && NorthAmerican(destination.countryCode) then
      Failure(Invalid(DestinationProvinceRequired))
    else
      var details :- AddressDetails(destination);
      Success(Element("destination", Optional("name", destination.name) + Optional("company", destination.company)
                                     + phone + [details]))
  }

  /** `additional-address-info`, which `add_child` attaches to the root. */
  function ExtraPart(destination: Address): seq<Node> {
    Optional("additional-address-info", destination.extra)
  }

  /** One `item` of the customs declaration. */
  function ItemXml(item: Item): Node {
    Element("item", [Leaf("customs-number-of-units", Some(FromInt(item.amount))),
                     Leaf("customs-description", item.description),
                     Leaf("unit-weight", Some(FromInt(item.weight))),
                     Leaf("customs-value-per-unit", Some(FromInt(item.price)))])
  }

  /** The `item` elements of a list of items, in order. */
  function ItemsXml(items: seq<Item>): (r: seq<Node>)
    ensures |r| == |items|
  {
    if items == [] then [] else ItemsXml(items[..|items| - 1]) + [ItemXml(items[|items| - 1])]
  }

  /** The `customs` element, present only outside Canada. */
  function CustomsPart(destination: Address, parcel: Parcel): (r: Result<seq<Node>>)
    ensures r.Success? ==> Tags(r.value) == if destination.countryCode != "CA" then ["customs"] else []
  {
    if destination.countryCode == "CA" then Success([])
    else if parcel.items.None? then Failure(MissingAttribute("items"))
    else if parcel.items.value == [] then Failure(Invalid(CustomsItemsRequired))
    else Success([Element("customs", [Leaf("currency", Some("CAD")),
                                      Leaf("reason-for-export", Some("SOG")),
                                      Element("sku-list", ItemsXml(parcel.items.value))])])
  }

  /** The `options` element holding each option's own element, when options are given. */
  function OptionsPart(options: Option<seq<Node>>): (r: seq<Node>)
    ensures Tags(r) == if options.Some? then ["options"] else []
  {
    if options.None? then [] else [Element("options", options.value)]
  }

  /** `length`, `width` and `height`, present only when all three are positive. */
  function DimensionsPart(parcel: Parcel): seq<Node> {
    if parcel.length > 0 && parcel.width > 0 && parcel.height > 0 then
      [Element("dimensions", [Leaf("length", Some(FromInt(parcel.length))),
                              Leaf("width", Some(FromInt(parcel.width))),
                              Leaf("height", Some(FromInt(parcel.height)))])]
    else []
  }

  /** The `parcel-characteristics` element. */
  function ParcelXml(parcel: Parcel): (r: Result<Node>)
    ensures r.Success? <==> parcel.unpackaged.Some?
    ensures r.Success? ==> r.value.tag == "parcel-characteristics"
  {
    if parcel.unpackaged.None? then Failure(MissingAttribute("unpackaged"))
    else Success(Element("parcel-characteristics",
                         [Leaf("weight", Some(FromInt(parcel.weight)))] + DimensionsPart(parcel) +
                         [Leaf("unpackaged", Some(if parcel.unpackaged.value then "true" else "false"))]))
  }

  const PrintPreferences := Element("print-preferences", [Leaf("output-format", Some("4x6"))])

  const Preferences := Element("preferences", [Leaf("show-packing-instructions", Some("false")),
                                               Leaf("show-postage-rate", Some("false")),
                                               Leaf("show-insured-value", Some("false"))])

  /** The `references` element, when references are given. */
  function ReferencesPart(references: Option<References.References>): (r: Result<seq<Node>>)
    ensures r.Success? ==> Tags(r.value) == if references.Some? then ["references"] else []
  {
    match references
    case None => Success([])
    case Some(refs) =>
      var n := References.ReferencesXml(refs);
      if n.Failure? then Failure(n.error) else Success([n.value])
  }

  /** The `settlement-info` element, which needs a contract number. */
  function SettlementXml(contractNumber: Option<string>): (r: Result<Node>)
    ensures r.Success? <==> Truthy(contractNumber)
    ensures r.Success? ==> r.value.tag == "settlement-info"
  {
    if !Truthy(contractNumber) then Failure(Invalid(ContractNumberRequired))
    else Success(Element("settlement-info", [Leaf("contract-id", contractNumber),
                                             Leaf("intended-method-of-payment", Some("Account"))]))
  }

  /** The children of `delivery-spec`, in document order. */
  function DeliverySpec(service: string, sender: Node, dest: Node, customs: seq<Node>, options: seq<Node>,
                        chars: Node, refs: seq<Node>, settlement: Node): seq<Node> {
    [Leaf("service-code", Some(service))] + [sender] + [dest] + customs + options
    + [chars] + [PrintPreferences] + [Preferences] + refs + [settlement]
  }

  /** The root `shipment` element around a complete `delivery-spec`. */
  function ShipmentOf(group: string, origin: Address, destination: Address, spec: seq<Node>): Node {
    Node("shipment", None, map["xmlns" := ShipmentNamespace],
         [Leaf("group-id", Some(group))] + [Leaf("requested-shipping-point", Some(origin.postalCode))]
         + [Element("delivery-spec", spec)] + ExtraPart(destination))
  }

  /** The document `CreateShipment.__call__` sends, or its first failure. */
  function ShipmentXml(parcel: Parcel, origin: Address, destination: Address, service: string, group: string,
                       options: Option<seq<Node>>, references: Option<References.References>,
                       contractNumber: Option<string>): Result<Node> {
    var sender :- SenderXml(origin);
    var dest :- DestinationXml(destination, service);
    var customs :- CustomsPart(destination, parcel);
    var chars :- ParcelXml(parcel);
    var refs :- ReferencesPart(references);
    var settlement :- SettlementXml(contractNumber);
    Success(ShipmentOf(group, origin, destination,
                       DeliverySpec(service, sender, dest, customs, OptionsPart(options), chars, refs, settlement)))
  }

  // ---------------------------------------------------------------------
  // The builders

  /** `_create_address_detail`: appends the children one by one. */
  method CreateAddressDetail(a: Address) returns (r: Result<Node>)
    ensures r == AddressDetails(a)
  {
    var children: seq<Node> := [];
    children := children + [Leaf("address-line-1", a.address1)];
    children := children + [Leaf("address-line-2", a.address2)];
    children := children + [Leaf("city", a.city)];
    if Truthy(a.province) {
      children := children + [Leaf("prov-state", a.province)];
    }
    children := children + [Leaf("country-code", Some(a.countryCode))];
    assert children == DetailsHead(a);
    if a.postalCode != "" {
      children := children + [Leaf("postal-zip-code", Some(a.postalCode))];
    } else if a.countryCode == "US" || a.countryCode == "CA" {
      return Failure(Invalid(PostalCodeRequired(a.countryCode)));
    }
    r := Success(Element("address-details", children));
  }

  /** Lines 153-168: the sender's checks, interleaved with its elements. */
  method BuildSender(origin: Address) returns (r: Result<Node>)
    ensures r == SenderXml(origin)
  {
    var children: seq<Node> := [];
    if Truthy(origin.name) {
      children := children + [Leaf("name", origin.name)];
    }
    if !Truthy(origin.company) {
      return Failure(Invalid(SenderCompanyRequired));
    }
    children := children + [Leaf("company", origin.company)];
    if !Truthy(origin.phone) {
      return Failure(Invalid(SenderPhoneRequired));
    }
    children := children + [Leaf("contact-phone", origin.phone)];
    if !(Truthy(origin.address1) || Truthy(origin.address2)) {
      return Failure(Invalid(SenderAddressRequired));
    }
    if !Truthy(origin.city) {
      return Failure(Invalid(SenderCityRequired));
    }
    if !Truthy(origin.province) {
      return Failure(Invalid(SenderProvinceRequired));
    }
    var details := CreateAddressDetail(origin);
    if details.Failure? {
      return Failure(details.error);
    }
    children := children + [details.value];
    assert children == Optional("name", origin.name) +
                       [Leaf("company", origin.company), Leaf("contact-phone", origin.phone), details.value];
    r := Success(Element("sender", children));
  }

  /** Lines 172-203: the destination's elements and checks; `extra` is
      returned apart, for the root. */
  method BuildDestination(destination: Address, service: string) returns (r: Result<Node>, extra: seq<Node>)
    ensures r == DestinationXml(destination, service)
    ensures extra == ExtraPart(destination)
  {
    var children: seq<Node> := [];
    if Truthy(destination.name) {
      children := children + [Leaf("name", destination.name)];
    }
    if Truthy(destination.company) {
      children := children + [Leaf("company", destination.company)];
    }
    extra := [];
    if Truthy(destination.extra) {
      extra := extra + [Leaf("additional-address-info", destination.extra)];
    }
    ghost var front := children;
    assert front == Optional("name", destination.name) + Optional("company", destination.company);
    if Truthy(destination.phone) {
      children := children + [Leaf("client-voice-number", destination.phone)];
    } else if service in PhoneRequiredServices {
      return Failure(Invalid(DestinationPhoneRequired(service))), extra;
    }
    assert children == front + PhonePart(destination, service).value;
    if !(Truthy(destination.address1) || Truthy(destination.address2)) {
      return Failure(Invalid(DestinationAddressRequired)), extra;
    }
    if !Truthy(destination.province) && (destination.countryCode == "CA" || destination.countryCode == "US") {
      return Failure(Invalid(DestinationProvinceRequired)), extra;
    }
    var details := CreateAddressDetail(destination);
    if details.Failure? {
      return Failure(details.error), extra;
    }
    children := children + [details.value];
    assert children == Optional("name", destination.name) + Optional("company", destination.company)
                       + PhonePart(destination, service).value + [details.value];
    r := Success(Element("destination", children));
  }

  /** Lines 207-233: the customs declaration, one `item` per parcel item. */
  method BuildCustoms(destination: Address, parcel: Parcel) returns (r: Result<seq<Node>>)
    ensures r == CustomsPart(destination, parcel)
  {
    if destination.countryCode == "CA" {
      return Success([]);
    }
    if parcel.items.None? {
      return Failure(MissingAttribute("items"));
    }
    var items := parcel.items.value;
    if items == [] {
      return Failure(Invalid(CustomsItemsRequired));
    }
    var skus: seq<Node> := [];
    for i := 0 to |items|
      invariant skus == ItemsXml(items[..i])
    {
      var item := items[i];
      var units := Leaf("customs-number-of-units", Some(FromInt(item.amount)));
      var description := Leaf("customs-description", item.description);
      var weight := Leaf("unit-weight", Some(FromInt(item.weight)));
      var value := Leaf("customs-value-per-unit", Some(FromInt(item.price)));
      skus := skus + [Element("item", [units, description, weight, value])];
      assert items[..i + 1][..i] == items[..i];
    }
    assert items[..|items|] == items;
    r := Success([Element("customs", [Leaf("currency", Some("CAD")),
                                      Leaf("reason-for-export", Some("SOG")),
                                      Element("sku-list", skus)])]);
  }

  /** Lines 238-241: each option's element appended to `options`. */
  method BuildOptions(options: Option<seq<Node>>) returns (r: seq<Node>)
    ensures r == OptionsPart(options)
  {
    if options.None? {
      return [];
    }
    var opts := options.value;
    var children: seq<Node> := [];
    for i := 0 to |opts|
      invariant children == opts[..i]
    {
      children := children + [opts[i]];
    }
    assert opts[..|opts|] == opts;
    r := [Element("options", children)];
  }

  /** Lines 245-254: weight, the dimensions when all three are positive, and the packaging flag. */
  method BuildParcelCharacteristics(parcel: Parcel) returns (r: Result<Node>)
    ensures r == ParcelXml(parcel)
  {
    var children: seq<Node> := [];
    children := children + [Leaf("weight", Some(FromInt(parcel.weight)))];
    if parcel.length > 0 && parcel.width > 0 && parcel.height > 0 {
      var dims: seq<Node> := [];
      dims := dims + [Leaf("length", Some(FromInt(parcel.length)))];
      dims := dims + [Leaf("width", Some(FromInt(parcel.width)))];
      dims := dims + [Leaf("height", Some(FromInt(parcel.height)))];
      assert dims == [Leaf("length", Some(FromInt(parcel.length))), Leaf("width", Some(FromInt(parcel.width))),
                      Leaf("height", Some(FromInt(parcel.height)))];
      children := children + [Element("dimensions", dims)];
    }
    assert children == [Leaf("weight", Some(FromInt(parcel.weight)))] + DimensionsPart(parcel);
    if parcel.unpackaged.None? {
      return Failure(MissingAttribute("unpackaged"));
    }
    children := children + [Leaf("unpackaged", Some(if parcel.unpackaged.value then "true" else "false"))];
    assert children == [Leaf("weight", Some(FromInt(parcel.weight)))] + DimensionsPart(parcel) +
                       [Leaf("unpackaged", Some(if parcel.unpackaged.value then "true" else "false"))];
    r := Success(Element("parcel-characteristics", children));
  }

  /** Lines 276-283: the contract number is required. */
  method BuildSettlement(contractNumber: Option<string>) returns (r: Result<Node>)
    ensures r == SettlementXml(contractNumber)
  {
    if !Truthy(contractNumber) {
      return Failure(Invalid(ContractNumberRequired));
    }
    var children: seq<Node> := [];
    children := children + [Leaf("contract-id", contractNumber)];
    children := children + [Leaf("intended-method-of-payment", Some("Account"))];
    assert children == [Leaf("contract-id", contractNumber), Leaf("intended-method-of-payment", Some("Account"))];
    r := Success(Element("settlement-info", children));
  }

  /** `CreateShipment.__call__` up to the request (lines 141-283): the root
      and `delivery-spec` grow part by part; the first failure stops it. */
  method CreateShipmentBody(parcel: Parcel, origin: Address, destination: Address, service: string, group: string,
                            options: Option<seq<Node>>, references: Option<References.References>,
                            contractNumber: Option<string>) returns (r: Result<Node>)
    ensures r == ShipmentXml(parcel, origin, destination, service, group, options, references, contractNumber)
  {
    var root: seq<Node> := [Leaf("group-id", Some(group))];
    root := root + [Leaf("requested-shipping-point", Some(origin.postalCode))];
    var spec: seq<Node> := [Leaf("service-code", Some(service))];
    var sender := BuildSender(origin);
    if sender.Failure? {
      return Failure(sender.error);
    }
    spec := spec + [sender.value];
    var dest, extra := BuildDestination(destination, service);
    if dest.Failure? {
      return Failure(dest.error);
    }
    spec := spec + [dest.value];
    var customs := BuildCustoms(destination, parcel);
    if customs.Failure? {
      return Failure(customs.error);
    }
    spec := spec + customs.value;
    var opts := BuildOptions(options);
    spec := spec + opts;
    var chars := BuildParcelCharacteristics(parcel);
    if chars.Failure? {
      return Failure(chars.error);
    }
    spec := spec + [chars.value];
    spec := spec + [PrintPreferences];
    spec := spec + [Preferences];
    var refs: seq<Node> := [];
    if references.Some? {
      var made := References.MakeXml(references.value);
      if made.Failure? {
        return Failure(made.error);
      }
      refs := [made.value];
    }
    assert ReferencesPart(references) == Success(refs);
    spec := spec + refs;
    var settlement := BuildSettlement(contractNumber);
    if settlement.Failure? {
      return Failure(settlement.error);
    }
    spec := spec + [settlement.value];
    root := root + [Element("delivery-spec", spec)];
    root := root + extra;
    r := Success(Node("shipment", None, map["xmlns" := ShipmentNamespace], root));
  }

  // ---------------------------------------------------------------------
  // Address details

  /** The postal code may be left out only outside the United States and Canada. */
  predicate PostalCodeAcceptable(a: Address) {
    a.postalCode != "" || !NorthAmerican(a.countryCode)
  }

  lemma AddressDetailsAccepted(a: Address)
    ensures AddressDetails(a).Success? <==> PostalCodeAcceptable(a)
    ensures AddressDetails(a).Failure? ==> AddressDetails(a).error == Invalid(PostalCodeRequired(a.countryCode))
  {
  }

  /** The children of `address-details` in order: both address lines and the
      city always, `prov-state` only for a truthy province, the country code,
      and `postal-zip-code` only for a non-empty postal code. */
  lemma AddressDetailsTags(a: Address)
    requires AddressDetails(a).Success?
    ensures AddressDetails(a).value.tag == "address-details"
    ensures Tags(AddressDetails(a).value.children) ==
              ["address-line-1", "address-line-2", "city"]
              + (if Truthy(a.province) then ["prov-state"] else [])
              + ["country-code"]
              + (if a.postalCode != "" then ["postal-zip-code"] else [])
  {
    var lines := [Leaf("address-line-1", a.address1), Leaf("address-line-2", a.address2), Leaf("city", a.city)];
    var prov := Optional("prov-state", a.province);
    var country := [Leaf("country-code", Some(a.countryCode))];
    var postal := if a.postalCode != "" then [Leaf("postal-zip-code", Some(a.postalCode))] else [];
    assert AddressDetails(a).value.children == lines + prov + country + postal;
    TagsConcat(lines + prov + country, postal);
    TagsConcat(lines + prov, country);
    TagsConcat(lines, prov);
  }

  /** No two children of `address-details` share a tag. */
  lemma AddressDetailsDistinct(a: Address)
    requires AddressDetails(a).Success?
    ensures DistinctTags(AddressDetails(a).value.children)
  {
    AddressDetailsTags(a);
  }

  /** Where each child of `address-details` sits: `k` is the position of the
      country code, after the province when there is one. */
  lemma AddressDetailsAt(a: Address, k: nat)
    requires AddressDetails(a).Success?
    requires k == if Truthy(a.province) then 4 else 3
    ensures var ns := AddressDetails(a).value.children;
            && |ns| == k + 1 + (if a.postalCode != "" then 1 else 0)
            && ns[0] == Leaf("address-line-1", a.address1)
            && ns[1] == Leaf("address-line-2", a.address2)
            && ns[2] == Leaf("city", a.city)
            && (Truthy(a.province) ==> ns[3] == Leaf("prov-state", a.province))
            && ns[k] == Leaf("country-code", Some(a.countryCode))
            && (a.postalCode != "" ==> ns[k + 1] == Leaf("postal-zip-code", Some(a.postalCode)))
  {
  }

  /** Reading the element back with `find` gives the address's own fields:
      the lines, city and country always, the province and postal code when
      they were written. */
  lemma {:induction false} AddressDetailsRoundTrip(a: Address)
    requires AddressDetails(a).Success?
    ensures var n := AddressDetails(a).value;
            && Find(n, "address-line-1") == Some(Leaf("address-line-1", a.address1))
            && Find(n, "address-line-2") == Some(Leaf("address-line-2", a.address2))
            && Find(n, "city") == Some(Leaf("city", a.city))
            && Find(n, "prov-state") == (if Truthy(a.province) then Some(Leaf("prov-state", a.province)) else None)
            && Find(n, "country-code") == Some(Leaf("country-code", Some(a.countryCode)))
            && Find(n, "postal-zip-code") ==
                 (if a.postalCode != "" then Some(Leaf("postal-zip-code", Some(a.postalCode))) else None)
  {
    var ns := AddressDetails(a).value.children;
    var k := if Truthy(a.province) then 4 else 3;
    AddressDetailsTags(a);
    AddressDetailsDistinct(a);
    AddressDetailsAt(a, k);
    FindDistinct(ns);
    assert ns[0].tag == "address-line-1" && ns[1].tag == "address-line-2" && ns[2].tag == "city";
    assert ns[k].tag == "country-code";
    if Truthy(a.province) {
      assert ns[3].tag == "prov-state";
    }
    if a.postalCode != "" {
      assert ns[k + 1].tag == "postal-zip-code";
    }
  }

  // ---------------------------------------------------------------------
  // Sender

  /** What the sender must have: a company, a phone, an address line, a
      city, a province and an acceptable postal code. */
  predicate SenderReady(origin: Address) {
    && Truthy(origin.company)
    && Truthy(origin.phone)
    && (Truthy(origin.address1) || Truthy(origin.address2))
    && Truthy(origin.city)
    && Truthy(origin.province)
    && PostalCodeAcceptable(origin)
  }

  lemma SenderAccepted(origin: Address)
    ensures SenderXml(origin).Success? <==> SenderReady(origin)
  {
  }

  /** The sender's children: the name when truthy, the company, the contact
      phone and the address details, with the sender's own texts. */
  lemma SenderContents(origin: Address)
    requires SenderXml(origin).Success?
    ensures var n := SenderXml(origin).value;
            && n.tag == "sender"
            && Tags(n.children) == (if Truthy(origin.name) then ["name"] else []) +
                                   ["company", "contact-phone", "address-details"]
            && Texts(n.children) == (if Truthy(origin.name) then [origin.name] else []) +
                                    [origin.company, origin.phone, None]
            && n.children[|n.children| - 1] == AddressDetails(origin).value
  {
    var name := Optional("name", origin.name);
    var rest := [Leaf("company", origin.company), Leaf("contact-phone", origin.phone), AddressDetails(origin).value];
    assert SenderXml(origin).value.children == name + rest;
    TagsConcat(name, rest);
    assert Texts(name + rest) == Texts(name) + Texts(rest);
  }

  // ---------------------------------------------------------------------
  // Destination

  /** What the destination must have: a phone when the service needs one, an
      address line, a province in the United States and Canada, and an
      acceptable postal code. */
  predicate DestinationReady(destination: Address, service: string) {
    && (Truthy(destination.phone) || service !in PhoneRequiredServices)
    && (Truthy(destination.address1) || Truthy(destination.address2))
    && (Truthy(destination.province) || !NorthAmerican(destination.countryCode))
    && PostalCodeAcceptable(destination)
  }

  lemma DestinationAccepted(destination: Address, service: string)
    ensures DestinationXml(destination, service).Success? <==> DestinationReady(destination, service)
  {
  }

  /** The destination is refused for want of a phone exactly when it has
      none and the service is one of the listed codes. */
  lemma PhoneRequired(destination: Address, service: string)
    ensures DestinationXml(destination, service) == Failure(Invalid(DestinationPhoneRequired(service)))
            <==> !Truthy(destination.phone) && service in PhoneRequiredServices
  {
  }

  /** The list holds `INT.PK.PAK`, so `INT.PW.PAK`, which the comment beside
      it names, is accepted without a phone. */
  lemma PwPakWithoutPhone(destination: Address)
    requires !Truthy(destination.phone)
    ensures PhonePart(destination, "INT.PW.PAK") == Success([])
    ensures PhonePart(destination, "INT.PK.PAK") == Failure(Invalid(DestinationPhoneRequired("INT.PK.PAK")))
    ensures PhonePart(destination, "USA.EP") == Failure(Invalid(DestinationPhoneRequired("USA.EP")))
  {
    assert PhoneRequiredServices[6] == "INT.PK.PAK";
    assert PhoneRequiredServices[0] == "USA.EP";
    assert "INT.PW.PAK" !in PhoneRequiredServices by {
      assert forall i :: 0 <= i < |PhoneRequiredServices| ==> PhoneRequiredServices[i] != "INT.PW.PAK";
    }
  }

  /** The destination's children: name, company and phone when truthy, then
      the address details. */
  lemma DestinationTags(destination: Address, service: string)
    requires DestinationXml(destination, service).Success?
    ensures var n := DestinationXml(destination, service).value;
            && n.tag == "destination"
            && Tags(n.children) == (if Truthy(destination.name) then ["name"] else []) +
                                   (if Truthy(destination.company) then ["company"] else []) +
                                   (if Truthy(destination.phone) then ["client-voice-number"] else []) +
                                   ["address-details"]
            && n.children[|n.children| - 1] == AddressDetails(destination).value
  {
    var name := Optional("name", destination.name);
    var company := Optional("company", destination.company);
    var phone := Optional("client-voice-number", destination.phone);
    var details := [AddressDetails(destination).value];
    assert DestinationXml(destination, service).value.children == name + company + phone + details;
    OptionalTags("name", destination.name);
    OptionalTags("company", destination.company);
    OptionalTags("client-voice-number", destination.phone);
    TagsConcat(name + company + phone, details);
    TagsConcat(name + company, phone);
    TagsConcat(name, company);
  }

  /** `additional-address-info` is never a child of `destination`. */
  lemma ExtraNotInDestination(destination: Address, service: string)
    requires DestinationXml(destination, service).Success?
    ensures "additional-address-info" !in Tags(DestinationXml(destination, service).value.children)
  {
    DestinationTags(destination, service);
  }

  // ---------------------------------------------------------------------
  // Customs

  /** A number written by `unicode()` into the element `tag`, read back. */
  function ReadInt(n: Node, tag: string): Option<int> {
    match Find(n, tag)
    case Some(c) => if c.text.Some? then ParseInt(c.text.value) else None
    case None => None
  }

  /** An integer written as the text of the first child with its tag reads back as itself. */
  lemma ReadIntFound(n: Node, tag: string, k: int)
    requires Find(n, tag) == Some(Leaf(tag, Some(FromInt(k))))
    ensures ReadInt(n, tag) == Some(k)
  {
    ParseIntFromInt(k);
  }

  /** The item an `item` element describes. */
  function ReadItem(n: Node): Option<Item> {
    var amount := ReadInt(n, "customs-number-of-units");
    var description := Find(n, "customs-description");
    var weight := ReadInt(n, "unit-weight");
    var price := ReadInt(n, "customs-value-per-unit");
    if amount.Some? && description.Some? && weight.Some? && price.Some? then
      Some(Item(amount.value, description.value.text, weight.value, price.value))
    else None
  }

  /** An `item` element reads back as the item it was written from. */
  lemma ItemRoundTrip(item: Item)
    ensures ItemXml(item).tag == "item"
    ensures ReadItem(ItemXml(item)) == Some(item)
  {
    var ns := ItemXml(item).children;
    assert DistinctTags(ns);
    FindDistinct(ns);
    assert ns[0].tag == "customs-number-of-units" && ns[1].tag == "customs-description";
    assert ns[2].tag == "unit-weight" && ns[3].tag == "customs-value-per-unit";
    ParseIntFromInt(item.amount);
    ParseIntFromInt(item.weight);
    ParseIntFromInt(item.price);
  }

  /** The `i`-th `item` element is written from the `i`-th item. */
  lemma {:induction false} ItemsXmlAt(items: seq<Item>, i: nat)
    requires i < |items|
    ensures ItemsXml(items)[i] == ItemXml(items[i])
  {
    if i < |items| - 1 {
      ItemsXmlAt(items[..|items| - 1], i);
    }
  }

  /** `findall("item")` on the sku list gives one element per item, in
      order, each reading back as its item. */
  lemma SkuListRoundTrip(items: seq<Item>)
    ensures var found := FindAll(Element("sku-list", ItemsXml(items)), "item");
            && |found| == |items|
            && forall i :: 0 <= i < |items| ==> ReadItem(found[i]) == Some(items[i])
  {
    forall i | 0 <= i < |items|
      ensures ItemsXml(items)[i].tag == "item" && ReadItem(ItemsXml(items)[i]) == Some(items[i])
    {
      ItemsXmlAt(items, i);
      ItemRoundTrip(items[i]);
    }
    FilterAllMatching(ItemsXml(items), "item");
  }

  /** Customs need nothing in Canada; abroad the parcel must carry a non-empty list of items. */
  predicate CustomsReady(destination: Address, parcel: Parcel) {
    destination.countryCode == "CA" || (parcel.items.Some? && parcel.items.value != [])
  }

  lemma CustomsAccepted(destination: Address, parcel: Parcel)
    ensures CustomsPart(destination, parcel).Success? <==> CustomsReady(destination, parcel)
    ensures destination.countryCode != "CA" && parcel.items.None? ==>
              CustomsPart(destination, parcel) == Failure(MissingAttribute("items"))
    ensures destination.countryCode != "CA" && parcel.items == Some([]) ==>
              CustomsPart(destination, parcel) == Failure(Invalid(CustomsItemsRequired))
  {
  }

  /** The `customs` element is present exactly outside Canada, with the
      currency CAD, the reason SOG and the list of the parcel's items. */
  lemma CustomsContents(destination: Address, parcel: Parcel)
    requires CustomsPart(destination, parcel).Success?
    ensures var part := CustomsPart(destination, parcel).value;
            && Tags(part) == (if destination.countryCode != "CA" then ["customs"] else [])
            && (destination.countryCode != "CA" ==>
                  && Tags(part[0].children) == ["currency", "reason-for-export", "sku-list"]
                  && Texts(part[0].children) == [Some("CAD"), Some("SOG"), None]
                  && part[0].children[2] == Element("sku-list", ItemsXml(parcel.items.value)))
  {
  }

  // ---------------------------------------------------------------------
  // Parcel characteristics

  lemma ParcelAccepted(parcel: Parcel)
    ensures ParcelXml(parcel).Success? <==> parcel.unpackaged.Some?
    ensures parcel.unpackaged.None? ==> ParcelXml(parcel) == Failure(MissingAttribute("unpackaged"))
  {
  }

  /** The children of `parcel-characteristics`: `dimensions` sits between
      the weight and the packaging flag exactly when all three measures are positive. */
  lemma ParcelTags(parcel: Parcel)
    requires ParcelXml(parcel).Success?
    ensures Tags(ParcelXml(parcel).value.children) ==
              ["weight"] +
              (if parcel.length > 0 && parcel.width > 0 && parcel.height > 0 then ["dimensions"] else []) +
              ["unpackaged"]
  {
    var w := [Leaf("weight", Some(FromInt(parcel.weight)))];
    var d := DimensionsPart(parcel);
    var u := [Leaf("unpackaged", Some(if parcel.unpackaged.value then "true" else "false"))];
    TagsConcat(w + d, u);
    TagsConcat(w, d);
  }

  lemma DimensionsOnlyWhenPositive(parcel: Parcel)
    requires ParcelXml(parcel).Success?
    ensures "dimensions" in Tags(ParcelXml(parcel).value.children) <==>
              parcel.length > 0 && parcel.width > 0 && parcel.height > 0
  {
    ParcelTags(parcel);
  }

  /** The `dimensions` element reads back as the three measures. */
  lemma DimensionsRoundTrip(parcel: Parcel)
    requires parcel.length > 0 && parcel.width > 0 && parcel.height > 0
    ensures var d := DimensionsPart(parcel)[0];
            && d.tag == "dimensions"
            && ReadInt(d, "length") == Some(parcel.length)
            && ReadInt(d, "width") == Some(parcel.width)
            && ReadInt(d, "height") == Some(parcel.height)
  {
    var ds := DimensionsPart(parcel)[0].children;
    assert DistinctTags(ds);
    FindDistinct(ds);
    assert ds[0].tag == "length" && ds[1].tag == "width" && ds[2].tag == "height";
    ParseIntFromInt(parcel.length);
    ParseIntFromInt(parcel.width);
    ParseIntFromInt(parcel.height);
  }

  /** Reading back: the weight, the packaging flag as "true" or "false",
      and the `dimensions` element exactly when it was written. */
  lemma {:induction false} ParcelRoundTrip(parcel: Parcel)
    requires ParcelXml(parcel).Success?
    ensures var n := ParcelXml(parcel).value;
            && ReadInt(n, "weight") == Some(parcel.weight)
            && Find(n, "unpackaged") == Some(Leaf("unpackaged", Some(if parcel.unpackaged.value then "true" else "false")))
            && Find(n, "dimensions") == (if DimensionsPart(parcel) == [] then None else Some(DimensionsPart(parcel)[0]))
  {
    var n := ParcelXml(parcel).value;
    var w := Leaf("weight", Some(FromInt(parcel.weight)));
    var u := Leaf("unpackaged", Some(if parcel.unpackaged.value then "true" else "false"));
    if DimensionsPart(parcel) == [] {
      assert n.children == [w, u];
      FoundWithoutDimensions(w, u);
    } else {
      assert n.children == [w, DimensionsPart(parcel)[0], u];
      FoundWithDimensions(w, DimensionsPart(parcel)[0], u);
    }
    ReadIntFound(n, "weight", parcel.weight);
  }

  /** `find` among the weight and the packaging flag. */
  lemma FoundWithoutDimensions(w: Node, u: Node)
    requires w.tag == "weight" && u.tag == "unpackaged"
    ensures FindIn([w, u], "weight") == Some(w)
    ensures FindIn([w, u], "unpackaged") == Some(u)
    ensures FindIn([w, u], "dimensions") == None
  {
    FindInFirst([w, u], "weight", 0);
    FindInFirst([w, u], "unpackaged", 1);
    assert Tags([w, u]) == ["weight", "unpackaged"];
  }

  /** `find` among the weight, `dimensions` and the packaging flag. */
  lemma FoundWithDimensions(w: Node, d: Node, u: Node)
    requires w.tag == "weight" && d.tag == "dimensions" && u.tag == "unpackaged"
    ensures FindIn([w, d, u], "weight") == Some(w)
    ensures FindIn([w, d, u], "dimensions") == Some(d)
    ensures FindIn([w, d, u], "unpackaged") == Some(u)
  {
    FindInFirst([w, d, u], "weight", 0);
    FindInFirst([w, d, u], "dimensions", 1);
    FindInFirst([w, d, u], "unpackaged", 2);
  }

  // ---------------------------------------------------------------------
  // The whole request

  /** Everything `__call__` checks before the contract number. */
  predicate PartsReady(parcel: Parcel, origin: Address, destination: Address, service: string,
                       references: Option<References.References>) {
    && SenderReady(origin)
    && DestinationReady(destination, service)
    && CustomsReady(destination, parcel)
    && parcel.unpackaged.Some?
    && (references.Some? ==> References.Acceptable(references.value))
  }

  /** The request is built exactly when every check passes, the contract
      number included. */
  lemma ShipmentAccepted(parcel: Parcel, origin: Address, destination: Address, service: string, group: string,
                         options: Option<seq<Node>>, references: Option<References.References>,
                         contractNumber: Option<string>)
    ensures ShipmentXml(parcel, origin, destination, service, group, options, references, contractNumber).Success?
            <==> PartsReady(parcel, origin, destination, service, references) && Truthy(contractNumber)
  {
    SenderAccepted(origin);
    DestinationAccepted(destination, service);
    CustomsAccepted(destination, parcel);
    ParcelAccepted(parcel);
    if references.Some? {
      References.ReferencesAccepted(references.value);
    }
  }

  /** The sender is checked before anything else: its error is the one reported. */
  lemma SenderCheckedFirst(parcel: Parcel, origin: Address, destination: Address, service: string, group: string,
                           options: Option<seq<Node>>, references: Option<References.References>,
                           contractNumber: Option<string>)
    requires !SenderReady(origin)
    ensures ShipmentXml(parcel, origin, destination, service, group, options, references, contractNumber)
            == Failure(SenderXml(origin).error)
  {
    SenderAccepted(origin);
  }

  /** The contract number is checked last: with everything else in order,
      a missing one is what is reported. */
  lemma ContractCheckedLast(parcel: Parcel, origin: Address, destination: Address, service: string, group: string,
                            options: Option<seq<Node>>, references: Option<References.References>,
                            contractNumber: Option<string>)
    requires PartsReady(parcel, origin, destination, service, references)
    requires !Truthy(contractNumber)
    ensures ShipmentXml(parcel, origin, destination, service, group, options, references, contractNumber)
            == Failure(Invalid(ContractNumberRequired))
  {
    ShipmentAccepted(parcel, origin, destination, service, group, options, references, Some("x"));
  }

  /** A built request is the `shipment` root around the `delivery-spec`
      assembled from each part's own element. */
  lemma ShipmentParts(parcel: Parcel, origin: Address, destination: Address, service: string, group: string,
                      options: Option<seq<Node>>, references: Option<References.References>,
                      contractNumber: Option<string>)
    requires ShipmentXml(parcel, origin, destination, service, group, options, references, contractNumber).Success?
    ensures SenderXml(origin).Success? && DestinationXml(destination, service).Success?
    ensures CustomsPart(destination, parcel).Success? && ParcelXml(parcel).Success?
    ensures ReferencesPart(references).Success? && SettlementXml(contractNumber).Success?
    ensures ShipmentXml(parcel, origin, destination, service, group, options, references, contractNumber).value
            == ShipmentOf(group, origin, destination,
                          DeliverySpec(service, SenderXml(origin).value, DestinationXml(destination, service).value,
                                       CustomsPart(destination, parcel).value, OptionsPart(options),
                                       ParcelXml(parcel).value, ReferencesPart(references).value,
                                       SettlementXml(contractNumber).value))
  {
  }

  /** The tags of `delivery-spec`, for any parts of the right kinds. */
  lemma DeliverySpecTagsOf(service: string, sender: Node, dest: Node, customs: seq<Node>, options: seq<Node>,
                           chars: Node, refs: seq<Node>, settlement: Node)
    requires sender.tag == "sender" && dest.tag == "destination"
    requires chars.tag == "parcel-characteristics" && settlement.tag == "settlement-info"
    ensures Tags(DeliverySpec(service, sender, dest, customs, options, chars, refs, settlement)) ==
              ["service-code", "sender", "destination"] + Tags(customs) + Tags(options) +
              ["parcel-characteristics", "print-preferences", "preferences"] + Tags(refs) + ["settlement-info"]
  {
    var head := [Leaf("service-code", Some(service))] + [sender] + [dest];
    var middle := [chars] + [PrintPreferences] + [Preferences];
    assert DeliverySpec(service, sender, dest, customs, options, chars, refs, settlement)
           == head + customs + options + middle + refs + [settlement];
    TagsConcat(head + customs + options + middle + refs, [settlement]);
    TagsConcat(head + customs + options + middle, refs);
    TagsConcat(head + customs + options, middle);
    TagsConcat(head + customs, options);
    TagsConcat(head, customs);
  }

  /** The root holds the group, the shipping point and `delivery-spec`, then
      the destination's extra address line when it is truthy (the line goes
      on the root, not into the destination). */
  lemma ShipmentRoot(group: string, origin: Address, destination: Address, spec: seq<Node>)
    ensures var root := ShipmentOf(group, origin, destination, spec);
            && root.tag == "shipment"
            && root.attrs == map["xmlns" := ShipmentNamespace]
            && Tags(root.children) == ["group-id", "requested-shipping-point", "delivery-spec"] +
                                      (if Truthy(destination.extra) then ["additional-address-info"] else [])
            && root.children[0].text == Some(group)
            && root.children[1].text == Some(origin.postalCode)
            && root.children[2].children == spec
            && (Truthy(destination.extra) ==> root.children[3].text == destination.extra)
  {
    var head := [Leaf("group-id", Some(group))] + [Leaf("requested-shipping-point", Some(origin.postalCode))]
                + [Element("delivery-spec", spec)];
    assert ShipmentOf(group, origin, destination, spec).children == head + ExtraPart(destination);
    TagsConcat(head, ExtraPart(destination));
    OptionalTags("additional-address-info", destination.extra);
  }

  /** What each successful part contributes to `delivery-spec`, by tag. */
  lemma PartKinds(parcel: Parcel, origin: Address, destination: Address, service: string,
                  options: Option<seq<Node>>, references: Option<References.References>,
                  contractNumber: Option<string>)
    requires SenderXml(origin).Success? && DestinationXml(destination, service).Success?
    requires CustomsPart(destination, parcel).Success? && ParcelXml(parcel).Success?
    requires ReferencesPart(references).Success? && SettlementXml(contractNumber).Success?
    ensures SenderXml(origin).value.tag == "sender"
    ensures DestinationXml(destination, service).value.tag == "destination"
    ensures Tags(CustomsPart(destination, parcel).value) == if destination.countryCode != "CA" then ["customs"] else []
    ensures Tags(OptionsPart(options)) == if options.Some? then ["options"] else []
    ensures ParcelXml(parcel).value.tag == "parcel-characteristics"
    ensures Tags(ReferencesPart(references).value) == if references.Some? then ["references"] else []
    ensures SettlementXml(contractNumber).value.tag == "settlement-info"
  {
  }

  /** The tags of `delivery-spec` in a built request: `customs` only outside
      Canada, `options` only when options are given, `references` only when
      references are given. */
  lemma {:induction false} DeliverySpecTags(parcel: Parcel, origin: Address, destination: Address, service: string,
                                            group: string, options: Option<seq<Node>>,
                                            references: Option<References.References>, contractNumber: Option<string>)
    requires ShipmentXml(parcel, origin, destination, service, group, options, references, contractNumber).Success?
    ensures var root := ShipmentXml(parcel, origin, destination, service, group, options, references, contractNumber).value;
            Tags(root.children[2].children) ==
              ["service-code", "sender", "destination"] +
              (if destination.countryCode != "CA" then ["customs"] else []) +
              (if options.Some? then ["options"] else []) +
              ["parcel-characteristics", "print-preferences", "preferences"] +
              (if references.Some? then ["references"] else []) +
              ["settlement-info"]
  {
    ShipmentParts(parcel, origin, destination, service, group, options, references, contractNumber);
    var spec := DeliverySpec(service, SenderXml(origin).value, DestinationXml(destination, service).value,
                             CustomsPart(destination, parcel).value, OptionsPart(options),
                             ParcelXml(parcel).value, ReferencesPart(references).value,
                             SettlementXml(contractNumber).value);
    ShipmentRoot(group, origin, destination, spec);
    PartKinds(parcel, origin, destination, service, options, references, contractNumber);
    DeliverySpecTagsOf(service, SenderXml(origin).value, DestinationXml(destination, service).value,
                       CustomsPart(destination, parcel).value, OptionsPart(options),
                       ParcelXml(parcel).value, ReferencesPart(references).value,
                       SettlementXml(contractNumber).value);
  }

  /** The tag list of `delivery-spec` names `customs` exactly outside Canada. */
  lemma CustomsTagIffAbroad(countryCode: string, hasOptions: bool, hasReferences: bool)
    ensures "customs" in ["service-code", "sender", "destination"] +
                         (if countryCode != "CA" then ["customs"] else []) +
                         (if hasOptions then ["options"] else []) +
                         ["parcel-characteristics", "print-preferences", "preferences"] +
                         (if hasReferences then ["references"] else []) +
                         ["settlement-info"]
            <==> countryCode != "CA"
  {
    var customs := if countryCode != "CA" then ["customs"] else [];
    var rest := (if hasOptions then ["options"] else []) +
                ["parcel-characteristics", "print-preferences", "preferences"] +
                (if hasReferences then ["references"] else []) +
                ["settlement-info"];
    assert "customs" !in rest;
    assert "customs" in ["service-code", "sender", "destination"] + customs + rest <==> "customs" in customs;
  }

  /** The `customs` element is part of the request exactly when the
      destination is outside Canada. */
  lemma CustomsIffAbroad(parcel: Parcel, origin: Address, destination: Address, service: string, group: string,
                         options: Option<seq<Node>>, references: Option<References.References>,
                         contractNumber: Option<string>)
    requires ShipmentXml(parcel, origin, destination, service, group, options, references, contractNumber).Success?
    ensures var root := ShipmentXml(parcel, origin, destination, service, group, options, references, contractNumber).value;
            "customs" in Tags(root.children[2].children) <==> destination.countryCode != "CA"
  {
    DeliverySpecTags(parcel, origin, destination, service, group, options, references, contractNumber);
    CustomsTagIffAbroad(destination.countryCode, options.Some?, references.Some?);
  }
}
