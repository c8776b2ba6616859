# python-canada-post, modelled in Dafny

A model of the request-building and response-reading core of
`python-canada-post`, a client for Canada Post's web services. It covers:

- **addresses** (`canada_post/util/address.py`): the postal code is
  normalised and the city is limited to 40 characters. A street address is
  stored as two lines. A tuple's parts may each have at most 44 characters.
  A one-line address may have at most 88 characters. It is cut before the
  last space among its first 44 characters, or before its last character
  when there is no such space. Only the second line is then limited to 44
  characters, so the first can be longer;
- **the CreateShipment request**: the `shipment` document with its sender,
  destination, customs declaration, parcel characteristics, references and
  settlement, and every `assert` that refuses a request;
- **the TransmitShipments request**: the `transmit-set` document naming the
  groups of shipments to put in a manifest;
- **references and cost centres** (`canada_post/util/references.py`) with
  their 30 and 35 character caps;
- **the GetRates request** (`canada_post/service/rating.py`): the flat
  `mailing-scenario` document;
- **amounts** (`canada_post/util/money.py`): `get_decimal`, `Adjustment` read
  from XML, and the fields `Price` computes;
- **responses**: `Shipment` and `Manifest` read from an already-parsed tree,
  the shipment ids of a manifest, and `GetArtifact`'s decision on the HTTP
  status.

XML is a value, `Xml.Node(tag, text, attrs, children)`, with lxml's `find`,
`findall` and `.text` as functions. Every Python exception is a
`Common.Error` value inside a `Result`:

- a failed `assert` is `Invalid(reason)`;
- reading `.text` of a `find` that found nothing is `MissingElement`;
- an attribute the object never received is `MissingAttribute`;
- a `KeyError` is `MissingKey`;
- an `IndexError` is `IndexOutOfRange`;
- a `decimal.InvalidOperation` is `InvalidDecimal`;
- a `TypeError` is `WrongType`.

The first failure in source order is the one a function returns.

The builders (`_create_address_detail`, `CreateShipment.__call__`,
`TransmitShipments.__call__`, `References.make_xml`, `GetRates.__call__`) are
methods. They append children one at a time and loop over items, options,
group ids and excluded shipments. Each is proved equal to a function that
describes the finished document, and the properties are lemmas about those
functions. The response loops (`Shipment._from_xml`, `GetManifestShipments`)
are methods proved the same way.

The quirks of the source are kept:

- rating.py's `add_child` ignores its `parent`, so the rating document is flat;
- the tag `lenght` is kept as spelled;
- `additional-address-info` goes on the shipment root;
- the phone-requiring service codes include `INT.PK.PAK`, where the comment
  above them names `INT.PW.PAK`;
- `rfind` giving -1 splits a street line before its last character;
- `unicode(None)` writes the text "None" for a missing phone in the manifest
  address;
- building a `Price` always fails, because `sum()` is called with no argument (see Findings).

## Model

| member | source | states |
|---|---|---|
| Text.NormalisePostalCode | canada_post/util/address.py:7 | the stored code has no space and no lower-case letter, and is shorter than the input by exactly its number of spaces |
| Text.NormaliseDropsSpace | canada_post/util/address.py:7 | a space is removed wherever it stands: the code of `a + " " + b` is the code of `a` followed by the code of `b` |
| Text.NormaliseIdempotent | canada_post/util/address.py:7 | normalising an already-normalised postal code changes nothing |
| Text.NormaliseWithoutSpaces | canada_post/util/address.py:7 | a code without spaces keeps its length and each character is upper-cased in place |
| Text.NormaliseConcat | canada_post/util/address.py:7 | normalising distributes over concatenation |
| Text.ParseIntFromInt | canada_post/service/contract_shipping.py:227-233 | an integer written by `unicode()` reads back as the same integer |
| Text.Strip | canada_post/util/address.py:24-25 | the result is no longer than the input, begins and ends with no whitespace, is shorter when the input begins or ends with whitespace, and is the input itself when it holds no whitespace |
| Text.StripIsInfix | canada_post/util/address.py:24-25 | the result is a slice `s[i..j]` of the input, and every character before `i` and from `j` on is whitespace |
| Text.ReplaceDash | canada_post/service/contract_shipping.py:56 | same length, every '-' becomes '_', every other character is kept, and no '-' remains |
| Text.Basename | canada_post/service/contract_shipping.py:473 | the id is a suffix of the URL with no '/', preceded by '/' when shorter than the URL |
| Address.SplitIndex | canada_post/util/address.py:23 | `rfind(" ", 0, 44)` is -1 or an index below 44 inside the line; it holds a space, and no later index below 44 does |
| Address.SplitLine | canada_post/util/address.py:21-28 | a line over 88 characters is refused; on success both lines are set and the second has at most 44 characters |
| Address.SplitStreet | canada_post/util/address.py:12-30 | an absent or empty street address stores None in both lines |
| Address.NewAddressBase | canada_post/util/address.py:4-40 | accepted exactly when the street splits and a truthy city has at most 40 characters; the postal code is stored normalised and every other field unchanged |
| Address.NewOrigin | canada_post/util/address.py:42-45 | accepted exactly when the street splits and a truthy city has at most 40 characters; the postal code is stored normalised, the country code as given, and no extra line |
| Address.NewDestination | canada_post/util/address.py:47-51 | accepted under the same conditions as an Origin; the postal code is stored normalised, and the country code and the extra line as given |
| Address.StreetPartsStored | canada_post/util/address.py:13-19 | a tuple is accepted exactly when it has two or more parts of at most 44 characters, and its first two parts are stored unchanged |
| Address.SplitAtSpaceFirstLineShort | canada_post/util/address.py:23-24 | with a space among the first 44 characters, the first line has at most 43 characters |
| Address.SplitWithoutSpace | canada_post/util/address.py:23-25 | with no space among the first 44 characters, the first line is all but the last character and the second is the last character |
| Address.SplitSucceedsWhenRestFits | canada_post/util/address.py:21-28 | a line of at most 88 characters, with a space among its first 44 leaving at most 44 characters after it, is accepted |
| Address.SplitAtLastSpace | canada_post/util/address.py:21-28 | a line of at most 88 characters whose last space below index 44 follows the part `a` is cut there: the lines are `a` and the rest, stripped, and the line is refused exactly when the stripped rest exceeds 44 characters |
| Address.CityChecked | canada_post/util/address.py:32-34 | the address is refused exactly when the city is longer than 40 characters; an absent city is not checked |
| Address.OriginDefaultsToCanada | canada_post/util/address.py:42-45 | an Origin built without a country code is in "CA" and has no street lines |
| Xml.TextOf | canada_post/service/contract_shipping.py:67 | `.text` of a `find` fails exactly when nothing was found, and is the found element's text otherwise |
| Dict.FromPairsSucceeds | canada_post/service/contract_shipping.py:49-53 | the dictionary is built exactly when every entry can be computed |
| Dict.FromPairsLastWins | canada_post/service/contract_shipping.py:49-53 | a key is present exactly when some entry has it, and its value comes from the last such entry |
| Dict.FromPairsPrefixFailure | canada_post/service/contract_shipping.py:43-57 | the first entry that raises is the failure of the whole loop |
| CreateShipment.CreateAddressDetail | canada_post/service/contract_shipping.py:99-119 | the appended children equal `AddressDetails`, including its failure |
| CreateShipment.AddressDetailsAccepted | canada_post/service/contract_shipping.py:111-119 | refused exactly when the postal code is empty and the country is US or CA, with the country in the error |
| CreateShipment.AddressDetailsTags | canada_post/service/contract_shipping.py:104-114 | children in the order address-line-1, address-line-2, city, then prov-state only for a truthy province, then country-code, then postal-zip-code only for a non-empty postal code |
| CreateShipment.AddressDetailsRoundTrip | canada_post/service/contract_shipping.py:104-114 | `find` on each tag gives back the address's own field, and prov-state and postal-zip-code are absent exactly when not written |
| CreateShipment.BuildSender | canada_post/service/contract_shipping.py:153-168 | the sender built step by step equals `SenderXml`, its failures included |
| CreateShipment.SenderAccepted | canada_post/service/contract_shipping.py:156-168 | the sender is accepted exactly when it has a company, a phone, an address line, a city, a province and an acceptable postal code |
| CreateShipment.SenderContents | canada_post/service/contract_shipping.py:153-168 | sender children: the name only when truthy, then company, contact-phone and address-details, each holding the origin's own text |
| CreateShipment.BuildDestination | canada_post/service/contract_shipping.py:172-203 | the destination built step by step equals `DestinationXml`; the extra line is returned apart, for the root |
| CreateShipment.DestinationAccepted | canada_post/service/contract_shipping.py:183-203 | the destination is accepted exactly when it has a phone or the service does not require one, an address line, a province or a country outside CA/US, and an acceptable postal code |
| CreateShipment.PhoneRequired | canada_post/service/contract_shipping.py:183-194 | without a truthy phone, the destination fails with the service code exactly when the code is in the seven-code list |
| CreateShipment.PwPakWithoutPhone | canada_post/service/contract_shipping.py:186-192 | the list holds `INT.PK.PAK` and not `INT.PW.PAK`, which the comment names |
| CreateShipment.DestinationTags | canada_post/service/contract_shipping.py:172-203 | destination children: name, company and client-voice-number each only when truthy, then address-details |
| CreateShipment.ExtraNotInDestination | canada_post/service/contract_shipping.py:181-182 | `additional-address-info` is never a child of `destination` |
| CreateShipment.ItemsXml | canada_post/service/contract_shipping.py:225-233 | one `item` element per parcel item |
| CreateShipment.BuildCustoms | canada_post/service/contract_shipping.py:207-233 | the customs part built by the loop over the items equals `CustomsPart`, its failures included |
| CreateShipment.ItemRoundTrip | canada_post/service/contract_shipping.py:226-233 | an `item` element reads back as the item: units, description, weight and value |
| CreateShipment.ItemsXmlAt | canada_post/service/contract_shipping.py:225-226 | the i-th `item` element is written from the i-th item |
| CreateShipment.SkuListRoundTrip | canada_post/service/contract_shipping.py:222-233 | `findall("item")` on the sku list yields one element per item, in order, each reading back as its item |
| CreateShipment.CustomsAccepted | canada_post/service/contract_shipping.py:207-224 | customs pass exactly in Canada or with a non-empty item list; a missing list is a missing attribute and an empty one is refused |
| CreateShipment.CustomsContents | canada_post/service/contract_shipping.py:207-233 | the `customs` element is there exactly outside CA, with currency CAD, reason SOG and the list of the parcel's items |
| CreateShipment.BuildOptions | canada_post/service/contract_shipping.py:238-241 | the options element holds the given option elements in order, and is absent when no options are given |
| CreateShipment.BuildParcelCharacteristics | canada_post/service/contract_shipping.py:245-254 | the parcel characteristics built step by step equal `ParcelXml` |
| CreateShipment.ParcelAccepted | canada_post/service/contract_shipping.py:252-254 | the parcel part fails exactly when the parcel never received `unpackaged` |
| CreateShipment.ParcelTags | canada_post/service/contract_shipping.py:245-254 | children: weight, then dimensions only when all three measures are positive, then unpackaged |
| CreateShipment.DimensionsOnlyWhenPositive | canada_post/service/contract_shipping.py:247-251 | `dimensions` is present exactly when length, width and height are all positive |
| CreateShipment.DimensionsRoundTrip | canada_post/service/contract_shipping.py:248-251 | the `dimensions` element reads back as the three measures |
| CreateShipment.ParcelRoundTrip | canada_post/service/contract_shipping.py:245-254 | the weight reads back, `unpackaged` is "true" or "false" by the flag, and `dimensions` is found exactly when written |
| CreateShipment.BuildSettlement | canada_post/service/contract_shipping.py:276-283 | the settlement built step by step equals `SettlementXml`: refused without a truthy contract number |
| CreateShipment.CreateShipmentBody | canada_post/service/contract_shipping.py:141-283 | the document built part by part equals `ShipmentXml`, with the same first failure |
| CreateShipment.ShipmentAccepted | canada_post/service/contract_shipping.py:141-283 | the request is built exactly when the sender, the destination, the customs, the packaging flag, the references and the contract number all pass |
| CreateShipment.SenderCheckedFirst | canada_post/service/contract_shipping.py:156-168 | a sender error is the one reported, whatever else is wrong |
| CreateShipment.ContractCheckedLast | canada_post/service/contract_shipping.py:279-281 | with every other part in order, a missing contract number is what is reported |
| CreateShipment.ShipmentParts | canada_post/service/contract_shipping.py:141-283 | a built request is the root around the delivery spec assembled from each part's own element, and every part succeeded |
| CreateShipment.DeliverySpecTagsOf | canada_post/service/contract_shipping.py:150-283 | delivery-spec children: service-code, sender, destination, customs, options, parcel-characteristics, print-preferences, preferences, references, settlement-info |
| CreateShipment.PartKinds | canada_post/service/contract_shipping.py:207-281 | each part's tags; customs only outside CA, options only when given, references only when given |
| CreateShipment.ShipmentRoot | canada_post/service/contract_shipping.py:141-182 | root `shipment` with the namespace; it holds group-id, requested-shipping-point and delivery-spec, then `additional-address-info` only for a truthy extra line |
| CreateShipment.DeliverySpecTags | canada_post/service/contract_shipping.py:150-283 | in a built request, the delivery-spec tags in order, each optional part present exactly under its condition |
| CreateShipment.CustomsIffAbroad | canada_post/service/contract_shipping.py:207 | a built request contains `customs` exactly when the destination country is not CA |
| References.CostCentreXml | canada_post/util/references.py:23-28 | refused exactly for a name over 30 characters; otherwise one childless `cost-centre` element holding the name |
| References.MakeXml | canada_post/util/references.py:55-77 | the element built by appending children one by one equals `ReferencesXml`, its failures included |
| References.ReferencesAccepted | canada_post/util/references.py:57-75 | `make_xml` succeeds exactly when the cost-centre name is at most 30 characters and each truthy customer reference is at most 35 |
| References.LongCostCentreFails | canada_post/util/references.py:23-58 | a too-long cost-centre name makes `References.make_xml` fail with the cost centre's own error |
| References.ReferencesChildren | canada_post/util/references.py:55-77 | the element holds exactly the cost centre when given, then each truthy customer reference |
| References.ReferencesOrder | canada_post/util/references.py:55-77 | the tags come in the order cost-centre, customer-ref-1, customer-ref-2, each only when its field is set |
| References.FindChild | canada_post/util/references.py:57-75 | `find` on each tag gives the element its field wrote, or nothing for an absent or falsy field |
| References.ReferencesRoundTrip | canada_post/util/references.py:66-75 | reading the element back gives the cost centre and the truthy references unchanged |
| Transmit.AppendIds | canada_post/service/contract_shipping.py:369-399 | the loop appends exactly one element per id, in order |
| Transmit.BuildTransmit | canada_post/service/contract_shipping.py:365-399 | the document built step by step equals `TransmitXml` |
| Transmit.IdLeavesAt | canada_post/service/contract_shipping.py:370-371 | the i-th element holds the i-th id |
| Transmit.IdsRoundTrip | canada_post/service/contract_shipping.py:369-399 | `findall` on the list gives back every id, in input order |
| Transmit.TransmitTags | canada_post/service/contract_shipping.py:365-399 | root `transmit-set` with the manifest namespace; children group-ids, requested-shipping-point, detailed-manifests, method-of-payment and manifest-address, then `excluded-shipments` only for a non-empty list |
| Transmit.TransmitFinds | canada_post/service/contract_shipping.py:365-399 | `find` gives each fixed child, and `excluded-shipments` exactly when the list is non-empty |
| Transmit.TransmitRoundTrip | canada_post/service/contract_shipping.py:369-399 | the group ids and excluded ids read back in order, and detailed-manifests is "true" exactly when detailed |
| Transmit.ManifestAddressTags | canada_post/service/contract_shipping.py:381-392 | manifest-company, then manifest-name only when truthy, then phone-number (the text "None" for a missing phone), then address-details |
| Transmit.ManifestDetailsContents | canada_post/service/contract_shipping.py:387-392 | the five address lines with the origin's own texts; prov-state is always present |
| Rating.SetText | canada_post/service/rating.py:28-34 | `.text` accepts a string and keeps it; a number raises TypeError |
| Rating.BuildScenario | canada_post/service/rating.py:20-49 | the flat document built by successive `add_child` calls equals `Scenario` |
| Rating.AddDestination | canada_post/service/rating.py:39-49 | exactly the branch the country code selects is appended |
| Rating.ScenarioAsWritten | canada_post/service/rating.py:20-34 | as written, every request fails with TypeError at the `weight` element, whatever the parcel |
| Rating.AsWrittenWithStrings | canada_post/service/rating.py:20-49 | had the measures been strings, the as-written steps give exactly `Scenario` |
| Rating.FixedTags | canada_post/service/rating.py:24-39 | the nine fixed tags in call order, `lenght` as spelled |
| Rating.DestinationTags | canada_post/service/rating.py:40-49 | CA gives domestic and postal-code, US gives united-states and zip-code, anything else gives international and country-code |
| Rating.ScenarioTags | canada_post/service/rating.py:20-49 | all eleven tags of the document in call order |
| Rating.OneDestinationBranch | canada_post/service/rating.py:40-49 | exactly one destination branch is present, chosen by the country code |
| Rating.ScenarioFlat | canada_post/service/rating.py:22-23 | every element is a childless direct child of `mailing-scenario`, which carries the rate namespace |
| Rating.FixedFound | canada_post/service/rating.py:28-36 | `find` on a measure or the origin postal code yields that element |
| Rating.ScenarioOrigin | canada_post/service/rating.py:24-36 | the first child is customer-number with CUSTOMER_NUMBER, and origin-postal-code holds the origin's code |
| Rating.ScenarioDestination | canada_post/service/rating.py:40-49 | the destination's postal code, ZIP code or country code is what the branch holds |
| Rating.MeasuresRoundTrip | canada_post/service/rating.py:28-34 | the four measures are always emitted and read back as the parcel's numbers |
| Money.Add | canada_post/util/money.py:44 | `Decimal` addition keeps as many places as the longer operand |
| Money.AddExact | canada_post/util/money.py:44 | at any common number of places, the sum's coefficient is the sum of the coefficients |
| Money.AddCommutes | canada_post/util/money.py:44 | addition of amounts commutes |
| Money.AddZero | canada_post/util/money.py:4-44 | adding 0.00 to an amount with two or more places changes nothing |
| Money.RescaleTwice | canada_post/util/money.py:44 | rescaling in two steps is rescaling once |
| Money.GetDecimal | canada_post/util/money.py:6-7 | None or "" give 0.00; other text gives the decimal it denotes, or fails with that text |
| Money.ParseDecimal | canada_post/util/money.py:7 | blank text is refused; the places are fewer than the stripped text's characters; a negative value needs a leading '-', and a leading '-' gives no positive value |
| Money.ParseSignedLiteral | canada_post/util/money.py:7 | on stripped text: empty text is refused, the places are fewer than the characters, and a value is negative only after a leading '-' |
| Money.ParseSigned | canada_post/util/money.py:7 | an unsigned literal reads as itself, and with a leading '-' as its negation, places kept |
| Money.ParseNegated | canada_post/util/money.py:7 | a leading '-' negates the coefficient of the literal that follows and keeps its places |
| Money.ParseDecimalOfInteger | canada_post/util/money.py:7 | an integer written by `unicode()` parses to itself with no places |
| Money.ParseFormatCents | canada_post/util/money.py:7 | a two-place amount parses back exactly, places included |
| Money.GetDecimalOfLiteral | canada_post/util/money.py:6-7 | a non-empty literal gives the decimal it denotes |
| Money.GetDecimalOfInteger | canada_post/util/money.py:6-7 | an integer text gives that integer |
| Money.GetDecimalOfCents | canada_post/util/money.py:6-7 | a cost with two places gives that cost exactly |
| Money.GetDecimalOfNothing | canada_post/util/money.py:6-7 | None and the empty string both give 0.00 |
| Money.GetDecimalRejects | canada_post/util/money.py:7 | a character outside a decimal literal makes `Decimal()` fail with the text |
| Money.AdjustmentFromXml | canada_post/util/money.py:11-15 | built exactly when the four queries find elements and the cost text parses; the code, name and percent are the `.text` of the found elements and the cost is `get_decimal` of the cost element's text, for any element layout; a missing code is the first failure |
| Money.AdjustmentXmlFinds | canada_post/util/money.py:12-15 | the four queries, `qualifier/percent` included, find what the element holds |
| Money.AdjustmentRoundTrip | canada_post/util/money.py:11-15 | an adjustment element reads back as its code, name, cost in cents and percent |
| Money.EmptyCostIsZero | canada_post/util/money.py:14 | an empty `adjustment-cost` is a cost of 0.00 |
| Money.MissingCodeFails | canada_post/util/money.py:12 | without `adjustment-code` the reading fails on that element first |
| Money.PriceFields | canada_post/util/money.py:24-49 | every amount and percentage is stored as passed, `tax_total` is gst + pst + hst, and `adjustment_total` is the sum of the adjustments' costs, as evidently intended |
| Money.TaxTotalInCents | canada_post/util/money.py:44 | taxes given in cents add up to a tax total in cents |
| Money.TaxTotalExact | canada_post/util/money.py:44 | the tax total is exact at any number of places that holds all three taxes |
| Money.PriceDefaults | canada_post/util/money.py:24-25 | with no argument every amount is 0.00 and there are no adjustments |
| Money.TaxTotalExample | canada_post/util/money.py:44 | a base of 10.00 with 0.50 of GST at 5% has a tax total of 0.50 |
| Money.Sum | canada_post/util/money.py:49 | `sum()` with no iterable raises TypeError; the sum of nothing is 0 |
| Money.NewPrice | canada_post/util/money.py:49 | as written, building a Price always fails with the TypeError of `sum()` |
| Money.SumOfCents | canada_post/util/money.py:49 | `sum()` of amounts all in cents is the sum of their cents, with two places |
| Money.AdjustmentTotalInCents | canada_post/util/money.py:46-49 | with the intended total, adjustments costed in cents total the sum of their costs, and no adjustment totals the integer 0 |
| Money.AdjustmentTotalExample | canada_post/util/money.py:46-49 | adjustments of -1.25 and 0.40 total -0.85 |
| Responses.LinkMapKeyedByRel | canada_post/service/contract_shipping.py:49-53 | the link table is built exactly when every link has `rel`; it holds one entry per `rel`, the attributes of the last link with it |
| Responses.FieldName | canada_post/service/contract_shipping.py:44-57 | an attribute name never contains '-' |
| Responses.ChildEntry | canada_post/service/contract_shipping.py:44-57 | each child sets the attribute its tag maps to |
| Responses.ChildEntrySucceeds | canada_post/service/contract_shipping.py:44-53 | a child is read exactly when it is not `links` or every `link` inside it carries `rel` |
| Responses.ParseShipment | canada_post/service/contract_shipping.py:40-57 | the attributes are read exactly when every child's entry can be computed |
| Responses.NewShipment | canada_post/service/contract_shipping.py:35-38 | built exactly when there is no xml or it parses; every keyword argument is an attribute with its own value, and without xml they are the only attributes |
| Responses.ShipmentFromXml | canada_post/service/contract_shipping.py:40-57 | the loop over the children equals `ParseShipment`, the first failing links table included |
| Responses.ShipmentParses | canada_post/service/contract_shipping.py:48-53 | parsing fails exactly on a `links` child holding a `link` without `rel` |
| Responses.ShipmentFields | canada_post/service/contract_shipping.py:43-57 | an attribute is set exactly when some child maps to it, and holds what the last such child assigned |
| Responses.TextChildField | canada_post/service/contract_shipping.py:44-57 | a child other than `links` sets its attribute to its text when no later child sets the same name |
| Responses.KwargsOverride | canada_post/service/contract_shipping.py:35-38 | keyword arguments override parsed attributes; every other attribute is the parsed one |
| Responses.ParseManifest | canada_post/service/contract_shipping.py:66-68 | a missing `po-number` is the failure; a parsed manifest holds exactly `po_number` and a link table under `links` |
| Responses.NewManifest | canada_post/service/contract_shipping.py:60-64 | built exactly when there is no xml or it parses; every keyword argument is an attribute with its own value, and without xml they are the only attributes |
| Responses.ManifestParses | canada_post/service/contract_shipping.py:66-68 | a manifest needs `po-number`, then `links` whose links all carry `rel`; it then holds exactly `po_number` and `links` |
| Responses.GetAttr | canada_post/service/contract_shipping.py:34-60 | the lookup succeeds exactly for the object's own attributes and the class attribute `artifact_type` |
| Responses.Dispatch | canada_post/service/contract_shipping.py:531-534 | an HTTP error carries the response's own status, which is not ok; a payload is the body of an ok response |
| Responses.ArtifactHref | canada_post/service/contract_shipping.py:525-527 | an object without `links` fails with that missing attribute; a followed link comes from a link table |
| Responses.GetArtifact | canada_post/service/contract_shipping.py:523-534 | fails exactly when the artifact link cannot be followed, with that error; otherwise it returns the link's href with the outcome of the response |
| Responses.DispatchCases | canada_post/service/contract_shipping.py:531-534 | 202 is not ready; 400 to 599 is an HTTP error with that status; anything else returns the body unchanged |
| Responses.ArtifactLinkByKind | canada_post/service/contract_shipping.py:525-527 | a Shipment follows its `label` link and a Manifest its `artifact` link; a missing link is a missing key |
| Responses.ArtifactWithoutLinks | canada_post/service/contract_shipping.py:525 | an object without links fails before its artifact type is read |
| Responses.ManifestShipmentsLink | canada_post/service/contract_shipping.py:458 | the shipments are fetched from the href of the `manifestShipments` link |
| Responses.ShipmentIds | canada_post/service/contract_shipping.py:470-474 | one id per link |
| Responses.ManifestShipmentIds | canada_post/service/contract_shipping.py:470-474 | the loop over `findall('link')` equals `ShipmentIds`, failing at the first link without `href` |
| Responses.ShipmentIdsStep | canada_post/service/contract_shipping.py:470-474 | one more link appends the basename of its href, or fails with the missing key `href` |
| Responses.ShipmentIdsSucceed | canada_post/service/contract_shipping.py:470-474 | ids are read exactly when every link has `href` |
| Responses.ShipmentIdAt | canada_post/service/contract_shipping.py:470-474 | the i-th id is the last path segment of the i-th link's href |
| Responses.ShipmentIdsFromLinks | canada_post/service/contract_shipping.py:470-474 | ids are read exactly when every link has `href`; the i-th id is the last path segment of the i-th link's href and holds no '/' |

## Left out

- HTTP transport is not modelled: `requests` calls, headers, URL building, `get_server`, `raise_for_status`, and the GET/POST/DELETE of every service. Responses are parameters: a parsed tree, or a status and a body.
- lxml serialisation and parsing (`etree.tostring`, `etree.XML`) and the textual `xmlns` stripping are not modelled; responses are taken as parsed trees.
- Logging, `NamedTemporaryFile` in GetArtifact, GetManifests' date formatting and GetGroups' query are not modelled.
- GetArtifact's temporary file is not modelled; its result is the response body.
- `Wait` in canada_post/errors.py is a function, not an exception class, so `raise Wait` at canada_post/service/contract_shipping.py:532 would itself raise a TypeError. The model keeps the intended meaning: the 202 case is the `NotReady` outcome.
- `Option.make_xml`, `CallLinkService` and `VoidShipment` are not part of this model. Options are taken as already-built option elements.
- `add_child_factory` is not a member of its own. Each builder appends to the child list of the element being built, which gives the same tree.
- lxml aliasing is not modelled. Python attaches an element to its parent before filling it; the model completes each element and then attaches it. The finished tree is the same.
- The contract number comes from `auth.contract_number`, which the shown `Auth` class does not define; it is a parameter.
- The debug flag and `pretty_print` only change the serialised text, so they are left out.
- Parcel measures and item numbers are integers written with `unicode()`; floats are not modelled.
- Parcel `unpackaged` and `items`: an attribute set explicitly to None is not distinguished from a missing one. A missing `items` or `unpackaged` is `MissingAttribute`.
- Money.GetDecimal: only finite literals in positional notation are parsed. Exponents, `Infinity`, `NaN` and digit-group underscores are refused rather than read.
- Money.Add: it models `Decimal` addition exactly. The 28-digit context rounding of Python's `decimal` is not modelled.
- Responses: the response objects are modelled by their attribute dictionaries, and `InfoObject.__repr__` is left out.
- Keyword arguments are modelled as attribute values of the same two kinds that parsing produces: element text or a link table.
- Responses.LinkAt: the messages of the TypeErrors for a non-dictionary `links` or an unhashable `artifact_type` are the model's own.
- Text.Strip, Text.NormalisePostalCode and the length checks (the 44, 88 and 40 character limits of addresses, the 30 and 35 character limits of references) work on code points, as on `unicode` input. A Python 2 `str` would be measured in UTF-8 bytes, so a non-ASCII address reaches the limits sooner. Upper-casing is ASCII only, and the whitespace set is the six characters Python 2's `str.strip()` removes (space, tab, newline, vertical tab, form feed, carriage return). `unicode.strip()` also removes the separators U+001C to U+001F, U+0085 and non-ASCII spaces such as U+00A0, and `unicode.upper()` also raises non-ASCII letters such as 'é'. The refusal by lxml of NUL and control characters in `.text` is not modelled either.
- Address.NewOrigin takes the postal code first, as a call with keyword arguments does. A positional first argument to `Origin` binds to `country_code` in the source; that call form is not modelled.
- Address: extra keyword arguments, which `InfoObject` stores as attributes, are not modelled for addresses.
- Address: the `*args` check at canada_post/util/address.py:38-39 is not modelled, because the model's constructors take no extra positional arguments.
- TransmitShipments' response (the list of link attribute dictionaries) is not modelled, and neither are GetShipment and GetManifest, which only fetch and parse.

## Findings

| source | as written | input that shows it | evidently intended | confidence | as-written member | corrected member |
|---|---|---|---|---|---|---|
| canada_post/util/money.py:49 | `adjustment_total = sum()` calls `sum` with no iterable, which raises TypeError, so no Price can be built | any call, e.g. `Price()` | the sum of the adjustments' costs | not executed | Money.NewPrice | Money.PriceFields (Money.AdjustmentTotalInCents) |
| canada_post/service/rating.py:28-34 | the parcel's numbers are assigned to `.text` as they are, and lxml refuses a number there with TypeError | any Parcel with numeric weight, e.g. the defaults 0, 0, 0, 0 | each number written with `unicode()`, as contract_shipping.py:246-251 does, so the four measures read back as the parcel's numbers | not executed | Rating.ScenarioAsWritten | Rating.BuildScenario (Rating.Scenario, Rating.MeasuresRoundTrip) |
