/** The request document of `GetRates` (canada_post/service/rating.py): a
    `mailing-scenario` element built by successive `SubElement` calls. The
    local `add_child` ignores its `parent` argument, so every element becomes
    a direct child of the root, in call order. */
module Rating {
  import opened Common
  import opened Text
  import opened Xml
  import opened Address
  import opened Parcels

  /** `CUSTOMER_NUMBER` (canada_post/__init__.py) */
  const CustomerNumber := ""

  const RateNamespace := "http://www.canadapost.ca/ws/ship/rate"

  /** A value assigned to an element's `.text`. */
  datatype PyValue = PyStr(s: string) | PyInt(i: int)

  /** The TypeError lxml raises for a `.text` that is not a string. */
  const TextNotString := WrongType("Argument must be bytes or unicode, got 'int'")

  /** `add_child(tag).text = v`: lxml accepts strings only. */
  function SetText(tag: string, v: PyValue): (r: Result<Node>)
    ensures r.Success? <==> v.PyStr?
    ensures v.PyStr? ==> r.value == Leaf(tag, Some(v.s))
    ensures v.PyInt? ==> r.error == TextNotString
  {
    match v
    case PyStr(s) => Success(Leaf(tag, Some(s)))
    case PyInt(_) => Failure(TextNotString)
  }

  /** The destination branch: exactly one of domestic, United States or international. */
  function DestinationPart(destination: Address): seq<Node> {
    if destination.countryCode == "CA" then
      [Element("domestic", []), Leaf("postal-code", Some(destination.postalCode))]
    else if destination.countryCode == "US" then
      [Element("united-states", []), Leaf("zip-code", Some(destination.postalCode))]
    else
      [Element("international", []), Leaf("country-code", Some(destination.countryCode))]
  }

  /** The nine elements every request starts with, the measures among them. */
  function FixedPart(weight: Node, length: Node, width: Node, height: Node, origin: Address): seq<Node> {
    [Leaf("customer-number", Some(CustomerNumber)),
     Element("parcel-characteristics", []),
     weight,
     Element("dimensions", []),
     length,
     width,
     height,
     Leaf("origin-postal-code", Some(origin.postalCode)),
     Element("destination", [])]
  }

  /** The document once the four parcel measures have their elements. */
  function ScenarioOf(weight: Node, length: Node, width: Node, height: Node,
                      origin: Address, destination: Address): Node {
    Node("mailing-scenario", None, map["xmlns" := RateNamespace],
         FixedPart(weight, length, width, height, origin) + DestinationPart(destination))
  }

  /** The request as rating.py:20-49 builds it: the parcel's numbers are
      assigned to `.text` as they are, and lxml refuses the first of them, so
      every request fails at the `weight` element, whatever the parcel. */
  function ScenarioAsWritten(parcel: Parcel, origin: Address, destination: Address): (r: Result<Node>)
    ensures r == Failure(TextNotString)
  {
    match SetText("weight", PyInt(parcel.weight))
    case Failure(e) => Failure(e)
    case Success(weight) =>
      match SetText("lenght", PyInt(parcel.length))
      case Failure(e) => Failure(e)
      case Success(length) =>
        match SetText("width", PyInt(parcel.width))
        case Failure(e) => Failure(e)
        case Success(width) =>
          match SetText("height", PyInt(parcel.height))
          case Failure(e) => Failure(e)
          case Success(height) => Success(ScenarioOf(weight, length, width, height, origin, destination))
  }

  /** The request with each number written by `unicode()`, as CreateShipment
      writes the same measures. */
  function Scenario(parcel: Parcel, origin: Address, destination: Address): Node {
    ScenarioOf(Leaf("weight", Some(FromInt(parcel.weight))),
               Leaf("lenght", Some(FromInt(parcel.length))),
               Leaf("width", Some(FromInt(parcel.width))),
               Leaf("height", Some(FromInt(parcel.height))),
               origin, destination)
  }

  /** `GetRates.__call__` up to the request: the root is created, then each
      `add_child` appends to it. */
  method BuildScenario(parcel: Parcel, origin: Address, destination: Address) returns (r: Node)
    ensures r == Scenario(parcel, origin, destination)
  {
    var weight := Leaf("weight", Some(FromInt(parcel.weight)));
    var length := Leaf("lenght", Some(FromInt(parcel.length)));
    var width := Leaf("width", Some(FromInt(parcel.width)));
    var height := Leaf("height", Some(FromInt(parcel.height)));
    var children: seq<Node> := [];
    children := children + [Leaf("customer-number", Some(CustomerNumber))];
    children := children + [Element("parcel-characteristics", [])];
    children := children + [weight];
    children := children + [Element("dimensions", [])];
    children := children + [length];
    children := children + [width];
    children := children + [height];
    children := children + [Leaf("origin-postal-code", Some(origin.postalCode))];
    children := children + [Element("destination", [])];
    assert children == FixedPart(weight, length, width, height, origin);
    children := AddDestination(children, destination);
    r := Node("mailing-scenario", None, map["xmlns" := RateNamespace], children);
  }

  /** The `if`/`elif`/`else` on the country code ending `GetRates.__call__`. */
  method AddDestination(children: seq<Node>, destination: Address) returns (r: seq<Node>)
    ensures r == children + DestinationPart(destination)
  {
    r := children;
    if destination.countryCode == "CA" {
      r := r + [Element("domestic", [])];
      r := r + [Leaf("postal-code", Some(destination.postalCode))];
    } else if destination.countryCode == "US" {
      r := r + [Element("united-states", [])];
      r := r + [Leaf("zip-code", Some(destination.postalCode))];
    } else {
      r := r + [Element("international", [])];
      r := r + [Leaf("country-code", Some(destination.countryCode))];
    }
  }

  // ---------------------------------------------------------------------
  // Properties

  /** Had the measures been strings, the as-written steps would give the
      corrected document: the two differ only in the type of the texts. */
  lemma AsWrittenWithStrings(parcel: Parcel, origin: Address, destination: Address)
    ensures Scenario(parcel, origin, destination) ==
              ScenarioOf(SetText("weight", PyStr(FromInt(parcel.weight))).value,
                         SetText("lenght", PyStr(FromInt(parcel.length))).value,
                         SetText("width", PyStr(FromInt(parcel.width))).value,
                         SetText("height", PyStr(FromInt(parcel.height))).value,
                         origin, destination)
  {
  }

  /** The fixed tags, the `length` element spelled `lenght`. */
  lemma FixedTags(weight: Node, length: Node, width: Node, height: Node, origin: Address)
    requires weight.tag == "weight" && length.tag == "lenght" && width.tag == "width" && height.tag == "height"
    ensures Tags(FixedPart(weight, length, width, height, origin)) ==
              ["customer-number", "parcel-characteristics", "weight", "dimensions", "lenght",
               "width", "height", "origin-postal-code", "destination"]
  {
  }

  /** The tags of the destination branch the country code selects. */
  lemma DestinationTags(destination: Address)
    ensures Tags(DestinationPart(destination)) ==
              (if destination.countryCode == "CA" then ["domestic", "postal-code"]
               else if destination.countryCode == "US" then ["united-states", "zip-code"]
               else ["international", "country-code"])
  {
  }

  /** The tags in document order: nine fixed elements, then the two elements
      of one destination branch. */
  lemma ScenarioTags(parcel: Parcel, origin: Address, destination: Address)
    ensures Tags(Scenario(parcel, origin, destination).children) ==
              ["customer-number", "parcel-characteristics", "weight", "dimensions", "lenght",
               "width", "height", "origin-postal-code", "destination"] +
              (if destination.countryCode == "CA" then ["domestic", "postal-code"]
               else if destination.countryCode == "US" then ["united-states", "zip-code"]
               else ["international", "country-code"])
  {
    var fixed := FixedPart(Leaf("weight", Some(FromInt(parcel.weight))), Leaf("lenght", Some(FromInt(parcel.length))),
                           Leaf("width", Some(FromInt(parcel.width))), Leaf("height", Some(FromInt(parcel.height))), origin);
    FixedTags(fixed[2], fixed[4], fixed[5], fixed[6], origin);
    DestinationTags(destination);
    TagsConcat(fixed, DestinationPart(destination));
  }

  /** Exactly one destination branch is present, chosen by the country code. */
  lemma OneDestinationBranch(parcel: Parcel, origin: Address, destination: Address)
    ensures var tags := Tags(Scenario(parcel, origin, destination).children);
            && ("domestic" in tags <==> destination.countryCode == "CA")
            && ("united-states" in tags <==> destination.countryCode == "US")
            && ("international" in tags <==> destination.countryCode != "CA" && destination.countryCode != "US")
  {
    ScenarioTags(parcel, origin, destination);
    var fixedTags := ["customer-number", "parcel-characteristics", "weight", "dimensions", "lenght",
                      "width", "height", "origin-postal-code", "destination"];
    // none of the branch tags has the length of a fixed tag
    assert "domestic" !in fixedTags && "united-states" !in fixedTags && "international" !in fixedTags;
    assert "united-states"[0] != "international"[0];
  }

  /** Every element is a direct child of the root and has no children of its own. */
  lemma ScenarioFlat(parcel: Parcel, origin: Address, destination: Address)
    ensures var r := Scenario(parcel, origin, destination);
            && r.tag == "mailing-scenario" && r.attrs == map["xmlns" := RateNamespace]
            && |r.children| == 11
            && forall i :: 0 <= i < |r.children| ==> r.children[i].children == []
  {
  }

  /** `find` on the fixed elements yields each measure and the origin's
      postal code: no earlier element has the same tag. */
  lemma FixedFound(weight: Node, length: Node, width: Node, height: Node, origin: Address, i: nat)
    requires weight.tag == "weight" && length.tag == "lenght" && width.tag == "width" && height.tag == "height"
    requires i in {2, 4, 5, 6, 7}
    ensures var ns := FixedPart(weight, length, width, height, origin);
            FindIn(ns, ns[i].tag) == Some(ns[i])
  {
    var ns := FixedPart(weight, length, width, height, origin);
    FindInFirst(ns, ns[i].tag, i);
  }

  /** The first child carries the customer number, and the origin postal code
      is the origin's own. */
  lemma ScenarioOrigin(parcel: Parcel, origin: Address, destination: Address)
    ensures var r := Scenario(parcel, origin, destination);
            && r.children[0] == Leaf("customer-number", Some(CustomerNumber))
            && Find(r, "origin-postal-code") == Some(Leaf("origin-postal-code", Some(origin.postalCode)))
  {
    var fixed := FixedPart(Leaf("weight", Some(FromInt(parcel.weight))), Leaf("lenght", Some(FromInt(parcel.length))),
                           Leaf("width", Some(FromInt(parcel.width))), Leaf("height", Some(FromInt(parcel.height))), origin);
    FixedFound(fixed[2], fixed[4], fixed[5], fixed[6], origin, 7);
    FindInExtend(fixed, DestinationPart(destination), "origin-postal-code");
  }

  /** The destination is described by its postal code in Canada, its ZIP
      code in the United States and its country code elsewhere. */
  lemma ScenarioDestination(parcel: Parcel, origin: Address, destination: Address)
    ensures var r := Scenario(parcel, origin, destination);
            && (destination.countryCode == "CA" ==>
                  Find(r, "postal-code") == Some(Leaf("postal-code", Some(destination.postalCode))))
            && (destination.countryCode == "US" ==>
                  Find(r, "zip-code") == Some(Leaf("zip-code", Some(destination.postalCode))))
            && (destination.countryCode != "CA" && destination.countryCode != "US" ==>
                  Find(r, "country-code") == Some(Leaf("country-code", Some(destination.countryCode))))
  {
    var weight, length := Leaf("weight", Some(FromInt(parcel.weight))), Leaf("lenght", Some(FromInt(parcel.length)));
    var width, height := Leaf("width", Some(FromInt(parcel.width))), Leaf("height", Some(FromInt(parcel.height)));
    var fixed := FixedPart(weight, length, width, height, origin);
    var dest := DestinationPart(destination);
    FixedTags(weight, length, width, height, origin);
    if destination.countryCode == "CA" {
      assert FindIn(dest, "postal-code") == Some(dest[1]) by { FindInFirst(dest, "postal-code", 1); }
      FindInSkip(fixed, dest, "postal-code");
    } else if destination.countryCode == "US" {
      assert FindIn(dest, "zip-code") == Some(dest[1]) by { FindInFirst(dest, "zip-code", 1); }
      FindInSkip(fixed, dest, "zip-code");
    } else {
      assert FindIn(dest, "country-code") == Some(dest[1]) by { FindInFirst(dest, "country-code", 1); }
      FindInSkip(fixed, dest, "country-code");
    }
  }

  /** The four measures are always emitted and read back as the parcel's numbers. */
  lemma MeasuresRoundTrip(parcel: Parcel, origin: Address, destination: Address)
    ensures var r := Scenario(parcel, origin, destination);
            && Find(r, "weight") == Some(Leaf("weight", Some(FromInt(parcel.weight))))
            && Find(r, "lenght") == Some(Leaf("lenght", Some(FromInt(parcel.length))))
            && Find(r, "width") == Some(Leaf("width", Some(FromInt(parcel.width))))
            && Find(r, "height") == Some(Leaf("height", Some(FromInt(parcel.height))))
            && ParseInt(FromInt(parcel.weight)) == Some(parcel.weight)
            && ParseInt(FromInt(parcel.length)) == Some(parcel.length)
            && ParseInt(FromInt(parcel.width)) == Some(parcel.width)
            && ParseInt(FromInt(parcel.height)) == Some(parcel.height)
  {
    var fixed := FixedPart(Leaf("weight", Some(FromInt(parcel.weight))), Leaf("lenght", Some(FromInt(parcel.length))),
                           Leaf("width", Some(FromInt(parcel.width))), Leaf("height", Some(FromInt(parcel.height))), origin);
    var dest := DestinationPart(destination);
    FixedFound(fixed[2], fixed[4], fixed[5], fixed[6], origin, 2);
    FindInExtend(fixed, dest, "weight");
    FixedFound(fixed[2], fixed[4], fixed[5], fixed[6], origin, 4);
    FindInExtend(fixed, dest, "lenght");
    FixedFound(fixed[2], fixed[4], fixed[5], fixed[6], origin, 5);
    FindInExtend(fixed, dest, "width");
    FixedFound(fixed[2], fixed[4], fixed[5], fixed[6], origin, 6);
    FindInExtend(fixed, dest, "height");
    ParseIntFromInt(parcel.weight);
    ParseIntFromInt(parcel.length);
    ParseIntFromInt(parcel.width);
    ParseIntFromInt(parcel.height);
  }
}
