/** The response side of canada_post/service/contract_shipping.py over an
    already-parsed tree: `Shipment._from_xml`, `Manifest._from_xml`, the
    shipment ids of `GetManifestShipments` and the status dispatch of
    `GetArtifact`. An `InfoObject` is modelled by its attribute dictionary:
    `setattr` in order is a dictionary built in order, where a later
    assignment to the same name wins. */
module Responses {
  import opened Common
  import opened Text
  import opened Xml
  import opened Dict

  /** What an attribute of a response object holds: the text of an element,
      or the table of links keyed by `rel`. */
  datatype Value = TextValue(text: Option<string>) | LinkTable(links: map<string, map<string, string>>)

  type Attrs = map<string, Value>

  // ---------------------------------------------------------------------
  // Links

  /** `(link['rel'], link)` for `link = dict(l.attrib)`. */
  function LinkEntry(l: Node): Result<(string, map<string, string>)> {
    if "rel" in l.attrs then Success((l.attrs["rel"], l.attrs)) else Failure(MissingKey("rel"))
  }

  /** `dict((link['rel'], link) for link in ...)` */
  function LinkMap(links: seq<Node>): Result<map<string, map<string, string>>> {
    FromPairs(links, LinkEntry)
  }

  /** The table holds one entry per distinct `rel`, each the attributes of
      the last link with that `rel`; a link without `rel` fails the whole table. */
  lemma LinkMapKeyedByRel(links: seq<Node>, rel: string)
    ensures LinkMap(links).Success? <==> forall i :: 0 <= i < |links| ==> "rel" in links[i].attrs
    ensures LinkMap(links).Success? ==>
              && (rel in LinkMap(links).value <==> exists i :: 0 <= i < |links| && links[i].attrs["rel"] == rel)
              && (rel in LinkMap(links).value ==>
                    var i := LastIndexOf(links, LinkEntry, rel);
                    && 0 <= i < |links|
                    && links[i].attrs["rel"] == rel
                    && LinkMap(links).value[rel] == links[i].attrs
                    && forall j :: i < j < |links| ==> links[j].attrs["rel"] != rel)
  {
    FromPairsSucceeds(links, LinkEntry);
    if LinkMap(links).Success? {
      FromPairsLastWins(links, LinkEntry, rel);
      LastIndexOfIsLast(links, rel);
      if exists i :: 0 <= i < |links| && links[i].attrs["rel"] == rel {
        var i :| 0 <= i < |links| && links[i].attrs["rel"] == rel;
        assert LinkEntry(links[i]).Success?;
        LastIndexOfFinds(links, rel, i);
      }
    }
  }

  /** No link after the one `LastIndexOf` picks carries its `rel`. */
  lemma {:induction false} LastIndexOfIsLast(links: seq<Node>, rel: string)
    requires forall i :: 0 <= i < |links| ==> "rel" in links[i].attrs
    ensures forall j :: LastIndexOf(links, LinkEntry, rel) < j < |links| ==> links[j].attrs["rel"] != rel
    decreases |links|
  {
    if links != [] && links[|links| - 1].attrs["rel"] != rel {
      var init := links[..|links| - 1];
      LastIndexOfIsLast(init, rel);
    }
  }

  /** A link carrying `rel` is found by `LastIndexOf`. */
  lemma {:induction false} LastIndexOfFinds(links: seq<Node>, rel: string, i: nat)
    requires i < |links| && LinkEntry(links[i]).Success? && LinkEntry(links[i]).value.0 == rel
    ensures LastIndexOf(links, LinkEntry, rel) >= i
    decreases |links|
  {
    if i < |links| - 1 {
      var init := links[..|links| - 1];
      assert init[i] == links[i];
      LastIndexOfFinds(init, rel, i);
    }
  }

  // ---------------------------------------------------------------------
  // Shipment._from_xml

  /** The attribute a child element sets: `shipment-id` sets `id`,
      `shipment-status` sets `status`, `links` sets `links`, and any other tag
      sets the tag with `-` replaced by `_`. */
  function FieldName(tag: string): (name: string)
    ensures '-' !in name
  {
    if tag == "shipment-id" then "id"
    else if tag == "shipment-status" then "status"
    else if tag == "links" then "links"
    else ReplaceDash(tag)
  }

  /** The assignment one child of the response makes. */
  function ChildEntry(child: Node): (r: Result<(string, Value)>)
    ensures r.Success? ==> r.value.0 == FieldName(child.tag)
  {
    if child.tag == "shipment-id" then Success(("id", TextValue(child.text)))
    else if child.tag == "shipment-status" then Success(("status", TextValue(child.text)))
    else if child.tag == "links" then
      var links :- LinkMap(FindAll(child, "link"));
      Success(("links", LinkTable(links)))
    else Success((ReplaceDash(child.tag), TextValue(child.text)))
  }

  /** The attributes `_from_xml` sets, child by child. */
  function ParseShipment(xml: Node): (r: Result<Attrs>)
    ensures r.Success? <==> forall i :: 0 <= i < |xml.children| ==> ChildEntry(xml.children[i]).Success?
  {
    FromPairsSucceeds(xml.children, ChildEntry);
    FromPairs(xml.children, ChildEntry)
  }

  /** `Shipment._from_xml`: the loop over `xml.getchildren()`. */
  method ShipmentFromXml(xml: Node) returns (r: Result<Attrs>)
    ensures r == ParseShipment(xml)
  {
    var children := xml.children;
    var attrs: Attrs := map[];
    for i := 0 to |children|
      invariant FromPairs(children[..i], ChildEntry) == Success(attrs)
    {
      var child := children[i];
      assert children[..i + 1][..i] == children[..i];
      if child.tag == "shipment-id" {
        attrs := attrs["id" := TextValue(child.text)];
      } else if child.tag == "shipment-status" {
        attrs := attrs["status" := TextValue(child.text)];
      } else if child.tag == "links" {
        var links := LinkMap(FindAll(child, "link"));
        if links.Failure? {
          FromPairsPrefixFailure(children, ChildEntry, i + 1);
          return Failure(links.error);
        }
        attrs := attrs["links" := LinkTable(links.value)];
      } else {
        attrs := attrs[ReplaceDash(child.tag) := TextValue(child.text)];
      }
    }
    assert children[..|children|] == children;
    r := Success(attrs);
  }

  /** `Shipment(xml, **kwargs)`: the parsed attributes, then the keyword
      arguments on top of them. */
  function NewShipment(xml: Option<Node>, kwargs: Attrs): (r: Result<Attrs>)
    ensures r.Success? <==> xml.None? || ParseShipment(xml.value).Success?
    ensures r.Success? ==> forall name :: name in kwargs ==> name in r.value && r.value[name] == kwargs[name]
    ensures r.Success? && xml.None? ==> r.value.Keys == kwargs.Keys
  {
    match xml
    case None => Success(kwargs)
    case Some(x) =>
      var parsed :- ParseShipment(x);
      Success(parsed + kwargs)
  }

  /** A child fails only when it is `links` and holds a `link` lacking `rel`. */
  lemma ChildEntrySucceeds(child: Node)
    ensures ChildEntry(child).Success? <==>
              (child.tag == "links" ==> forall l :: l in FindAll(child, "link") ==> "rel" in l.attrs)
  {
    if child.tag == "links" {
      FromPairsSucceeds(FindAll(child, "link"), LinkEntry);
    }
  }

  /** Parsing fails only on a `links` child with a `link` lacking `rel`. */
  lemma ShipmentParses(xml: Node)
    ensures ParseShipment(xml).Success? <==>
              forall i :: 0 <= i < |xml.children| && xml.children[i].tag == "links" ==>
                forall l :: l in FindAll(xml.children[i], "link") ==> "rel" in l.attrs
  {
    FromPairsSucceeds(xml.children, ChildEntry);
    forall i | 0 <= i < |xml.children|
      ensures ChildEntry(xml.children[i]).Success? <==>
                (xml.children[i].tag == "links" ==>
                   forall l :: l in FindAll(xml.children[i], "link") ==> "rel" in l.attrs)
    {
      ChildEntrySucceeds(xml.children[i]);
    }
  }

  /** Every attribute of a parsed shipment is named after a child: the
      attribute is set exactly when some child maps to its name, and holds
      what the last such child assigns. No attribute name contains '-'. */
  lemma ShipmentFields(xml: Node, name: string)
    requires ParseShipment(xml).Success?
    ensures name in ParseShipment(xml).value ==> '-' !in name
    ensures name in ParseShipment(xml).value <==>
              exists i :: 0 <= i < |xml.children| && FieldName(xml.children[i].tag) == name
    ensures name in ParseShipment(xml).value ==>
              var i := LastIndexOf(xml.children, ChildEntry, name);
              && 0 <= i < |xml.children|
              && FieldName(xml.children[i].tag) == name
              && ParseShipment(xml).value[name] == ChildEntry(xml.children[i]).value.1
  {
    FromPairsSucceeds(xml.children, ChildEntry);
    FromPairsLastWins(xml.children, ChildEntry, name);
    if exists i :: 0 <= i < |xml.children| && FieldName(xml.children[i].tag) == name {
      var i :| 0 <= i < |xml.children| && FieldName(xml.children[i].tag) == name;
      ChildFound(xml.children, name, i);
    }
  }

  /** A child that maps to `name` is found by `LastIndexOf`. */
  lemma {:induction false} ChildFound(children: seq<Node>, name: string, i: nat)
    requires i < |children| && ChildEntry(children[i]).Success? && FieldName(children[i].tag) == name
    ensures LastIndexOf(children, ChildEntry, name) >= i
    decreases |children|
  {
    if i < |children| - 1 {
      var init := children[..|children| - 1];
      assert init[i] == children[i];
      ChildFound(init, name, i);
    }
  }

  /** A child other than `links` sets its attribute to its own text, when
      no later child sets the same name. */
  lemma TextChildField(xml: Node, i: nat)
    requires ParseShipment(xml).Success?
    requires i < |xml.children| && xml.children[i].tag != "links"
    requires forall j :: i < j < |xml.children| ==> FieldName(xml.children[j].tag) != FieldName(xml.children[i].tag)
    ensures FieldName(xml.children[i].tag) in ParseShipment(xml).value
    ensures ParseShipment(xml).value[FieldName(xml.children[i].tag)] == TextValue(xml.children[i].text)
  {
    var name := FieldName(xml.children[i].tag);
    FromPairsSucceeds(xml.children, ChildEntry);
    assert ChildEntry(xml.children[i]).Success?;
    ChildFound(xml.children, name, i);
    var k := LastIndexOf(xml.children, ChildEntry, name);
    assert k == i;
    FromPairsLastWins(xml.children, ChildEntry, name);
  }

  /** The keyword arguments override whatever the response set; every
      other attribute is the parsed one. */
  lemma KwargsOverride(xml: Node, kwargs: Attrs, name: string)
    requires ParseShipment(xml).Success?
    ensures NewShipment(Some(xml), kwargs).Success?
    ensures name in kwargs ==> NewShipment(Some(xml), kwargs).value[name] == kwargs[name]
    ensures name !in kwargs ==>
              && (name in NewShipment(Some(xml), kwargs).value <==> name in ParseShipment(xml).value)
              && (name in ParseShipment(xml).value ==>
                    NewShipment(Some(xml), kwargs).value[name] == ParseShipment(xml).value[name])
  {
  }

  // ---------------------------------------------------------------------
  // Manifest._from_xml

  /** `Manifest._from_xml`: the `po-number` text, then the links of the
      first `links` child. */
  function ParseManifest(xml: Node): (r: Result<Attrs>)
    ensures Find(xml, "po-number").None? ==> r == Failure(MissingElement("po-number"))
    ensures r.Success? ==> r.value.Keys == {"po_number", "links"} && r.value["links"].LinkTable?
  {
    var po :- TextOf(Find(xml, "po-number"), "po-number");
    var linksElem := Find(xml, "links");
    if linksElem.None? then Failure(MissingElement("links"))
    else
      var links :- LinkMap(FindAll(linksElem.value, "link"));
      Success(map["po_number" := TextValue(po), "links" := LinkTable(links)])
  }

  /** `Manifest(xml, **kwargs)`. */
  function NewManifest(xml: Option<Node>, kwargs: Attrs): (r: Result<Attrs>)
    ensures r.Success? <==> xml.None? || ParseManifest(xml.value).Success?
    ensures r.Success? ==> forall name :: name in kwargs ==> name in r.value && r.value[name] == kwargs[name]
    ensures r.Success? && xml.None? ==> r.value.Keys == kwargs.Keys
  {
    match xml
    case None => Success(kwargs)
    case Some(x) =>
      var parsed :- ParseManifest(x);
      Success(parsed + kwargs)
  }

  /** A manifest needs a `po-number` child and a `links` child whose links
      all carry `rel`; it then holds exactly the purchase order number and the
      link table. */
  lemma ManifestParses(xml: Node)
    ensures ParseManifest(xml).Success? <==>
              && Find(xml, "po-number").Some?
              && Find(xml, "links").Some?
              && forall l :: l in FindAll(Find(xml, "links").value, "link") ==> "rel" in l.attrs
    ensures Find(xml, "po-number").None? ==> ParseManifest(xml) == Failure(MissingElement("po-number"))
    ensures Find(xml, "po-number").Some? && Find(xml, "links").None? ==>
              ParseManifest(xml) == Failure(MissingElement("links"))
    ensures ParseManifest(xml).Success? ==>
              && ParseManifest(xml).value.Keys == {"po_number", "links"}
              && ParseManifest(xml).value["po_number"] == TextValue(Find(xml, "po-number").value.text)
              && ParseManifest(xml).value["links"] == LinkTable(LinkMap(FindAll(Find(xml, "links").value, "link")).value)
  {
    if Find(xml, "links").Some? {
      FromPairsSucceeds(FindAll(Find(xml, "links").value, "link"), LinkEntry);
    }
  }

  // ---------------------------------------------------------------------
  // Response objects and GetArtifact

  /** `Shipment` and `Manifest`, which differ in the class attribute `artifact_type`. */
  datatype Kind = ShipmentKind | ManifestKind

  datatype Object = Object(kind: Kind, attrs: Attrs)

  function ClassArtifactType(kind: Kind): string {
    match kind
    case ShipmentKind => "label"
    case ManifestKind => "artifact"
  }

  /** Attribute lookup: the instance's own attributes first, then the class attribute. */
  function GetAttr(obj: Object, name: string): (r: Result<Value>)
    ensures r.Success? <==> name in obj.attrs || name == "artifact_type"
  {
    if name in obj.attrs then Success(obj.attrs[name])
    else if name == "artifact_type" then Success(TextValue(Some(ClassArtifactType(obj.kind))))
    else Failure(MissingAttribute(name))
  }

  /** `table[key]` where `table` is the value of `links`. */
  function LinkAt(table: Value, key: Value): Result<map<string, string>> {
    if !table.LinkTable? then Failure(WrongType("links is not a dictionary"))
    else if key.LinkTable? then Failure(WrongType("unhashable type: 'dict'"))
    else if key.text.None? then Failure(MissingKey("None"))
    else if key.text.value !in table.links then Failure(MissingKey(key.text.value))
    else Success(table.links[key.text.value])
  }

  /** `obj.links[obj.artifact_type]['href']` */
  function ArtifactHref(obj: Object): (r: Result<string>)
    ensures "links" !in obj.attrs ==> r == Failure(MissingAttribute("links"))
    ensures r.Success? ==> "links" in obj.attrs && obj.attrs["links"].LinkTable?
  {
    var links :- GetAttr(obj, "links");
    var key :- GetAttr(obj, "artifact_type");
    var link :- LinkAt(links, key);
    if "href" in link then Success(link["href"]) else Failure(MissingKey("href"))
  }

  /** An HTTP response: its status code and its body. */
  datatype Response = Response(status: int, body: seq<bv8>)

  /** What `GetArtifact` makes of the response. */
  datatype Outcome = Payload(content: seq<bv8>) | NotReady | HttpError(status: int)

  /** `requests`' `ok`: false exactly for client and server errors. */
  predicate Ok(status: int) {
    !(400 <= status < 600)
  }

  /** Lines 531-534: 202 first, then any status that is not ok, then the body. */
  function Dispatch(response: Response): (r: Outcome)
    ensures r.HttpError? ==> r.status == response.status && !Ok(r.status)
    ensures r.Payload? ==> r.content == response.body && Ok(response.status)
  {
    if response.status == 202 then NotReady
    else if !Ok(response.status) then HttpError(response.status)
    else Payload(response.body)
  }

  /** `GetArtifact(obj)`: the link it follows and what it makes of the
      response `fetched` from that link. */
  function GetArtifact(obj: Object, fetched: Response): (r: Result<(string, Outcome)>)
    ensures r.Success? <==> ArtifactHref(obj).Success?
    ensures r.Failure? ==> r.error == ArtifactHref(obj).error
    ensures r.Success? ==> r.value.0 == ArtifactHref(obj).value
  {
    var href :- ArtifactHref(obj);
    Success((href, Dispatch(fetched)))
  }

  /** Status 202 means not ready, a status from 400 to 599 an HTTP error
      carrying it, and anything else returns the body unchanged. */
  lemma DispatchCases(response: Response)
    ensures Dispatch(response) == NotReady <==> response.status == 202
    ensures Dispatch(response).HttpError? <==> 400 <= response.status < 600
    ensures Dispatch(response).HttpError? ==> Dispatch(response).status == response.status
    ensures Dispatch(response).Payload? <==> response.status != 202 && Ok(response.status)
    ensures Dispatch(response).Payload? ==> Dispatch(response).content == response.body
  {
  }

  /** A shipment's artifact is its `label` link and a manifest's its
      `artifact` link, unless a keyword argument replaced `artifact_type`. */
  lemma ArtifactLinkByKind(obj: Object)
    requires "artifact_type" !in obj.attrs
    requires "links" in obj.attrs && obj.attrs["links"].LinkTable?
    ensures var rel := if obj.kind == ShipmentKind then "label" else "artifact";
            var table := obj.attrs["links"].links;
            && (ArtifactHref(obj).Success? <==> rel in table && "href" in table[rel])
            && (ArtifactHref(obj).Success? ==> ArtifactHref(obj).value == table[rel]["href"])
            && (rel !in table ==> ArtifactHref(obj) == Failure(MissingKey(rel)))
  {
  }

  /** An object without links fails before its artifact type is looked at. */
  lemma ArtifactWithoutLinks(obj: Object, fetched: Response)
    requires "links" !in obj.attrs
    ensures GetArtifact(obj, fetched) == Failure(MissingAttribute("links"))
  {
  }

  // ---------------------------------------------------------------------
  // GetManifestShipments

  /** `manifest.links['manifestShipments']['href']` */
  function ManifestShipmentsHref(manifest: Object): Result<string> {
    var links :- GetAttr(manifest, "links");
    var link :- LinkAt(links, TextValue(Some("manifestShipments")));
    if "href" in link then Success(link["href"]) else Failure(MissingKey("href"))
  }

  /** The list of shipments is fetched from the manifest's
      `manifestShipments` link. */
  lemma ManifestShipmentsLink(manifest: Object)
    requires "links" in manifest.attrs && manifest.attrs["links"].LinkTable?
    ensures var table := manifest.attrs["links"].links;
            && (ManifestShipmentsHref(manifest).Success? <==>
                  "manifestShipments" in table && "href" in table["manifestShipments"])
            && (ManifestShipmentsHref(manifest).Success? ==>
                  ManifestShipmentsHref(manifest).value == table["manifestShipments"]["href"])
  {
  }

  /** The shipment ids, one per `link`: the last path segment of its `href`. */
  function ShipmentIds(links: seq<Node>): (r: Result<seq<string>>)
    ensures r.Success? ==> |r.value| == |links|
    decreases |links|
  {
    if links == [] then Success([])
    else
      var init :- ShipmentIds(links[..|links| - 1]);
      var last := links[|links| - 1];
      if "href" in last.attrs then Success(init + [Basename(last.attrs["href"])])
      else Failure(MissingKey("href"))
  }

  /** Lines 470-474: the loop over `restree.findall('link')`. */
  method ManifestShipmentIds(restree: Node) returns (r: Result<seq<string>>)
    ensures r == ShipmentIds(FindAll(restree, "link"))
  {
    var links := FindAll(restree, "link");
    var shipments: seq<string> := [];
    for i := 0 to |links|
      invariant ShipmentIds(links[..i]) == Success(shipments)
    {
      ShipmentIdsStep(links, i);
      if "href" !in links[i].attrs {
        ShipmentIdsPrefixFailure(links, i + 1);
        return Failure(MissingKey("href"));
      }
      shipments := shipments + [Basename(links[i].attrs["href"])];
    }
    assert links[..|links|] == links;
    r := Success(shipments);
  }

  /** One more link: its id is appended, or the whole read fails without `href`. */
  lemma ShipmentIdsStep(links: seq<Node>, i: nat)
    requires i < |links| && ShipmentIds(links[..i]).Success?
    ensures "href" in links[i].attrs ==>
              ShipmentIds(links[..i + 1]) == Success(ShipmentIds(links[..i]).value + [Basename(links[i].attrs["href"])])
    ensures "href" !in links[i].attrs ==> ShipmentIds(links[..i + 1]) == Failure(MissingKey("href"))
  {
    assert links[..i + 1][..i] == links[..i];
  }

  /** Once a prefix of the links fails, all of them fail with the same error. */
  lemma {:induction false} ShipmentIdsPrefixFailure(links: seq<Node>, n: nat)
    requires n <= |links| && ShipmentIds(links[..n]).Failure?
    ensures ShipmentIds(links) == ShipmentIds(links[..n])
    decreases |links|
  {
    if n < |links| {
      var init := links[..|links| - 1];
      assert init[..n] == links[..n];
      ShipmentIdsPrefixFailure(init, n);
    } else {
      assert links[..n] == links;
    }
  }

  /** The ids are read exactly when every link has an `href`. */
  lemma {:induction false} ShipmentIdsSucceed(links: seq<Node>)
    ensures ShipmentIds(links).Success? <==> forall i :: 0 <= i < |links| ==> "href" in links[i].attrs
    decreases |links|
  {
    if links != [] {
      var init := links[..|links| - 1];
      ShipmentIdsSucceed(init);
      assert forall i :: 0 <= i < |init| ==> init[i] == links[i];
    }
  }

  /** The `i`-th id comes from the `i`-th link. */
  lemma {:induction false} ShipmentIdAt(links: seq<Node>, i: nat)
    requires ShipmentIds(links).Success? && i < |links|
    ensures "href" in links[i].attrs && ShipmentIds(links).value[i] == Basename(links[i].attrs["href"])
    decreases |links|
  {
    var init := links[..|links| - 1];
    if i < |init| {
      assert init[i] == links[i];
      ShipmentIdAt(init, i);
    }
  }

  /** The ids are read exactly when every link has an `href`; then the
      `i`-th id is the last path segment of the `i`-th link, a suffix of its
      `href` holding no '/'. */
  lemma ShipmentIdsFromLinks(links: seq<Node>)
    ensures ShipmentIds(links).Success? <==> forall i :: 0 <= i < |links| ==> "href" in links[i].attrs
    ensures ShipmentIds(links).Success? ==>
              forall i :: 0 <= i < |links| ==>
                && ShipmentIds(links).value[i] == Basename(links[i].attrs["href"])
                && '/' !in ShipmentIds(links).value[i]
  {
    ShipmentIdsSucceed(links);
    if ShipmentIds(links).Success? {
      forall i | 0 <= i < |links|
        ensures ShipmentIds(links).value[i] == Basename(links[i].attrs["href"])
      {
        ShipmentIdAt(links, i);
      }
    }
  }
}
