/** `CostCentre` and `References` (canada_post/util/references.py): the
    `references` element of a shipment request. */
module References {
  import opened Common
  import opened Xml

  const CostCentreMaxLength := 30
  const CustomerRefMaxLength := 35

  datatype CostCentre = CostCentre(name: string)

  /** A CostCentre object is always truthy, so only its absence omits it. */
  datatype References = References(costCentre: Option<CostCentre>, customerRef1: Option<string>, customerRef2: Option<string>)

  /** `CostCentre.make_xml`: one `cost-centre` element holding the name. */
  function CostCentreXml(c: CostCentre): (r: Result<Node>)
    ensures r.Success? <==> |c.name| <= CostCentreMaxLength
    ensures r.Failure? ==> r.error == Invalid(CostCentreTooLong)
    ensures r.Success? ==> r.value.tag == "cost-centre" && r.value.text == Some(c.name) && r.value.children == []
  {
    if |c.name| > CostCentreMaxLength then Failure(Invalid(CostCentreTooLong))
    else Success(Leaf("cost-centre", Some(c.name)))
  }

  /** The element a customer reference contributes: none when it is falsy. */
  function CustomerRefXml(tag: string, ref: Option<string>, number: nat): Result<seq<Node>> {
    if !Truthy(ref) then Success([])
    else if |ref.value| > CustomerRefMaxLength then Failure(Invalid(CustomerRefTooLong(number)))
    else Success([Leaf(tag, ref)])
  }

  /** The element the cost centre contributes: none when it is absent. */
  function CostCentrePart(costCentre: Option<CostCentre>): Result<seq<Node>> {
    match costCentre
    case None => Success([])
    case Some(c) =>
      var n := CostCentreXml(c);
      if n.Failure? then Failure(n.error) else Success([n.value])
  }

  /** The `references` element `References.make_xml` returns. */
  function ReferencesXml(refs: References): Result<Node> {
    var costCentre :- CostCentrePart(refs.costCentre);
    var ref1 :- CustomerRefXml("customer-ref-1", refs.customerRef1, 1);
    var ref2 :- CustomerRefXml("customer-ref-2", refs.customerRef2, 2);
    Success(Element("references", costCentre + ref1 + ref2))
  }

  /** `References.make_xml`: creates `references` and appends its children one by one. */
  method MakeXml(refs: References) returns (r: Result<Node>)
    ensures r == ReferencesXml(refs)
  {
    var children: seq<Node> := [];
    if refs.costCentre.Some? {
      var costCentre := CostCentreXml(refs.costCentre.value);
      if costCentre.Failure? {
        return Failure(costCentre.error);
      }
      children := [costCentre.value];
      assert CostCentrePart(refs.costCentre) == Success(children);
    }
    ghost var part1 := children;
    ghost var part2: seq<Node> := [];
    if Truthy(refs.customerRef1) {
      if |refs.customerRef1.value| > CustomerRefMaxLength {
        return Failure(Invalid(CustomerRefTooLong(1)));
      }
      part2 := [Leaf("customer-ref-1", refs.customerRef1)];
      children := children + [Leaf("customer-ref-1", refs.customerRef1)];
    }
    ghost var part3: seq<Node> := [];
    if Truthy(refs.customerRef2) {
      if |refs.customerRef2.value| > CustomerRefMaxLength {
        return Failure(Invalid(CustomerRefTooLong(2)));
      }
      part3 := [Leaf("customer-ref-2", refs.customerRef2)];
      children := children + [Leaf("customer-ref-2", refs.customerRef2)];
    }
    assert children == part1 + part2 + part3;
    assert CustomerRefXml("customer-ref-1", refs.customerRef1, 1) == Success(part2);
    assert CustomerRefXml("customer-ref-2", refs.customerRef2, 2) == Success(part3);
    assert CostCentrePart(refs.costCentre) == Success(part1);
    return Success(Element("references", children));
  }

  // ---------------------------------------------------------------------
  // Properties

  /** The references accepted: a cost-centre name of at most 30 characters
      and truthy customer references of at most 35; falsy ones are not checked. */
  predicate Acceptable(refs: References) {
    && (refs.costCentre.Some? ==> |refs.costCentre.value.name| <= CostCentreMaxLength)
    && (Truthy(refs.customerRef1) ==> |refs.customerRef1.value| <= CustomerRefMaxLength)
    && (Truthy(refs.customerRef2) ==> |refs.customerRef2.value| <= CustomerRefMaxLength)
  }

  /** What a `references` element says, read back by tag. */
  function ReadReferences(n: Node): References {
    References(
      match Find(n, "cost-centre")
      case Some(c) => (if c.text.Some? then Some(CostCentre(c.text.value)) else None)
      case None => None,
      match Find(n, "customer-ref-1") case Some(c) => c.text case None => None,
      match Find(n, "customer-ref-2") case Some(c) => c.text case None => None)
  }

  /** The references as the element carries them: falsy references dropped. */
  function Present(refs: References): References {
    References(refs.costCentre,
               if Truthy(refs.customerRef1) then refs.customerRef1 else None,
               if Truthy(refs.customerRef2) then refs.customerRef2 else None)
  }

  /** `make_xml` succeeds exactly for acceptable references. */
  lemma ReferencesAccepted(refs: References)
    ensures ReferencesXml(refs).Success? <==> Acceptable(refs)
  {
  }

  /** A cost-centre name over 30 characters makes `References.make_xml` fail
      with the cost centre's own error, before any customer reference is looked at. */
  lemma LongCostCentreFails(refs: References)
    requires refs.costCentre.Some? && |refs.costCentre.value.name| > CostCentreMaxLength
    ensures ReferencesXml(refs) == Failure(Invalid(CostCentreTooLong))
  {
  }

  /** The children of the element, piece by piece: the cost centre, then
      each truthy customer reference. */
  function ChildrenOf(refs: References): seq<Node> {
    (if refs.costCentre.Some? then [Leaf("cost-centre", Some(refs.costCentre.value.name))] else []) +
    (if Truthy(refs.customerRef1) then [Leaf("customer-ref-1", refs.customerRef1)] else []) +
    (if Truthy(refs.customerRef2) then [Leaf("customer-ref-2", refs.customerRef2)] else [])
  }

  /** A successful `make_xml` yields a `references` element holding exactly those children. */
  lemma ReferencesChildren(refs: References)
    requires ReferencesXml(refs).Success?
    ensures ReferencesXml(refs).value == Element("references", ChildrenOf(refs))
  {
  }

  /** The children come in the fixed order cost-centre, customer-ref-1,
      customer-ref-2, each present exactly when its field is given. */
  lemma ReferencesOrder(refs: References)
    requires ReferencesXml(refs).Success?
    ensures ReferencesXml(refs).value.tag == "references"
    ensures Tags(ReferencesXml(refs).value.children) ==
              (if refs.costCentre.Some? then ["cost-centre"] else []) +
              (if Truthy(refs.customerRef1) then ["customer-ref-1"] else []) +
              (if Truthy(refs.customerRef2) then ["customer-ref-2"] else [])
  {
    ReferencesChildren(refs);
    var a := if refs.costCentre.Some? then [Leaf("cost-centre", Some(refs.costCentre.value.name))] else [];
    var b := if Truthy(refs.customerRef1) then [Leaf("customer-ref-1", refs.customerRef1)] else [];
    var c := if Truthy(refs.customerRef2) then [Leaf("customer-ref-2", refs.customerRef2)] else [];
    TagsConcat(a + b, c);
    TagsConcat(a, b);
  }

  /** `find` on the children: the element of the given tag when its field
      put one there, nothing otherwise. */
  lemma {:induction false} FindChild(refs: References, tag: string)
    requires tag in {"cost-centre", "customer-ref-1", "customer-ref-2"}
    ensures FindIn(ChildrenOf(refs), tag) ==
              if tag == "cost-centre" then
                (if refs.costCentre.Some? then Some(Leaf(tag, Some(refs.costCentre.value.name))) else None)
              else if tag == "customer-ref-1" then
                (if Truthy(refs.customerRef1) then Some(Leaf(tag, refs.customerRef1)) else None)
              else
                (if Truthy(refs.customerRef2) then Some(Leaf(tag, refs.customerRef2)) else None)
  {
    var a := if refs.costCentre.Some? then [Leaf("cost-centre", Some(refs.costCentre.value.name))] else [];
    var b := if Truthy(refs.customerRef1) then [Leaf("customer-ref-1", refs.customerRef1)] else [];
    var c := if Truthy(refs.customerRef2) then [Leaf("customer-ref-2", refs.customerRef2)] else [];
    var ns := ChildrenOf(refs);
    assert ns == a + b + c;
    TagsConcat(a + b, c);
    TagsConcat(a, b);
    if tag == "cost-centre" {
      if refs.costCentre.Some? { FindInFirst(ns, tag, 0); }
    } else if tag == "customer-ref-1" {
      if Truthy(refs.customerRef1) { FindInFirst(ns, tag, |a|); }
    } else {
      if Truthy(refs.customerRef2) { FindInFirst(ns, tag, |a| + |b|); }
    }
  }

  /** Reading the element back gives the cost centre and the truthy
      references unchanged. */
  lemma {:induction false} ReferencesRoundTrip(refs: References)
    requires ReferencesXml(refs).Success?
    ensures ReadReferences(ReferencesXml(refs).value) == Present(refs)
  {
    ReferencesChildren(refs);
    FindChild(refs, "cost-centre");
    FindChild(refs, "customer-ref-1");
    FindChild(refs, "customer-ref-2");
  }
}
