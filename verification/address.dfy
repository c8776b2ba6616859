/** `AddressBase`, `Origin` and `Destination` (canada_post/util/address.py):
    the postal code is normalised, a street address is stored as two lines,
    and the lengths of the street address and of the city are checked. */
module Address {
  import opened Common
  import opened Text

  /** The `address` argument: absent, a tuple of lines, or one string. */
  datatype StreetAddress = NoStreet | StreetParts(parts: seq<string>) | StreetLine(line: string)

  datatype Address = Address(
    postalCode: string,
    name: Option<string>,
    company: Option<string>,
    phone: Option<string>,
    address1: Option<string>,
    address2: Option<string>,
    city: Option<string>,
    province: Option<string>,
    countryCode: string,
    extra: Option<string>)  // only a Destination stores it; an Origin never reads it

  const MaxStreetPart := 44
  const MaxStreetLine := 88
  const MaxCity := 40

  /** Python truthiness of the `address` argument. */
  predicate StreetGiven(a: StreetAddress) {
    match a
    case NoStreet => false
    case StreetParts(ps) => |ps| > 0
    case StreetLine(s) => s != ""
  }

  /** The index `rfind(" ", 0, 44)` finds in a one-line street address. */
  function SplitIndex(s: string): (ix: int)
    ensures -1 <= ix < MaxStreetPart && ix < |s|
    ensures ix >= 0 ==> s[ix] == ' '
    ensures forall k :: ix < k < MaxStreetPart && k < |s| ==> s[k] != ' '
  {
    RFind(s, ' ', MaxStreetPart)
  }

  /** A one-line street address cut at the last space among its first 44
      characters; both halves are stripped. */
  function SplitLine(s: string): (r: Result<(Option<string>, Option<string>)>)
    ensures |s| > MaxStreetLine ==> r == Failure(Invalid(StreetTooLong))
    ensures r.Success? ==> r.value.0.Some? && r.value.1.Some? && |r.value.1.value| <= MaxStreetPart
  {
    if |s| > MaxStreetLine then Failure(Invalid(StreetTooLong))
    else
      var ix := SplitIndex(s);
      var line1 := Strip(SliceTo(s, ix));
      var line2 := Strip(SliceFrom(s, ix));
      if |line2| > MaxStreetPart then Failure(Invalid(StreetSplitTooLong))
      else Success((Some(line1), Some(line2)))
  }

  /** `address1` and `address2` as the constructor stores them. */
  function SplitStreet(a: StreetAddress): (r: Result<(Option<string>, Option<string>)>)
    ensures !StreetGiven(a) ==> r == Success((None, None))
  {
    if !StreetGiven(a) then Success((None, None))
    else match a
      case StreetParts(ps) =>
        if exists i :: 0 <= i < |ps| && |ps[i]| > MaxStreetPart then Failure(Invalid(StreetPartTooLong))
        else if |ps| < 2 then Failure(IndexOutOfRange)
        else Success((Some(ps[0]), Some(ps[1])))
      case StreetLine(s) => SplitLine(s)
  }

  /** `AddressBase.__init__` */
  function NewAddressBase(postalCode: string, name: Option<string>, company: Option<string>,
                          phone: Option<string>, street: StreetAddress, city: Option<string>,
                          province: Option<string>, countryCode: string, extra: Option<string>): (r: Result<Address>)
    ensures r.Success? <==> SplitStreet(street).Success? && !(Truthy(city) && |city.value| > MaxCity)
    ensures r.Success? ==>
              && r.value.postalCode == NormalisePostalCode(postalCode)
              && (r.value.address1, r.value.address2) == SplitStreet(street).value
              && r.value.name == name && r.value.company == company && r.value.phone == phone
              && r.value.city == city && r.value.province == province
              && r.value.countryCode == countryCode && r.value.extra == extra
  {
    var lines :- SplitStreet(street);
    if Truthy(city) && |city.value| > MaxCity then Failure(Invalid(CityTooLong))
    else Success(Address(NormalisePostalCode(postalCode), name, company, phone, lines.0, lines.1,
                         city, province, countryCode, extra))
  }

  /** `Origin(...)`: the country code defaults to "CA". */
  function NewOrigin(postalCode: string, name: Option<string> := None, company: Option<string> := None,
                     phone: Option<string> := None, street: StreetAddress := NoStreet,
                     city: Option<string> := None, province: Option<string> := None,
                     countryCode: string := "CA"): (r: Result<Address>)
    ensures r.Success? <==> SplitStreet(street).Success? && !(Truthy(city) && |city.value| > MaxCity)
    ensures r.Success? ==>
              && r.value.postalCode == NormalisePostalCode(postalCode)
              && r.value.countryCode == countryCode
              && r.value.extra == None
  {
    NewAddressBase(postalCode, name, company, phone, street, city, province, countryCode, None)
  }

  /** `Destination(...)`: the country code is required and `extra` is kept. */
  function NewDestination(countryCode: string, postalCode: string, extra: Option<string> := None,
                          name: Option<string> := None, company: Option<string> := None,
                          phone: Option<string> := None, street: StreetAddress := NoStreet,
                          city: Option<string> := None, province: Option<string> := None): (r: Result<Address>)
    ensures r.Success? <==> SplitStreet(street).Success? && !(Truthy(city) && |city.value| > MaxCity)
    ensures r.Success? ==>
              && r.value.postalCode == NormalisePostalCode(postalCode)
              && r.value.countryCode == countryCode
              && r.value.extra == extra
  {
    NewAddressBase(postalCode, name, company, phone, street, city, province, countryCode, extra)
  }

  // ---------------------------------------------------------------------
  // Properties

  /** A tuple street address is accepted exactly when it has at least two
      parts and none exceeds 44 characters; its first two parts are stored
      unchanged. */
  lemma StreetPartsStored(ps: seq<string>)
    requires |ps| > 0
    ensures SplitStreet(StreetParts(ps)).Success? <==>
              |ps| >= 2 && forall i :: 0 <= i < |ps| ==> |ps[i]| <= MaxStreetPart
    ensures SplitStreet(StreetParts(ps)).Success? ==>
              SplitStreet(StreetParts(ps)).value == (Some(ps[0]), Some(ps[1]))
  {
  }

  /** With a space among the first 44 characters, the first line is cut
      before it and so has at most 43 characters. */
  lemma {:induction false} SplitAtSpaceFirstLineShort(s: string, p: nat)
    requires p < |s| && p < MaxStreetPart && s[p] == ' '
    requires SplitLine(s).Success?
    ensures |SplitLine(s).value.0.value| <= MaxStreetPart - 1
  {
    var ix := SplitIndex(s);
    assert ix >= p;
    assert SliceTo(s, ix) == s[..ix];
  }

  /** Without a space among the first 44 characters, `rfind` yields -1: the
      first line is every character but the last and the second line is the
      last character, whatever the length up to 88. */
  lemma {:induction false} SplitWithoutSpace(s: string)
    requires 0 < |s| <= MaxStreetLine
    requires forall k :: 0 <= k < |s| && k < MaxStreetPart ==> s[k] != ' '
    ensures SplitLine(s) == Success((Some(Strip(s[..|s| - 1])), Some(Strip(s[|s| - 1..]))))
  {
    var ix := SplitIndex(s);
    assert ix == -1;
    assert SliceTo(s, ix) == s[..|s| - 1];
    assert SliceFrom(s, ix) == s[|s| - 1..];
  }

  /** A line of at most 88 characters with a space among its first 44 that
      leaves at most 44 characters after it is split successfully. */
  lemma {:induction false} SplitSucceedsWhenRestFits(s: string, p: nat)
    requires |s| <= MaxStreetLine
    requires p < |s| && p < MaxStreetPart && s[p] == ' '
    requires |s| - p - 1 <= MaxStreetPart
    ensures SplitLine(s).Success?
  {
    var ix := SplitIndex(s);
    assert ix >= p;
    assert SliceIndex(ix, |s|) == ix;
    var rest := SliceFrom(s, ix);
    assert |rest| == |s| - ix && rest[0] == s[ix] == ' ';
    var line2 := Strip(rest);
    assert |line2| < |rest|;
    assert SplitLine(s) == Success((Some(Strip(SliceTo(s, ix))), Some(line2)));
  }

  /** A line of at most 88 characters whose last space among the first 44
      follows the part `a` is cut at that space: the two lines are `a` and the
      rest, stripped, and the line is refused exactly when the stripped rest
      is longer than 44 characters. */
  lemma {:induction false} SplitAtLastSpace(a: string, b: string)
    requires |a| < MaxStreetPart && |a| + 1 + |b| <= MaxStreetLine
    requires forall k :: 0 <= k < |b| && |a| + 1 + k < MaxStreetPart ==> b[k] != ' '
    ensures SplitLine(a + " " + b) ==
              if |Strip(" " + b)| > MaxStreetPart then Failure(Invalid(StreetSplitTooLong))
              else Success((Some(Strip(a)), Some(Strip(" " + b))))
  {
    var s := a + " " + b;
    var ix := SplitIndex(s);
    assert s[|a|] == ' ';
    assert ix == |a|;
    assert SliceTo(s, ix) == a;
    assert SliceFrom(s, ix) == " " + b;
  }

  /** A city longer than 40 characters is refused; an absent or empty city is not checked. */
  lemma CityChecked(postalCode: string, street: StreetAddress, city: Option<string>, countryCode: string)
    requires SplitStreet(street).Success?
    ensures (NewAddressBase(postalCode, None, None, None, street, city, None, countryCode, None).Failure?
             <==> city.Some? && |city.value| > MaxCity)
  {
  }

  /** An Origin built without a country code is in Canada. */
  lemma OriginDefaultsToCanada(postalCode: string)
    ensures NewOrigin(postalCode).Success?
    ensures NewOrigin(postalCode).value.countryCode == "CA"
    ensures NewOrigin(postalCode).value.address1 == None && NewOrigin(postalCode).value.address2 == None
  {
  }
}
