/** `get_decimal`, `Adjustment` and `Price` (canada_post/util/money.py).
    Amounts are exact decimals, kept as Python's `Decimal` keeps them: an
    integer coefficient and the number of digits written after the point,
    so "0.50" is 50 with two places. */
module Money {
  import opened Common
  import opened Text
  import opened Xml

  /** `coefficient` × 10^-`places` */
  datatype Decimal = Decimal(coefficient: int, places: nat)

  /** `ZERO = Decimal("0.00")` */
  const Zero := Decimal(0, 2)

  function Pow10(n: nat): (r: nat)
    ensures r >= 1
  {
    if n == 0 then 1 else 10 * Pow10(n - 1)
  }

  /** The same amount written with `p` places. */
  function Rescale(d: Decimal, p: nat): (r: Decimal)
    requires p >= d.places
    ensures r.places == p
  {
    Decimal(d.coefficient * Pow10(p - d.places), p)
  }

  /** `a + b`: exact, with as many places as the longer operand. */
  function Add(a: Decimal, b: Decimal): (r: Decimal)
    ensures r.places >= a.places && r.places >= b.places
    ensures r.places == a.places || r.places == b.places
  {
    var p := if a.places >= b.places then a.places else b.places;
    Decimal(Rescale(a, p).coefficient + Rescale(b, p).coefficient, p)
  }

  lemma {:induction false} Pow10Add(m: nat, n: nat)
    ensures Pow10(m + n) == Pow10(m) * Pow10(n)
  {
    if m > 0 {
      Pow10Add(m - 1, n);
      assert Pow10(m + n) == 10 * Pow10(m - 1 + n);
    }
  }

  /** Rescaling in two steps is rescaling once. */
  lemma RescaleTwice(d: Decimal, p: nat, q: nat)
    requires d.places <= p <= q
    ensures Rescale(Rescale(d, p), q) == Rescale(d, q)
  {
    var c := d.coefficient;
    var x := Pow10(p - d.places);
    var y := Pow10(q - p);
    assert q - d.places == (q - p) + (p - d.places);
    Pow10Add(q - p, p - d.places);
    assert Pow10(q - d.places) == y * x;
    MulAssociates(c, x, y);
    assert Rescale(d, p) == Decimal(c * x, p);
  }

  lemma MulAssociates(c: int, x: int, y: int)
    ensures c * x * y == c * (y * x)
  {
  }

  /** Adding two amounts with the same places adds their coefficients. */
  lemma AddSamePlaces(x: int, y: int, p: nat)
    ensures Add(Decimal(x, p), Decimal(y, p)) == Decimal(x + y, p)
  {
  }

  /** Written with any common number of places, the sum's coefficient is
      the sum of the operands' coefficients: `Add` is exact. */
  lemma AddExact(a: Decimal, b: Decimal, q: nat)
    requires q >= a.places && q >= b.places
    ensures Rescale(Add(a, b), q).coefficient == Rescale(a, q).coefficient + Rescale(b, q).coefficient
  {
    var p := Add(a, b).places;
    RescaleTwice(a, p, q);
    RescaleTwice(b, p, q);
    var k := Pow10(q - p);
    var ca := Rescale(a, p).coefficient;
    var cb := Rescale(b, p).coefficient;
    assert (ca + cb) * k == ca * k + cb * k;
  }

  lemma AddCommutes(a: Decimal, b: Decimal)
    ensures Add(a, b) == Add(b, a)
  {
  }

  /** Adding 0.00 to an amount with at least two places changes nothing. */
  lemma AddZero(a: Decimal)
    requires a.places >= 2
    ensures Add(a, Zero) == a
  {
  }

  // ---------------------------------------------------------------------
  // get_decimal

  /** The characters of a decimal literal in positional notation. */
  predicate LiteralChar(ch: char) {
    IsDigit(ch) || ch == '-' || ch == '+' || ch == '.'
  }

  /** An unsigned decimal literal: digits with at most one '.', and at least
      one digit in all ("1." and ".5" are literals). */
  function ParseUnsigned(s: string): (r: Option<Decimal>)
    ensures r.Some? ==> r.value.coefficient >= 0 && r.value.places < |s|
  {
    var dot := RFind(s, '.', |s|);
    var whole := if dot < 0 then s else s[..dot];
    var fraction := if dot < 0 then "" else s[dot + 1..];
    if AllDigits(whole) && AllDigits(fraction) && |whole| + |fraction| > 0 then
      assert AllDigits(whole + fraction);
      Some(Decimal(DigitsValue(whole + fraction), |fraction|))
    else None
  }

  /** `Decimal(s)` for a finite literal in positional notation: surrounding
      whitespace is ignored and an optional sign comes first. */
  function ParseDecimal(s: string): (r: Option<Decimal>)
    ensures Strip(s) == [] ==> r == None
    ensures r.Some? ==> r.value.places < |Strip(s)|
    ensures r.Some? ==> (r.value.coefficient < 0 ==> Strip(s)[0] == '-')
    ensures r.Some? && Strip(s)[0] == '-' ==> r.value.coefficient <= 0
  {
    ParseSignedLiteral(Strip(s))
  }

  /** A literal with surrounding whitespace already removed: an optional
      sign, then an unsigned literal. */
  function ParseSignedLiteral(t: string): (r: Option<Decimal>)
    ensures t == [] ==> r == None
    ensures r.Some? ==> r.value.places < |t|
    ensures r.Some? ==> (r.value.coefficient < 0 ==> t[0] == '-')
    ensures r.Some? && t[0] == '-' ==> r.value.coefficient <= 0
  {
    if t != [] && (t[0] == '-' || t[0] == '+') then
      match ParseUnsigned(t[1..])
      case None => None
      case Some(d) => Some(if t[0] == '-' then Decimal(-d.coefficient, d.places) else d)
    else ParseUnsigned(t)
  }

  /** `get_decimal(source)`: `Decimal(source or ZERO)`. */
  function GetDecimal(source: Option<string>): (r: Result<Decimal>)
    ensures !Truthy(source) ==> r == Success(Zero)
    ensures Truthy(source) ==> (r.Success? <==> ParseDecimal(source.value).Some?)
    ensures Truthy(source) && r.Success? ==> r.value == ParseDecimal(source.value).value
    ensures r.Failure? ==> r.error == InvalidDecimal(source.value)
  {
    if !Truthy(source) then Success(Zero)
    else match ParseDecimal(source.value)
      case None => Failure(InvalidDecimal(source.value))
      case Some(d) => Success(d)
  }

  /** An amount of cents written with two decimal places, as the web service
      writes costs: an optional '-', the whole part, '.', two digits. */
  function FormatCents(c: int): (s: string)
    ensures |s| >= 4 && s[|s| - 3] == '.'
  {
    if c < 0 then "-" + UnsignedCents(-c) else UnsignedCents(c)
  }

  function UnsignedCents(a: nat): (s: string)
    ensures |s| >= 4 && s[|s| - 3] == '.'
  {
    FromNat(a / 100) + "." + [DigitChar(a % 100 / 10), DigitChar(a % 10)]
  }

  /** Text without whitespace at either end is not touched by `strip()`. */
  lemma StripUntouched(s: string)
    requires s != [] && !IsWhitespace(s[0]) && !IsWhitespace(s[|s| - 1])
    ensures Strip(s) == s
  {
    assert StripLeft(s) == s;
  }

  /** Digits read as they are, and negated after a '-'. */
  lemma {:induction false} ParseSigned(u: string, d: Decimal)
    requires u != [] && IsDigit(u[0]) && IsDigit(u[|u| - 1])
    requires ParseUnsigned(u) == Some(d)
    ensures ParseDecimal(u) == Some(d)
    ensures ParseDecimal("-" + u) == Some(Decimal(-d.coefficient, d.places))
  {
    StripUntouched(u);
    assert u[0] != '-' && u[0] != '+';
    assert ParseSignedLiteral(u) == Some(d);
    ParseNegated(u, d);
  }

  lemma {:induction false} ParseNegated(u: string, d: Decimal)
    requires u != [] && IsDigit(u[|u| - 1])
    requires ParseUnsigned(u) == Some(d)
    ensures ParseDecimal("-" + u) == Some(Decimal(-d.coefficient, d.places))
  {
    var t := "-" + u;
    assert t[0] == '-' && t[1..] == u && t[|t| - 1] == u[|u| - 1];
    StripUntouched(t);
  }

  /** The digits `unicode()` writes for a natural number read back as that number. */
  lemma {:induction false} ParseUnsignedOfNat(n: nat)
    ensures ParseUnsigned(FromNat(n)) == Some(Decimal(n, 0))
  {
    var s := FromNat(n);
    assert RFind(s, '.', |s|) == -1;
    assert s + "" == s;
    DigitsValueFromNat(n);
  }

  lemma {:induction false} ParseUnsignedCents(a: nat)
    ensures ParseUnsigned(UnsignedCents(a)) == Some(Decimal(a, 2))
  {
    var whole := FromNat(a / 100);
    var fraction := [DigitChar(a % 100 / 10), DigitChar(a % 10)];
    var s := UnsignedCents(a);
    assert s == whole + "." + fraction;
    assert s[|s| - 2] == fraction[0] && s[|s| - 1] == fraction[1];
    assert RFind(s, '.', |s|) == |whole|;
    assert s[..|whole|] == whole;
    assert s[|whole| + 1..] == fraction;
    CentsDigitsValue(a);
  }

  /** The whole part followed by the two digits of the cents denotes the amount in cents. */
  lemma {:induction false} CentsDigitsValue(a: nat)
    ensures AllDigits(FromNat(a / 100) + [DigitChar(a % 100 / 10), DigitChar(a % 10)])
    ensures DigitsValue(FromNat(a / 100) + [DigitChar(a % 100 / 10), DigitChar(a % 10)]) == a
  {
    var whole := FromNat(a / 100);
    var d1 := DigitChar(a % 100 / 10);
    var digits := whole + [d1, DigitChar(a % 10)];
    assert digits[..|digits| - 1] == whole + [d1];
    assert (whole + [d1])[..|whole|] == whole;
    DigitsValueFromNat(a / 100);
    assert DigitsValue(whole + [d1]) == 10 * (a / 100) + a % 100 / 10;
  }

  lemma {:induction false} ParseDecimalOfInteger(n: int)
    ensures ParseDecimal(FromInt(n)) == Some(Decimal(n, 0))
  {
    var m: nat := if n < 0 then -n else n;
    var u := FromNat(m);
    assert IsDigit(u[0]) && IsDigit(u[|u| - 1]);
    ParseUnsignedOfNat(m);
    ParseSigned(u, Decimal(m, 0));
  }

  lemma {:induction false} ParseFormatCents(c: int)
    ensures ParseDecimal(FormatCents(c)) == Some(Decimal(c, 2))
  {
    var a: nat := if c < 0 then -c else c;
    var u := UnsignedCents(a);
    assert u[0] == FromNat(a / 100)[0] && IsDigit(u[0]);
    assert u[|u| - 1] == DigitChar(a % 10);
    ParseUnsignedCents(a);
    ParseSigned(u, Decimal(a, 2));
  }

  /** `get_decimal` of a non-empty text is the decimal it denotes. */
  lemma GetDecimalOfLiteral(s: string, d: Decimal)
    requires s != [] && ParseDecimal(s) == Some(d)
    ensures GetDecimal(Some(s)) == Success(d)
  {
  }

  /** An integer written by `unicode()` is read back as that integer, with no places. */
  lemma GetDecimalOfInteger(n: int)
    ensures GetDecimal(Some(FromInt(n))) == Success(Decimal(n, 0))
  {
    ParseDecimalOfInteger(n);
    GetDecimalOfLiteral(FromInt(n), Decimal(n, 0));
  }

  /** A cost written with two places is read back exactly, places included. */
  lemma GetDecimalOfCents(c: int)
    ensures GetDecimal(Some(FormatCents(c))) == Success(Decimal(c, 2))
  {
    ParseFormatCents(c);
    GetDecimalOfLiteral(FormatCents(c), Decimal(c, 2));
  }

  /** None and the empty string both read as 0.00. */
  lemma GetDecimalOfNothing()
    ensures GetDecimal(None) == Success(Decimal(0, 2))
    ensures GetDecimal(Some("")) == Success(Decimal(0, 2))
  {
  }

  /** A character that is neither whitespace nor part of a decimal literal
      (a letter, say) makes `get_decimal` raise. */
  lemma {:induction false} GetDecimalRejects(s: string, i: nat)
    requires i < |s| && !LiteralChar(s[i])
    requires !IsWhitespace(s[0]) && !IsWhitespace(s[|s| - 1])
    ensures GetDecimal(Some(s)) == Failure(InvalidDecimal(s))
  {
    StripUntouched(s);
    ParseRejects(s, i);
  }

  lemma {:induction false} ParseRejects(s: string, i: nat)
    requires i < |s| && !LiteralChar(s[i])
    ensures ParseSignedLiteral(s) == None
  {
    if s[0] == '-' || s[0] == '+' {
      assert LiteralChar(s[0]);
      assert i != 0;
      assert s[1..][i - 1] == s[i];
      UnsignedRejects(s[1..], i - 1);
    } else {
      UnsignedRejects(s, i);
    }
  }

  lemma {:induction false} UnsignedRejects(s: string, i: nat)
    requires i < |s| && !LiteralChar(s[i])
    ensures ParseUnsigned(s) == None
  {
    var dot := RFind(s, '.', |s|);
    if dot < 0 {
      assert !IsDigit(s[i]);
    } else if i < dot {
      assert s[..dot][i] == s[i];
    } else {
      assert i != dot;
      assert s[dot + 1..][i - dot - 1] == s[i];
    }
  }

  // ---------------------------------------------------------------------
  // Adjustment

  /** An adjustment read from XML: code, name and percent are raw element
      texts (None for an empty element), the cost is a decimal. */
  datatype Adjustment = Adjustment(code: Option<string>, name: Option<string>, cost: Decimal, percent: Option<string>)

  /** `Adjustment(xml_source)`: reads `adjustment-code`, `adjustment-name`,
      `adjustment-cost` and `qualifier/percent`, in that order; a missing
      element raises when its `.text` is read. */
  function AdjustmentFromXml(x: Node): (r: Result<Adjustment>)
    ensures r.Success? <==>
              && Find(x, "adjustment-code").Some?
              && Find(x, "adjustment-name").Some?
              && Find(x, "adjustment-cost").Some?
              && GetDecimal(Find(x, "adjustment-cost").value.text).Success?
              && FindPath(x, "qualifier", "percent").Some?
    ensures r.Success? ==>
              r.value == Adjustment(Find(x, "adjustment-code").value.text,
                                    Find(x, "adjustment-name").value.text,
                                    GetDecimal(Find(x, "adjustment-cost").value.text).value,
                                    FindPath(x, "qualifier", "percent").value.text)
    ensures Find(x, "adjustment-code").None? ==> r == Failure(MissingElement("adjustment-code"))
  {
    var code :- TextOf(Find(x, "adjustment-code"), "adjustment-code");
    var name :- TextOf(Find(x, "adjustment-name"), "adjustment-name");
    var costText :- TextOf(Find(x, "adjustment-cost"), "adjustment-cost");
    var cost :- GetDecimal(costText);
    var percent :- TextOf(FindPath(x, "qualifier", "percent"), "qualifier/percent");
    Success(Adjustment(code, name, cost, percent))
  }

  /** An `adjustment` element as the web service sends it. */
  function AdjustmentXml(code: string, name: string, cost: string, percent: string): Node {
    Element("adjustment", [
      Leaf("adjustment-code", Some(code)),
      Leaf("adjustment-name", Some(name)),
      Leaf("adjustment-cost", Some(cost)),
      Element("qualifier", [Leaf("percent", Some(percent))])])
  }

  /** The four queries find what `AdjustmentXml` put in. */
  lemma AdjustmentXmlFinds(code: string, name: string, cost: string, percent: string)
    ensures var x := AdjustmentXml(code, name, cost, percent);
            && Find(x, "adjustment-code") == Some(Leaf("adjustment-code", Some(code)))
            && Find(x, "adjustment-name") == Some(Leaf("adjustment-name", Some(name)))
            && Find(x, "adjustment-cost") == Some(Leaf("adjustment-cost", Some(cost)))
            && FindPath(x, "qualifier", "percent") == Some(Leaf("percent", Some(percent)))
  {
    AdjustmentLeavesFound(code, name, cost, percent);
    var front := [Leaf("adjustment-code", Some(code)), Leaf("adjustment-name", Some(name)), Leaf("adjustment-cost", Some(cost))];
    var found := Leaf("percent", Some(percent));
    var q := Element("qualifier", [found]);
    assert AdjustmentXml(code, name, cost, percent).children == front + [q];
    assert Tags(front) == ["adjustment-code", "adjustment-name", "adjustment-cost"];
    QualifierFound(front, q, "percent", found);
  }

  lemma {:induction false} AdjustmentLeavesFound(code: string, name: string, cost: string, percent: string)
    ensures var x := AdjustmentXml(code, name, cost, percent);
            && Find(x, "adjustment-code") == Some(Leaf("adjustment-code", Some(code)))
            && Find(x, "adjustment-name") == Some(Leaf("adjustment-name", Some(name)))
            && Find(x, "adjustment-cost") == Some(Leaf("adjustment-cost", Some(cost)))
  {
    var x := AdjustmentXml(code, name, cost, percent);
    FindInFirst(x.children, "adjustment-code", 0);
    FindInFirst(x.children, "adjustment-name", 1);
    FindInFirst(x.children, "adjustment-cost", 2);
  }

  /** `find("qualifier/percent")` looks inside the only `qualifier` child. */
  lemma {:induction false} QualifierFound(front: seq<Node>, q: Node, tag: string, found: Node)
    requires "qualifier" !in Tags(front)
    requires q.tag == "qualifier" && q.children == [found] && found.tag == tag
    ensures FirstOfAny(Filter(front + [q], "qualifier"), tag) == Some(found)
  {
    FilterNoneMatching(front, "qualifier");
    FilterAllMatching([q], "qualifier");
    FilterConcat(front, [q], "qualifier");
    FindInFirst(q.children, tag, 0);
  }

  /** Reading an adjustment element gives back its code, name and percent
      as written and its cost as the amount written with two places. */
  lemma AdjustmentRoundTrip(code: string, name: string, cents: int, percent: string)
    ensures AdjustmentFromXml(AdjustmentXml(code, name, FormatCents(cents), percent))
            == Success(Adjustment(Some(code), Some(name), Decimal(cents, 2), Some(percent)))
  {
    AdjustmentXmlFinds(code, name, FormatCents(cents), percent);
    GetDecimalOfCents(cents);
  }

  /** An empty `adjustment-cost` element is a cost of 0.00. */
  lemma EmptyCostIsZero(code: string, name: string, percent: string)
    ensures AdjustmentFromXml(AdjustmentXml(code, name, "", percent))
            == Success(Adjustment(Some(code), Some(name), Zero, Some(percent)))
  {
    AdjustmentXmlFinds(code, name, "", percent);
  }

  /** Without an `adjustment-code` element nothing else is read: the first
      `.text` access raises. */
  lemma MissingCodeFails(name: string, cost: string)
    ensures AdjustmentFromXml(Element("adjustment", [Leaf("adjustment-name", Some(name)), Leaf("adjustment-cost", Some(cost))]))
            == Failure(MissingElement("adjustment-code"))
  {
    var x := Element("adjustment", [Leaf("adjustment-name", Some(name)), Leaf("adjustment-cost", Some(cost))]);
    assert "adjustment-code" !in Tags(x.children);
  }

  // ---------------------------------------------------------------------
  // Price

  datatype Price = Price(
    due: Decimal,
    base: Decimal,
    gst: Decimal,
    gstPc: Decimal,
    pst: Decimal,
    pstPc: Decimal,
    hst: Decimal,
    hstPc: Decimal,
    taxTotal: Decimal,
    adjustments: seq<Adjustment>,
    adjustmentTotal: Decimal)

  /** The costs of the adjustments, in order. */
  function Costs(adjustments: seq<Adjustment>): (r: seq<Decimal>)
    ensures |r| == |adjustments|
  {
    seq(|adjustments|, i requires 0 <= i < |adjustments| => adjustments[i].cost)
  }

  /** The fields `Price.__init__` sets, with `adjustment_total` as evidently
      intended, the sum of the adjustments' costs: every argument is stored
      as passed (`due` is not recomputed from the details) and `tax_total`
      is `gst + pst + hst`. */
  function PriceFields(due: Decimal := Zero, base: Decimal := Zero, gst: Decimal := Zero, gstPc: Decimal := Zero,
                       pst: Decimal := Zero, pstPc: Decimal := Zero, hst: Decimal := Zero, hstPc: Decimal := Zero,
                       adjustments: seq<Adjustment> := []): (p: Price)
    ensures p.due == due && p.base == base && p.adjustments == adjustments
    ensures p.gst == gst && p.pst == pst && p.hst == hst
    ensures p.gstPc == gstPc && p.pstPc == pstPc && p.hstPc == hstPc
    ensures p.taxTotal == Add(Add(gst, pst), hst)
    ensures p.adjustmentTotal == SumOf(Costs(adjustments))
  {
    Price(due, base, gst, gstPc, pst, pstPc, hst, hstPc, Add(Add(gst, pst), hst), adjustments,
          SumOf(Costs(adjustments)))
  }

  /** Taxes given in cents add up to a tax total in cents. */
  lemma TaxTotalInCents(due: Decimal, base: Decimal, g: int, p: int, h: int)
    ensures PriceFields(due, base, Decimal(g, 2), Zero, Decimal(p, 2), Zero, Decimal(h, 2), Zero).taxTotal
            == Decimal(g + p + h, 2)
  {
    AddSamePlaces(g, p, 2);
    AddSamePlaces(g + p, h, 2);
  }

  /** The tax total is exact: at any number of places that holds all three
      taxes, its coefficient is the sum of theirs. */
  lemma TaxTotalExact(price: Price, q: nat)
    requires price.taxTotal == Add(Add(price.gst, price.pst), price.hst)
    requires q >= price.gst.places && q >= price.pst.places && q >= price.hst.places
    ensures Rescale(price.taxTotal, q).coefficient ==
              Rescale(price.gst, q).coefficient + Rescale(price.pst, q).coefficient + Rescale(price.hst, q).coefficient
  {
    AddExact(price.gst, price.pst, q);
    AddExact(Add(price.gst, price.pst), price.hst, q);
  }

  /** With no argument at all every amount is 0.00 and there are no adjustments. */
  lemma PriceDefaults()
    ensures var p := PriceFields();
            p.due == Zero && p.base == Zero && p.taxTotal == Zero && p.adjustments == []
  {
  }

  /** Example: base 10.00 with 0.50 of GST at 5% has a tax total of 0.50. */
  lemma TaxTotalExample()
    ensures PriceFields(base := Decimal(1000, 2), gst := Decimal(50, 2), gstPc := Decimal(5, 0)).taxTotal
            == Decimal(50, 2)
  {
    TaxTotalInCents(Zero, Decimal(1000, 2), 50, 0, 0);
  }

  /** What `sum()` raises when called without an iterable. */
  const SumWithoutArguments := WrongType("sum expected at least 1 arguments, got 0")

  /** Python's `sum(iterable)` of amounts, where None stands for a call
      without the iterable, as the constructor makes it. */
  function Sum(iterable: Option<seq<Decimal>>): (r: Result<Decimal>)
    ensures iterable.None? <==> r == Failure(SumWithoutArguments)
    ensures iterable == Some([]) ==> r == Success(Decimal(0, 0))
  {
    match iterable
    case None => Failure(SumWithoutArguments)
    case Some(xs) => Success(SumOf(xs))
  }

  /** `sum(xs)` starts from the integer 0 and adds from the left. */
  function SumOf(xs: seq<Decimal>): Decimal {
    if xs == [] then Decimal(0, 0) else Add(SumOf(xs[..|xs| - 1]), xs[|xs| - 1])
  }

  /** `Price(...)` as written: `adjustment_total = sum()` raises, so no
      Price is ever built. */
  function NewPrice(due: Decimal := Zero, base: Decimal := Zero, gst: Decimal := Zero, gstPc: Decimal := Zero,
                    pst: Decimal := Zero, pstPc: Decimal := Zero, hst: Decimal := Zero, hstPc: Decimal := Zero,
                    adjustments: seq<Adjustment> := []): (r: Result<Price>)
    ensures r == Failure(SumWithoutArguments)
  {
    var p := PriceFields(due, base, gst, gstPc, pst, pstPc, hst, hstPc, adjustments);
    match Sum(None)
    case Failure(e) => Failure(e)
    case Success(_) => Success(p)
  }

  /** The sum of the coefficients. */
  function Coefficients(xs: seq<Decimal>): int {
    if xs == [] then 0 else Coefficients(xs[..|xs| - 1]) + xs[|xs| - 1].coefficient
  }

  /** Amounts all written in cents add up to their total in cents. */
  lemma {:induction false} SumOfCents(xs: seq<Decimal>)
    requires xs != []
    requires forall i :: 0 <= i < |xs| ==> xs[i].places == 2
    ensures SumOf(xs) == Decimal(Coefficients(xs), 2)
  {
    var init := xs[..|xs| - 1];
    var last := xs[|xs| - 1];
    if init == [] {
      assert Rescale(Decimal(0, 0), 2).coefficient == 0;
    } else {
      SumOfCents(init);
      AddSamePlaces(Coefficients(init), last.coefficient, 2);
    }
  }

  /** With the total evidently intended, adjustments whose costs are in
      cents give an adjustment total in cents, the sum of their costs; a
      Price without adjustments has the integer 0 as its total. */
  lemma AdjustmentTotalInCents(price: Price)
    requires price == PriceFields(price.due, price.base, price.gst, price.gstPc, price.pst,
                                  price.pstPc, price.hst, price.hstPc, price.adjustments)
    requires forall i :: 0 <= i < |price.adjustments| ==> price.adjustments[i].cost.places == 2
    ensures price.adjustments == [] ==> price.adjustmentTotal == Decimal(0, 0)
    ensures price.adjustments != [] ==>
              price.adjustmentTotal == Decimal(Coefficients(Costs(price.adjustments)), 2)
  {
    if price.adjustments != [] {
      SumOfCents(Costs(price.adjustments));
    }
  }

  /** Example: adjustments of -1.25 and 0.40 total -0.85. */
  lemma AdjustmentTotalExample(a: Adjustment, b: Adjustment)
    requires a.cost == Decimal(-125, 2) && b.cost == Decimal(40, 2)
    ensures PriceFields(adjustments := [a, b]).adjustmentTotal == Decimal(-85, 2)
  {
    var p := PriceFields(adjustments := [a, b]);
    AdjustmentTotalInCents(p);
    var cs := Costs([a, b]);
    assert cs == [Decimal(-125, 2), Decimal(40, 2)];
    assert cs[..1] == [Decimal(-125, 2)];
    assert Coefficients(cs) == Coefficients(cs[..1]) + 40;
  }
}
