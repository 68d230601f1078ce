/** Conversion of a raw Shopify order into an order of the app: the address
    source, the delivery zone inferred from keywords of the address and city,
    the courier and fee that follow from the zone, and the fallback chains for
    the customer's name and phone. */
module ShopifyTransform {
  import opened Wrappers
  import opened Text
  import opened Types
  import opened Constants

  /** The fields of a Shopify address the conversion reads. */
  datatype ShopifyAddress = ShopifyAddress(
    address1: Option<string>,
    address2: Option<string>,
    city: Option<string>,
    provinceCode: Option<string>,
    countryCode: Option<string>,
    name: Option<string>,
    phone: Option<string>)

  datatype ShopifyCustomer = ShopifyCustomer(
    id: Option<int>,
    firstName: Option<string>,
    lastName: Option<string>,
    phone: Option<string>,
    defaultAddress: Option<ShopifyAddress>)

  /** A line item; a quantity of `None` stands for a missing field. */
  datatype ShopifyLineItem = ShopifyLineItem(title: Option<string>, quantity: Option<int>)

  /** A Shopify order. The total is given already parsed and the creation
      instant already converted to milliseconds. */
  datatype ShopifyOrder = ShopifyOrder(
    id: int,
    name: Option<string>,
    email: Option<string>,
    phone: Option<string>,
    financialStatus: Option<string>,
    shippingAddress: Option<ShopifyAddress>,
    billingAddress: Option<ShopifyAddress>,
    customer: Option<ShopifyCustomer>,
    lineItems: Option<seq<ShopifyLineItem>>,
    totalPrice: int,
    createdAt: int)

  const MetroCities: seq<string> :=
    ["medellin", "medell\U{00ED}n", "envigado", "sabaneta", "bello", "la estrella", "itagui", "itag\U{00FC}\U{00ED}"]
  const SanAntonioPlaces: seq<string> :=
    ["san antonio de prado", "caldas", "copacabana", "girardota", "san cristobal"]
  const OrientePlaces: seq<string> :=
    ["rionegro", "llanogrande", "el retiro", "la ceja", "guarne", "marinilla", "carmen de viboral", "barbosa"]
  const BogotaCities: seq<string> := ["bogota", "bogot\U{00E1}"]

  /** `keywords.some(k => s.includes(k))`. */
  predicate AnyIn(s: string, keywords: seq<string>) {
    exists i :: 0 <= i < |keywords| && Contains(s, keywords[i])
  }

  /** `String(x || '')` lower-cased. */
  function LowerOrEmpty(x: Option<string>): string {
    Lower(x.GetOr([]))
  }

  /** `getZoneFromAddress`: metropolitan cities by city only, then San
      Antonio and Oriente places in the address or the city, then Bogotá by
      city only, and the metropolitan area when nothing matches. */
  function ZoneFromAddress(address: Option<string>, city: Option<string>): Zone {
    var lowerCity := LowerOrEmpty(city);
    var lowerAddress := LowerOrEmpty(address);
    if AnyIn(lowerCity, MetroCities) then AreaMetropolitana
    else if AnyIn(lowerAddress, SanAntonioPlaces) || AnyIn(lowerCity, SanAntonioPlaces) then SanAntonio
    else if AnyIn(lowerAddress, OrientePlaces) || AnyIn(lowerCity, OrientePlaces) then Oriente
    else if AnyIn(lowerCity, BogotaCities) then Bogota
    else AreaMetropolitana
  }

  /** The zone rules as a table, each with its keywords and whether the
      address takes part besides the city; the first rule that matches wins. */
  datatype ZoneRule = ZoneRule(keywords: seq<string>, inAddress: bool, zone: Zone)

  const ZoneRules: seq<ZoneRule> := [
    ZoneRule(MetroCities, false, AreaMetropolitana),
    ZoneRule(SanAntonioPlaces, true, SanAntonio),
    ZoneRule(OrientePlaces, true, Oriente),
    ZoneRule(BogotaCities, false, Bogota)]

  predicate RuleMatches(r: ZoneRule, lowerAddress: string, lowerCity: string) {
    AnyIn(lowerCity, r.keywords) || (r.inAddress && AnyIn(lowerAddress, r.keywords))
  }

  /** Index of the first matching rule, or `|rules|` when none matches. */
  function FirstMatch(rules: seq<ZoneRule>, lowerAddress: string, lowerCity: string): (k: nat)
    ensures k <= |rules|
    ensures k < |rules| ==> RuleMatches(rules[k], lowerAddress, lowerCity)
    ensures forall j :: 0 <= j < k ==> !RuleMatches(rules[j], lowerAddress, lowerCity)
  {
    if rules == [] then 0
    else if RuleMatches(rules[0], lowerAddress, lowerCity) then 0
    else 1 + FirstMatch(rules[1..], lowerAddress, lowerCity)
  }

  /** The zone of an address is the zone of the first rule of the table that
      matches it, the metropolitan area when none does. */
  lemma {:induction false} ZoneIsFirstMatchingRule(address: Option<string>, city: Option<string>)
    ensures var k := FirstMatch(ZoneRules, LowerOrEmpty(address), LowerOrEmpty(city));
      ZoneFromAddress(address, city) == if k < |ZoneRules| then ZoneRules[k].zone else AreaMetropolitana
  {
    var a, c := LowerOrEmpty(address), LowerOrEmpty(city);
    var k := FirstMatch(ZoneRules, a, c);
    if k < |ZoneRules| {
      assert RuleMatches(ZoneRules[k], a, c);
    }
    if k > 0 { assert !RuleMatches(ZoneRules[0], a, c); }
    if k > 1 { assert !RuleMatches(ZoneRules[1], a, c); }
    if k > 2 { assert !RuleMatches(ZoneRules[2], a, c); }
    if k > 3 { assert !RuleMatches(ZoneRules[3], a, c); }
  }

  /** Zone inference ignores letter case: giving it the lower-cased address
      and city yields the same zone. */
  lemma {:induction false} ZoneIgnoresCase(address: string, city: string)
    ensures ZoneFromAddress(Some(Lower(address)), Some(Lower(city))) == ZoneFromAddress(Some(address), Some(city))
  {
    LowerIdempotent(address);
    LowerIdempotent(city);
  }

  /** The address object used: shipping, else billing, else the customer's
      default address. */
  function AddressSource(so: ShopifyOrder): Option<ShopifyAddress> {
    if so.shippingAddress.Some? then so.shippingAddress
    else if so.billingAddress.Some? then so.billingAddress
    else if so.customer.Some? then so.customer.value.defaultAddress
    else None
  }

  function NameOf(a: Option<ShopifyAddress>): Option<string> {
    if a.Some? then a.value.name else None
  }

  function PhoneOf(a: Option<ShopifyAddress>): Option<string> {
    if a.Some? then a.value.phone else None
  }

  /** The customer's name: "first last" trimmed when the order has a
      customer, then the shipping name, the billing name, the e-mail, and
      finally a fixed placeholder. Shared with the manual import screen. */
  function CustomerName(so: ShopifyOrder): (r: string)
    ensures r != []
    ensures so.customer.None? && !Truthy(NameOf(so.shippingAddress)) && !Truthy(NameOf(so.billingAddress)) && !Truthy(so.email)
      ==> r == "Cliente An\U{00F3}nimo"
  {
    var fullName :=
      if so.customer.Some? then
        Some(Trim(so.customer.value.firstName.GetOr([]) + " " + so.customer.value.lastName.GetOr([])))
      else None;
    OrElse(fullName, OrElse(NameOf(so.shippingAddress), OrElse(NameOf(so.billingAddress),
      OrElse(so.email, Some("Cliente An\U{00F3}nimo"))))).value
  }

  function CustomerPhone(so: ShopifyOrder): (r: string)
    ensures r != []
    ensures Truthy(so.phone) ==> r == so.phone.value
  {
    var customerPhone := if so.customer.Some? then so.customer.value.phone else None;
    OrElse(so.phone, OrElse(PhoneOf(so.shippingAddress), OrElse(PhoneOf(so.billingAddress),
      OrElse(customerPhone, Some("N/A"))))).value
  }

  /** The present, non-empty parts of a list, as `filter(Boolean)` keeps. */
  function TruthyParts(parts: seq<Option<string>>): (r: seq<string>)
    ensures |r| <= |parts|
    ensures forall i :: 0 <= i < |r| ==> r[i] != []
    ensures forall i :: 0 <= i < |parts| && Truthy(parts[i]) ==> parts[i].value in r
  {
    if parts == [] then []
    else if Truthy(parts[0]) then [parts[0].value] + TruthyParts(parts[1..])
    else TruthyParts(parts[1..])
  }

  function AddressLine(a: ShopifyAddress): string {
    Join(TruthyParts([a.address1, a.address2, a.city, a.provinceCode, a.countryCode]), ", ")
  }

  function ConvertLineItem(item: ShopifyLineItem): (r: LineItem)
    ensures r.name != []
    ensures r.quantity != 0
  {
    LineItem(if Truthy(item.title) then item.title.value else "Producto sin nombre",
             if item.quantity.Some? && item.quantity.value != 0 then item.quantity.value else 1)
  }

  function ConvertLineItems(items: seq<ShopifyLineItem>): (r: seq<LineItem>)
    ensures |r| == |items|
    ensures forall i :: 0 <= i < |items| ==> r[i] == ConvertLineItem(items[i])
  {
    if items == [] then [] else [ConvertLineItem(items[0])] + ConvertLineItems(items[1..])
  }

  /** The id every imported order gets. */
  function ImportedId(shopifyId: int): string {
    "shopify-" + IntToString(shopifyId)
  }

  predicate IsPaid(so: ShopifyOrder) {
    LowerOrEmpty(so.financialStatus) == "paid"
  }

  /** `transformShopifyOrder`: `None` for an order with no address, else the
      new pending order. */
  function Transform(so: ShopifyOrder): Option<Order> {
    var addressInfo := AddressSource(so);
    if addressInfo.None? then None
    else
      var a := addressInfo.value;
      var zone := ZoneFromAddress(a.address1, a.city);
      var paid := IsPaid(so);
      Some(Order(
        id := ImportedId(so.id),
        orderNumber := so.name,
        customerName := CustomerName(so),
        phone := CustomerPhone(so),
        address := AddressLine(a),
        customerId := if so.customer.Some? && so.customer.value.id.Some?
                      then IntToString(so.customer.value.id.value) else "N/A",
        totalValue := so.totalPrice,
        paymentMethod := if paid then Wompi else Cash,
        paymentStatus := if paid then Paid else PendingPayment,
        courier := ZoneCourier(zone),
        zone := zone,
        deliveryCost := DeliveryCost(zone),
        status := Pending,
        createdAt := so.createdAt,
        transferReceiptUrl := None,
        lineItems := if so.lineItems.Some? then ConvertLineItems(so.lineItems.value) else []))
  }

  /** An order is skipped exactly when none of the three address sources is
      present; otherwise it becomes a pending order, routed to the courier of
      its zone with that zone's fee, marked paid through Wompi exactly when
      Shopify reports it paid, and cash on delivery otherwise. */
  lemma {:induction false} TransformContract(so: ShopifyOrder)
    ensures Transform(so).None? <==>
      so.shippingAddress.None? && so.billingAddress.None?
      && (so.customer.None? || so.customer.value.defaultAddress.None?)
    ensures Transform(so).Some? ==>
      var o := Transform(so).value;
      && ZoneConsistent(o)
      && o.status == Pending
      && StartsWith(o.id, "shopify-")
      && o.customerName != [] && o.phone != []
      && (o.paymentStatus == Paid <==> IsPaid(so))
      && (o.paymentMethod == Wompi <==> IsPaid(so))
      && (o.paymentMethod == Cash <==> !IsPaid(so))
      && o.transferReceiptUrl.None?
      && |o.lineItems| == (if so.lineItems.Some? then |so.lineItems.value| else 0)
  {
    if Transform(so).Some? {
      var o := Transform(so).value;
      assert o.id[..|"shopify-"|] == "shopify-";
    }
  }

  /** Different Shopify ids give different order ids, so an imported order
      never overwrites another. */
  lemma {:induction false} ImportedIdInjective(x: int, y: int)
    requires x != y
    ensures ImportedId(x) != ImportedId(y)
  {
    IntToStringInjective(x, y);
    assert ImportedId(x)[8..] == IntToString(x);
    assert ImportedId(y)[8..] == IntToString(y);
  }

  lemma {:induction false} NatToStringInjective(x: nat, y: nat)
    requires x != y
    ensures NatToString(x) != NatToString(y)
    decreases x + y
  {
    if x < 10 && y < 10 {
      assert NatToString(x)[0] == DigitChar(x);
      assert NatToString(y)[0] == DigitChar(y);
    } else if x < 10 || y < 10 {
      if x < 10 {
        assert |NatToString(y)| >= 2;
      } else {
        assert |NatToString(x)| >= 2;
      }
    } else if NatToString(x) == NatToString(y) {
      var sx, sy := NatToString(x), NatToString(y);
      assert sx[|sx| - 1] == DigitChar(x % 10);
      assert sy[|sy| - 1] == DigitChar(y % 10);
      DigitCharInjective(x % 10, y % 10);
      assert x % 10 == y % 10;
      assert sx[..|sx| - 1] == NatToString(x / 10);
      assert sy[..|sy| - 1] == NatToString(y / 10);
      NatToStringInjective(x / 10, y / 10);
    }
  }

  lemma {:induction false} DigitCharInjective(d: nat, e: nat)
    requires d < 10 && e < 10 && DigitChar(d) == DigitChar(e)
    ensures d == e
  {
  }

  lemma {:induction false} IntToStringInjective(x: int, y: int)
    requires x != y
    ensures IntToString(x) != IntToString(y)
  {
    if x >= 0 && y >= 0 {
      NatToStringInjective(x, y);
    } else if x < 0 && y < 0 {
      NatToStringInjective(-x, -y);
      IntToStringSign(x);
      IntToStringSign(y);
    } else {
      IntToStringSign(x);
      IntToStringSign(y);
    }
  }

  /** A negative number is written with a minus sign in front of its
      digits; any other starts with a digit. */
  lemma {:induction false} IntToStringSign(x: int)
    ensures x < 0 ==> IntToString(x)[0] == '-' && IntToString(x)[1..] == NatToString(-x)
    ensures x >= 0 ==> IntToString(x)[0] != '-'
  {
    if x < 0 {
      assert ("-" + NatToString(-x))[1..] == NatToString(-x);
    } else {
      assert '0' <= NatToString(x)[0] <= '9';
    }
  }
}
