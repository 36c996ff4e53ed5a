/**
 * The payment session request the module sends when a customer is sent to
 * the gateway, and the return URL that carries the order reference back.
 */
module Checkout {
  import opened Wrappers
  import Php
  import Helpers
  import Base64
  import Configuration

  /** The delivery address fields the request copies. */
  datatype Address = Address(
    firstName: string,
    lastName: string,
    phoneMobile: string,
    phone: string,
    city: string,
    address1: string,
    address2: string,
    countryIso: string,
    stateName: Option<string>)

  /** The store settings the request depends on. `noDiscount` is the discount code meaning "none". */
  datatype StoreOptions = StoreOptions(
    fillBuyer: bool,
    skipResult: bool,
    fillTax: bool,
    expirationMinutes: Option<int>,
    storeCountry: string,
    discount: string,
    noDiscount: string,
    invoice: string,
    client: string)

  datatype BuyerAddress = BuyerAddress(country: string, state: Option<string>, city: string, street: string)
  datatype Buyer = Buyer(name: string, surname: string, email: string, mobile: string, address: BuyerAddress)
  datatype Tax = Tax(kind: string, amount: int, base: int)
  datatype ModifierType = FederalGovernment
  datatype Modifier = Modifier(kind: ModifierType, code: string, invoice: string)
  datatype Amount = Amount(currency: string, total: int, taxes: seq<Tax>)
  datatype Payment = Payment(reference: string, description: string, amount: Amount, modifiers: seq<Modifier>)

  /** The session request; `expiration` is a time in seconds. */
  datatype SessionRequest = SessionRequest(
    locale: string,
    returnUrl: string,
    noBuyerFill: bool,
    skipResult: bool,
    ipAddress: string,
    expiration: int,
    userAgent: string,
    buyer: Buyer,
    payment: Payment)

  const VALUE_ADDED_TAX: string := "valueAddedTax"
  const URUGUAY: string := "uy"
  const RETURN_PAGE: string := "process.php"
  const REFERENCE_PARAMETER: string := "?_="

  /** getUrl: a page of this module under the shop's base URL. */
  function ModuleUrl(shopBaseUrl: string, page: string, params: string): string {
    shopBaseUrl + "modules/" + Helpers.ModuleName() + "/" + page + params
  }

  /** The return URL: the process page with the order reference base64-encoded in its query. */
  function ReturnUrl(shopBaseUrl: string, reference: string): (r: string)
    requires Base64.IsBytes(reference)
    ensures |r| >= |ReturnPrefix(shopBaseUrl)|
    ensures r[..|ReturnPrefix(shopBaseUrl)|] == ReturnPrefix(shopBaseUrl)
  {
    ModuleUrl(shopBaseUrl, RETURN_PAGE, REFERENCE_PARAMETER + Base64.Encode(reference))
  }

  /** Everything in the return URL before the encoded reference. */
  function ReturnPrefix(shopBaseUrl: string): string {
    shopBaseUrl + "modules/" + Helpers.ModuleName() + "/" + RETURN_PAGE + REFERENCE_PARAMETER
  }

  /** The query parameter of the return URL decodes back to the order reference it was built from. */
  lemma ReturnUrlCarriesReference(shopBaseUrl: string, reference: string)
    requires Base64.IsBytes(reference)
    ensures Base64.Decode(ReturnUrl(shopBaseUrl, reference)[|ReturnPrefix(shopBaseUrl)|..]) == Some(reference)
  {
    var url := ReturnUrl(shopBaseUrl, reference);
    assert url == ReturnPrefix(shopBaseUrl) + Base64.Encode(reference);
    assert url[|ReturnPrefix(shopBaseUrl)|..] == Base64.Encode(reference);
    Base64.DecodeEncode(reference);
  }

  /** sprintf(getDescription(), reference). */
  function Description(client: string, reference: string): string {
    "Pago en " + client + " No: " + reference
  }

  /** The buyer's mobile: the mobile phone unless it is empty, then the landline. */
  function Mobile(address: Address): (r: string)
    ensures !Php.Empty(address.phoneMobile) ==> r == address.phoneMobile
    ensures Php.Empty(address.phoneMobile) ==> r == address.phone
  {
    if !Php.Empty(address.phoneMobile) then address.phoneMobile else address.phone
  }

  /**
   * The request body built in redirect: buyer from the delivery address, the
   * cart total, a federal-government modifier for Uruguayan stores with a
   * discount, and the value-added tax when tax reporting is on and there is tax.
   */
  method BuildRequest(
    locale: string, returnUrl: string, ipAddress: string, userAgent: string, now: int,
    email: string, delivery: Address, reference: string, currency: string,
    total: int, totalWithoutTaxes: int, options: StoreOptions)
    returns (request: SessionRequest)
    ensures request.locale == locale
    ensures request.returnUrl == returnUrl && request.ipAddress == ipAddress && request.userAgent == userAgent
    ensures request.buyer.name == delivery.firstName && request.buyer.surname == delivery.lastName
    ensures request.buyer.address.country == delivery.countryIso && request.buyer.address.city == delivery.city
    ensures request.noBuyerFill == !options.fillBuyer && request.skipResult == options.skipResult
    ensures request.expiration == now + 60 * Configuration.ExpirationTimeMinutes(options.expirationMinutes)
    ensures request.expiration >= now + 60 * Configuration.EXPIRATION_TIME_MINUTES_MIN
    ensures request.buyer.email == email && request.buyer.mobile == Mobile(delivery)
    ensures request.buyer.address.street == delivery.address1 + " " + delivery.address2
    ensures request.buyer.address.state == delivery.stateName
    ensures request.payment.reference == reference
    ensures request.payment.description == Description(options.client, reference)
    ensures request.payment.amount.currency == currency && request.payment.amount.total == total
    ensures |request.payment.amount.taxes| <= 1
    ensures |request.payment.amount.taxes| == 1 <==> options.fillTax && total - totalWithoutTaxes > 0
    ensures forall t :: t in request.payment.amount.taxes ==>
      t.kind == VALUE_ADDED_TAX && t.base == totalWithoutTaxes && t.amount + t.base == total && t.amount > 0
    ensures |request.payment.modifiers| <= 1
    ensures |request.payment.modifiers| == 1 <==> options.storeCountry == URUGUAY && options.discount != options.noDiscount
    ensures forall m :: m in request.payment.modifiers ==>
      m.kind == FederalGovernment && m.code == options.discount && m.invoice == options.invoice
  {
    var taxAmount := total - totalWithoutTaxes;
    var expiration := now + 60 * Configuration.ExpirationTimeMinutes(options.expirationMinutes);
    var buyer := Buyer(
      delivery.firstName, delivery.lastName, email, Mobile(delivery),
      BuyerAddress(delivery.countryIso, delivery.stateName, delivery.city, delivery.address1 + " " + delivery.address2));
    request := SessionRequest(
      locale, returnUrl, !options.fillBuyer, options.skipResult, ipAddress, expiration, userAgent, buyer,
      Payment(reference, Description(options.client, reference), Amount(currency, total, []), []));

    if options.storeCountry == URUGUAY {
      if options.discount != options.noDiscount {
        var modifier := Modifier(FederalGovernment, options.discount, options.invoice);
        request := request.(payment := request.payment.(modifiers := [modifier]));
      }
    }

    if options.fillTax && taxAmount > 0 {
      var tax := Tax(VALUE_ADDED_TAX, taxAmount, totalWithoutTaxes);
      request := request.(payment := request.payment.(amount := request.payment.amount.(taxes := [tax])));
    }
  }
}
