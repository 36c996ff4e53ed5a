/**
 * The payment module's configuration readers: expiration time, gateway URI,
 * return page, credential check and the admin form's validation.
 */
module Configuration {
  import opened Wrappers
  import opened Environment
  import PaymentUrl
  import Php

  const EXPIRATION_TIME_MINUTES_DEFAULT: int := 120
  const EXPIRATION_TIME_MINUTES_MIN: int := 10

  /**
   * getExpirationTimeMinutes: the configured value when it is numeric and at
   * least the minimum; otherwise the default (a value below the minimum is not
   * raised to it). `configured` is None when the stored value is not numeric.
   */
  function ExpirationTimeMinutes(configured: Option<int>): (r: int)
    ensures r >= EXPIRATION_TIME_MINUTES_MIN
    ensures configured.Some? && configured.value >= EXPIRATION_TIME_MINUTES_MIN ==> r == configured.value
    ensures configured.None? || configured.value < EXPIRATION_TIME_MINUTES_MIN ==> r == EXPIRATION_TIME_MINUTES_DEFAULT
  {
    if configured.None? || configured.value < EXPIRATION_TIME_MINUTES_MIN
    then EXPIRATION_TIME_MINUTES_DEFAULT
    else configured.value
  }

  /** getEnvironment: the configured environment, TEST when none is set. */
  function EffectiveEnvironment(configured: string): (r: string)
    ensures Php.Empty(configured) ==> r == TEST
    ensures !Php.Empty(configured) ==> r == configured
  {
    if Php.Empty(configured) then TEST else configured
  }

  /**
   * getUri: in the CUSTOM environment the custom connection URL (None when it
   * is empty); otherwise the store country's endpoint for the environment,
   * None when the table has no non-empty entry for it.
   */
  function Uri(countryCode: string, configuredEnvironment: string, customUrl: string): (r: Option<string>)
    ensures EffectiveEnvironment(configuredEnvironment) == CUSTOM ==>
      r == (if Php.Empty(customUrl) then None else Some(customUrl))
    ensures EffectiveEnvironment(configuredEnvironment) in TableKeys() ==>
      r == Some(PaymentUrl.EndpointsTo(countryCode)[EffectiveEnvironment(configuredEnvironment)])
    ensures EffectiveEnvironment(configuredEnvironment) !in TableKeys() + {CUSTOM} ==> r == None
  {
    var environment := EffectiveEnvironment(configuredEnvironment);
    var endpoints := PaymentUrl.EndpointsTo(countryCode);
    if environment == CUSTOM then
      if Php.Empty(customUrl) then None else Some(customUrl)
    else if environment in endpoints && !Php.Empty(endpoints[environment]) then
      Some(endpoints[environment])
    else
      None
  }

  /** With no environment configured the gateway is reached on the country's TEST host. */
  lemma UnsetEnvironmentUsesTest(countryCode: string, customUrl: string)
    ensures Uri(countryCode, "", customUrl) == Some(PaymentUrl.EndpointsTo(countryCode)[TEST])
  {
  }

  const PAGE_ORDER_CONFIRMATION: string := "order-confirmation.php"
  const PAGE_ORDER_HISTORY: string := "history.php"
  const PAGE_ORDER_DETAILS: string := "index.php?controller=order-detail"
  const PAGE_HOME: string := ""

  const SHOW_ON_RETURN_DEFAULT: string := "default"
  const SHOW_ON_RETURN_PSE_LIST: string := "pse_list"
  const SHOW_ON_RETURN_DETAILS: string := "details"
  const SHOW_ON_RETURN_HOME: string := "home"

  /** getRedirectPageFromStatus: guests always see the confirmation page; logged-in customers the configured one. */
  function RedirectPage(customerLogged: bool, showOnReturn: string): (r: string)
    ensures !customerLogged ==> r == PAGE_ORDER_CONFIRMATION
    ensures customerLogged && showOnReturn == SHOW_ON_RETURN_DETAILS ==> r == PAGE_ORDER_DETAILS
    ensures customerLogged && showOnReturn == SHOW_ON_RETURN_PSE_LIST ==> r == PAGE_ORDER_HISTORY
    ensures customerLogged && showOnReturn == SHOW_ON_RETURN_HOME ==> r == PAGE_HOME
    ensures customerLogged && showOnReturn !in {SHOW_ON_RETURN_DETAILS, SHOW_ON_RETURN_PSE_LIST, SHOW_ON_RETURN_HOME}
      ==> r == PAGE_ORDER_CONFIRMATION
  {
    if !customerLogged then PAGE_ORDER_CONFIRMATION
    else if showOnReturn == SHOW_ON_RETURN_DETAILS then PAGE_ORDER_DETAILS
    else if showOnReturn == SHOW_ON_RETURN_PSE_LIST then PAGE_ORDER_HISTORY
    else if showOnReturn == SHOW_ON_RETURN_HOME then PAGE_HOME
    else PAGE_ORDER_CONFIRMATION
  }

  /** isSetCredentials: both the login and the transaction key are non-empty. */
  function IsSetCredentials(login: string, tranKey: string): (r: bool)
    ensures r <==> !Php.Empty(login) && !Php.Empty(tranKey)
    ensures r ==> |login| > 0 && |tranKey| > 0
  {
    !Php.Empty(login) && !Php.Empty(tranKey)
  }

  /** The submitted admin form; a field that was not sent reads as "". */
  datatype FormInput = FormInput(
    submitted: bool,
    companyDocument: string,
    companyName: string,
    emailContact: string,
    telephoneContact: string,
    expirationMinutes: string,
    client: string,
    environment: string,
    customConnectionUrl: string,
    login: string,
    tranKey: string,
    storedTranKey: string)

  /** The platform's validation filters, which this model does not define. */
  datatype Filters = Filters(isEmail: string -> bool, isUrl: string -> bool, asInt: string -> Option<int>)

  /** One failed check of the admin form. */
  datatype FormError =
    | MerchantIdRequired | LegalNameRequired
    | EmailRequired | EmailNotValid
    | TelephoneRequired
    | ExpirationRequired | ExpirationNotValid
    | ClientRequired
    | EnvironmentRequired | CustomUrlNotValid
    | LoginRequired | TranKeyRequired

  /** The message shown to the merchant for each failed check. */
  function Message(e: FormError): string {
    match e
    case MerchantIdRequired => "Merchant ID is required."
    case LegalNameRequired => "Legal Name is required."
    case EmailRequired => "Email contact is required."
    case EmailNotValid => "Email contact is not valid."
    case TelephoneRequired => "Telephone contact is required."
    case ExpirationRequired => "Expiration time to pay is required."
    case ExpirationNotValid => "Expiration time to pay is not valid. (min 10)"
    case ClientRequired => "Client is required."
    case EnvironmentRequired => "Environment is required."
    case CustomUrlNotValid => "Custom connection URL is not valid."
    case LoginRequired => "Login is required."
    case TranKeyRequired => "Trankey is required."
  }

  /** The expiration field holds an integer no smaller than the minimum. */
  predicate ExpirationAccepted(value: string, filters: Filters) {
    filters.asInt(value).Some? && filters.asInt(value).value >= EXPIRATION_TIME_MINUTES_MIN
  }

  /** The error `e` alone when its check failed, nothing otherwise. */
  function When(failed: bool, e: FormError): (r: seq<FormError>)
    ensures forall x :: x in r <==> failed && x == e
    ensures |r| <= 1
  {
    if failed then [e] else []
  }

  /** When each check of the form fails, independently of the order the checks are made in. */
  predicate Failed(e: FormError, input: FormInput, filters: Filters) {
    match e
    case MerchantIdRequired => Php.Empty(input.companyDocument)
    case LegalNameRequired => Php.Empty(input.companyName)
    case EmailRequired => Php.Empty(input.emailContact)
    case EmailNotValid => !Php.Empty(input.emailContact) && !filters.isEmail(input.emailContact)
    case TelephoneRequired => Php.Empty(input.telephoneContact)
    case ExpirationRequired => Php.Empty(input.expirationMinutes)
    case ExpirationNotValid =>
      !Php.Empty(input.expirationMinutes) && !ExpirationAccepted(input.expirationMinutes, filters)
    case ClientRequired => Php.Empty(input.client)
    case EnvironmentRequired => Php.Empty(input.environment)
    case CustomUrlNotValid =>
      !Php.Empty(input.environment) && input.environment == CUSTOM && !filters.isUrl(input.customConnectionUrl)
    case LoginRequired => Php.Empty(input.login)
    case TranKeyRequired => Php.Empty(input.storedTranKey) && Php.Empty(input.tranKey)
  }

  /** The three groups the checks fall into. */
  datatype Group = Contact | Payment | Credentials

  function GroupOf(e: FormError): Group {
    match e
    case MerchantIdRequired | LegalNameRequired | EmailRequired | EmailNotValid | TelephoneRequired => Contact
    case ExpirationRequired | ExpirationNotValid | ClientRequired | EnvironmentRequired | CustomUrlNotValid => Payment
    case LoginRequired | TranKeyRequired => Credentials
  }

  /** The merchant and contact checks: document, legal name, email, telephone. */
  function ContactErrors(input: FormInput, filters: Filters): (r: seq<FormError>)
    ensures forall e :: e in r <==> GroupOf(e) == Contact && Failed(e, input, filters)
  {
    When(Php.Empty(input.companyDocument), MerchantIdRequired)
    + When(Php.Empty(input.companyName), LegalNameRequired)
    + (if Php.Empty(input.emailContact) then [EmailRequired]
       else When(!filters.isEmail(input.emailContact), EmailNotValid))
    + When(Php.Empty(input.telephoneContact), TelephoneRequired)
  }

  /** The payment checks: expiration time, client, environment and custom URL. */
  function PaymentErrors(input: FormInput, filters: Filters): (r: seq<FormError>)
    ensures forall e :: e in r <==> GroupOf(e) == Payment && Failed(e, input, filters)
  {
    (if Php.Empty(input.expirationMinutes) then [ExpirationRequired]
     else When(!ExpirationAccepted(input.expirationMinutes, filters), ExpirationNotValid))
    + When(Php.Empty(input.client), ClientRequired)
    + (if Php.Empty(input.environment) then [EnvironmentRequired]
       else When(input.environment == CUSTOM && !filters.isUrl(input.customConnectionUrl), CustomUrlNotValid))
  }

  /** The credential checks; the key is only demanded when none is stored yet. */
  function CredentialErrors(input: FormInput, filters: Filters): (r: seq<FormError>)
    ensures forall e :: e in r <==> GroupOf(e) == Credentials && Failed(e, input, filters)
  {
    When(Php.Empty(input.login), LoginRequired)
    + When(Php.Empty(input.storedTranKey) && Php.Empty(input.tranKey), TranKeyRequired)
  }

  /**
   * formValidation: collect one error per failed check, in the order the
   * checks are made; nothing is checked unless the form was submitted.
   */
  method FormValidation(input: FormInput, filters: Filters) returns (errors: seq<FormError>)
    ensures forall e :: e in errors <==> input.submitted && Failed(e, input, filters)
  {
    errors := [];
    if !input.submitted {
      return;
    }
    var contact := ContactErrors(input, filters);
    var payment := PaymentErrors(input, filters);
    var credentials := CredentialErrors(input, filters);
    errors := errors + contact;
    errors := errors + payment;
    errors := errors + credentials;
  }
}
