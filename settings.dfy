/**
 * Gateway connection settings: the constructor's validation and normalisation,
 * the URL getters and the memoised carrier.
 */
module Settings {
  import opened Wrappers

  const TP_REST: string := "rest"
  const TP_SOAP: string := "soap"
  const DEFAULT_TIMEOUT: int := 15
  const DEFAULT_VERIFY_SSL: bool := true

  /** The array handed to the constructor; None marks a key that is not set. */
  datatype SettingsData = SettingsData(
    login: Option<string>,
    tranKey: Option<string>,
    baseUrl: Option<string>,
    requestedType: Option<string>,
    timeout: Option<int>,
    verifySsl: Option<bool>,
    headers: map<string, string>)

  /** The two reasons construction is refused. */
  datatype SettingsError = MissingCredentials | MissingServiceUrl

  /** The values a successfully constructed settings object holds. */
  datatype SettingsValues = SettingsValues(
    serviceType: string,
    baseUrl: string,
    timeout: int,
    verifySsl: bool,
    login: string,
    tranKey: string,
    headers: map<string, string>)

  predicate EndsWithSlash(s: string) {
    |s| > 0 && s[|s| - 1] == '/'
  }

  /** Append a slash unless the URL already ends in one. */
  function WithTrailingSlash(url: string): (r: string)
    ensures EndsWithSlash(r)
    ensures EndsWithSlash(url) ==> r == url
    ensures !EndsWithSlash(url) ==> r == url + "/"
  {
    if EndsWithSlash(url) then url else url + "/"
  }

  /**
   * The constructor's checks and normalisation. `isValidUrl` stands for the
   * platform's URL filter, which this model does not define.
   */
  function Validate(data: SettingsData, isValidUrl: string -> bool): (r: Result<SettingsValues, SettingsError>)
    ensures r == Failure(MissingCredentials) <==> data.login.None? || data.tranKey.None?
    ensures r == Failure(MissingServiceUrl) <==>
      data.login.Some? && data.tranKey.Some? && (data.baseUrl.None? || !isValidUrl(data.baseUrl.value))
    ensures r.Success? ==>
      && data.baseUrl.Some?
      && EndsWithSlash(r.value.baseUrl)
      && (r.value.baseUrl == data.baseUrl.value || r.value.baseUrl == data.baseUrl.value + "/")
      && (EndsWithSlash(data.baseUrl.value) ==> r.value.baseUrl == data.baseUrl.value)
      && (r.value.serviceType == TP_SOAP <==> data.requestedType == Some(TP_SOAP))
      && (r.value.serviceType == TP_REST <==> data.requestedType != Some(TP_SOAP))
      && (data.timeout.None? ==> r.value.timeout == DEFAULT_TIMEOUT)
      && (data.timeout.Some? ==> r.value.timeout == data.timeout.value)
      && (data.verifySsl.None? ==> r.value.verifySsl == DEFAULT_VERIFY_SSL)
      && (data.verifySsl.Some? ==> r.value.verifySsl == data.verifySsl.value)
      && r.value.headers == data.headers
      && r.value.login == data.login.value
      && r.value.tranKey == data.tranKey.value
  {
    if data.login.None? || data.tranKey.None? then
      Failure(MissingCredentials)
    else if data.baseUrl.None? || !isValidUrl(data.baseUrl.value) then
      Failure(MissingServiceUrl)
    else
      var serviceType :=
        if data.requestedType == Some(TP_SOAP) || data.requestedType == Some(TP_REST)
        then data.requestedType.value else TP_REST;
      Success(SettingsValues(
        serviceType,
        WithTrailingSlash(data.baseUrl.value),
        data.timeout.GetOr(DEFAULT_TIMEOUT),
        data.verifySsl.GetOr(DEFAULT_VERIFY_SSL),
        data.login.value,
        data.tranKey.value,
        data.headers))
  }

  /** The REST carrier bound to a settings object. */
  class RestCarrier {
    const settings: Settings

    constructor (settings: Settings)
      ensures this.settings == settings
    {
      this.settings := settings;
    }
  }

  class Settings {
    var serviceType: string
    var baseUrl: string
    var timeout: int
    var verifySsl: bool
    var login: string
    var tranKey: string
    var headers: map<string, string>
    /** The memoised carrier; null until carrier() is first called. */
    var carrier: RestCarrier?

    ghost predicate Valid()
      reads this
    {
      && EndsWithSlash(baseUrl)
      && (serviceType == TP_REST || serviceType == TP_SOAP)
      && (carrier != null ==> carrier.settings == this)
    }

    constructor (values: SettingsValues)
      requires EndsWithSlash(values.baseUrl)
      requires values.serviceType == TP_REST || values.serviceType == TP_SOAP
      ensures Valid()
      ensures serviceType == values.serviceType && baseUrl == values.baseUrl
      ensures timeout == values.timeout && verifySsl == values.verifySsl
      ensures login == values.login && tranKey == values.tranKey && headers == values.headers
      ensures carrier == null
    {
      serviceType := values.serviceType;
      baseUrl := values.baseUrl;
      timeout := values.timeout;
      verifySsl := values.verifySsl;
      login := values.login;
      tranKey := values.tranKey;
      headers := values.headers;
      carrier := null;
    }

    /** new Settings($data): refuse missing credentials or service URL, else build the normalised object. */
    static method Create(data: SettingsData, isValidUrl: string -> bool)
      returns (r: Result<Settings, SettingsError>)
      ensures Validate(data, isValidUrl).Failure? ==> r == Failure(Validate(data, isValidUrl).error)
      ensures Validate(data, isValidUrl).Success? ==>
        && r.Success? && fresh(r.value) && r.value.Valid()
        && r.value.Values() == Validate(data, isValidUrl).value
        && r.value.carrier == null
    {
      var checked := Validate(data, isValidUrl);
      if checked.Failure? {
        return Failure(checked.error);
      }
      var settings := new Settings(checked.value);
      return Success(settings);
    }

    function Values(): SettingsValues
      reads this
    {
      SettingsValues(serviceType, baseUrl, timeout, verifySsl, login, tranKey, headers)
    }

    /** baseUrl(endpoint): the stored base, which ends in a slash, followed by the endpoint. */
    function BaseUrl(endpoint: string): (r: string)
      reads this
      requires Valid()
      ensures |r| == |baseUrl| + |endpoint|
      ensures r[..|baseUrl|] == baseUrl && r[|baseUrl|..] == endpoint
      ensures r[|baseUrl| - 1] == '/'
    {
      baseUrl + endpoint
    }

    /** wsdl(): the SOAP description URL. */
    function Wsdl(): (r: string)
      reads this
      requires Valid()
      ensures |r| == |baseUrl| + |"soap/redirect?wsdl"|
      ensures r[..|baseUrl|] == baseUrl && r[|baseUrl|..] == "soap/redirect?wsdl"
    {
      BaseUrl("soap/redirect?wsdl")
    }

    /** location(): the SOAP endpoint, which is the WSDL URL without its query. */
    function Location(): (r: string)
      reads this
      requires Valid()
      ensures |r| == |baseUrl| + |"soap/redirect"|
      ensures r[..|baseUrl|] == baseUrl && r[|baseUrl|..] == "soap/redirect"
      ensures r + "?wsdl" == Wsdl()
    {
      BaseUrl("soap/redirect")
    }

    /** carrier(): build the REST carrier on the first call and hand back the same instance afterwards. */
    method Carrier() returns (c: RestCarrier)
      requires Valid()
      modifies this`carrier
      ensures Valid()
      ensures carrier == c && c.settings == this
      ensures old(carrier) != null ==> c == old(carrier)
      ensures old(carrier) == null ==> fresh(c)
    {
      if carrier != null {
        return carrier;
      }
      c := new RestCarrier(this);
      carrier := c;
    }
  }

  /** Two calls to carrier() return the same object. */
  method CarrierIsMemoised(settings: Settings) returns (first: RestCarrier, second: RestCarrier)
    requires settings.Valid()
    modifies settings`carrier
    ensures first == second && settings.carrier == first
  {
    first := settings.Carrier();
    second := settings.Carrier();
  }
}
