/** The switch-based endpoint table of the generic build. */
module PaymentUrl {
  import opened Wrappers
  import opened Environment
  import CountryCode

  /** getDefaultEndpoints: the global PlacetoPay hosts. */
  function DefaultEndpoints(): (r: map<string, string>)
    ensures r.Keys == TableKeys()
    ensures r[PRODUCTION] == "https://checkout.placetopay.com"
    ensures r[TEST] == "https://test.placetopay.com/redirection"
    ensures r[DEVELOPMENT] == "https://dev.placetopay.com/redirection"
  {
    map[
      PRODUCTION := "https://checkout.placetopay.com",
      TEST := "https://test.placetopay.com/redirection",
      DEVELOPMENT := "https://dev.placetopay.com/redirection"
    ]
  }

  /** Ecuador's own hosts. */
  function EcuadorEndpoints(): map<string, string> {
    map[
      PRODUCTION := "https://checkout.placetopay.ec",
      TEST := "https://test.placetopay.ec/redirection",
      DEVELOPMENT := "https://dev.placetopay.ec/redirection"
    ]
  }

  /**
   * getEndpointsTo as intended: Ecuador has its own hosts and every other code
   * (the listed Colombia, Costa Rica, Mexico and Peru cases included) falls to
   * the default table.
   */
  function EndpointsTo(countryCode: string): (r: map<string, string>)
    ensures r.Keys == TableKeys()
    ensures countryCode == CountryCode.ECUADOR ==>
      && r[PRODUCTION] == "https://checkout.placetopay.ec"
      && r[TEST] == "https://test.placetopay.ec/redirection"
      && r[DEVELOPMENT] == "https://dev.placetopay.ec/redirection"
    ensures countryCode != CountryCode.ECUADOR ==> r == DefaultEndpoints()
  {
    if countryCode == CountryCode.ECUADOR then EcuadorEndpoints() else DefaultEndpoints()
  }

  /** A case label of getEndpointsTo's switch: a code CountryCode declares, or a constant it does not declare. */
  datatype Label = Declared(code: string) | Undeclared(name: string)

  /** The switch's case labels in order; CountryCode declares neither MEXICO nor PERU. */
  function Labels(): seq<Label> {
    [Declared(CountryCode.ECUADOR), Undeclared("MEXICO"), Undeclared("PERU"),
     Declared(CountryCode.COLOMBIA), Declared(CountryCode.COSTA_RICA)]
  }

  /** Where a switch lands: the first equal label, no label (the default), or an undeclared label that raised. */
  datatype SwitchResult = Matched(position: nat) | NoCase | Raised(position: nat)

  /**
   * PHP's switch: the case labels are evaluated in order until one equals the
   * subject; evaluating an undeclared class constant raises an Error.
   */
  function Switch(labels: seq<Label>, subject: string, from: nat): (r: SwitchResult)
    requires from <= |labels|
    ensures r.Matched? ==>
      && from <= r.position < |labels| && labels[r.position] == Declared(subject)
      && forall j :: from <= j < r.position ==> labels[j].Declared? && labels[j].code != subject
    ensures r.Raised? ==>
      && from <= r.position < |labels| && labels[r.position].Undeclared?
      && forall j :: from <= j < r.position ==> labels[j].Declared? && labels[j].code != subject
    ensures r.NoCase? <==> forall j :: from <= j < |labels| ==> labels[j].Declared? && labels[j].code != subject
    decreases |labels| - from
  {
    if from == |labels| then NoCase
    else match labels[from]
      case Undeclared(_) => Raised(from)
      case Declared(code) => if code == subject then Matched(from) else Switch(labels, subject, from + 1)
  }

  /**
   * getEndpointsTo as written: None when the switch raises. Only "ec" is
   * decided before the undeclared MEXICO label is evaluated.
   */
  function EndpointsAsWritten(countryCode: string): (r: Option<map<string, string>>)
    ensures r.Some? <==> countryCode == CountryCode.ECUADOR
    ensures r.Some? ==> r.value == EndpointsTo(countryCode)
  {
    match Switch(Labels(), countryCode, 0)
    case Matched(position) => Some(if position == 0 then EcuadorEndpoints() else DefaultEndpoints())
    case NoCase => Some(DefaultEndpoints())
    case Raised(_) => None
  }

  /** The discrepancy: Colombia, listed among the default cases, raises as written. */
  lemma ColombiaRaisesAsWritten()
    ensures EndpointsAsWritten(CountryCode.COLOMBIA) == None
    ensures EndpointsTo(CountryCode.COLOMBIA) == DefaultEndpoints()
  {
  }

  /**
   * Matching is case-sensitive: the upper-case code "EC" gets the default
   * table as intended, and raises as written.
   */
  lemma UpperCaseCodeIsDefault()
    ensures EndpointsTo("EC") == DefaultEndpoints()
    ensures EndpointsTo("EC")[PRODUCTION] != EndpointsTo(CountryCode.ECUADOR)[PRODUCTION]
    ensures EndpointsAsWritten("EC") == None
  {
  }
}

/** The Chile (Banchile) build's endpoint table: a Chile override merged over a base table. */
module BanchilePaymentUrl {
  import opened Environment
  import CountryCode

  function BaseTable(): (r: map<string, string>)
    ensures r.Keys == TableKeys()
  {
    map[
      PRODUCTION := "https://checkout.placetopay.com",
      TEST := "https://checkout-test.placetopay.com",
      DEVELOPMENT := "https://checkout-co.placetopay.dev"
    ]
  }

  /** The per-country override; empty for every code but Chile. */
  function Override(countryCode: string): (r: map<string, string>)
    ensures countryCode == CountryCode.CHILE ==> r.Keys == TableKeys()
    ensures countryCode != CountryCode.CHILE ==> r == map[]
  {
    if countryCode == CountryCode.CHILE then
      map[
        PRODUCTION := "https://checkout.getnet.cl",
        TEST := "https://checkout.test.getnet.cl",
        DEVELOPMENT := "https://checkout-cl.placetopay.dev"
      ]
    else
      map[]
  }

  /** getEndpointsTo: array_merge of the base table and the override, the override winning. */
  function EndpointsTo(countryCode: string): (r: map<string, string>)
    ensures r.Keys == TableKeys()
    ensures forall env :: env in Override(countryCode) ==> r[env] == Override(countryCode)[env]
    ensures forall env :: env in BaseTable() && env !in Override(countryCode) ==> r[env] == BaseTable()[env]
    ensures countryCode != CountryCode.CHILE ==> r == BaseTable()
  {
    BaseTable() + Override(countryCode)
  }

  /** Chile gets the Getnet triple. */
  lemma ChileEndpoints()
    ensures EndpointsTo(CountryCode.CHILE)[PRODUCTION] == "https://checkout.getnet.cl"
    ensures EndpointsTo(CountryCode.CHILE)[TEST] == "https://checkout.test.getnet.cl"
    ensures EndpointsTo(CountryCode.CHILE)[DEVELOPMENT] == "https://checkout-cl.placetopay.dev"
  {
  }
}
