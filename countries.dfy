/**
 * Client identifiers whose values live in a constants file outside this model.
 * `go` and `gnt` are stored masked (ROT13) and are unmasked where they are used.
 */
module Clients {
  datatype ClientNames = ClientNames(ptp: string, pt: string, go: string, gnt: string)
}

/** The catch-all country configuration and the base endpoint table every country extends. */
module CountryConfig {
  import opened Environment
  import opened Clients

  /** resolve: the base configuration accepts every country code. */
  function Resolve(countryCode: string): (r: bool)
    ensures r
  {
    true
  }

  /** getEndpoints: the base PlacetoPay hosts. */
  function GetEndpoints(): (r: map<string, string>)
    ensures r.Keys == TableKeys()
    ensures r[PRODUCTION] == "https://checkout.placetopay.com"
    ensures r[TEST] == "https://checkout-test.placetopay.com"
    ensures r[DEVELOPMENT] == "https://checkout-co.placetopay.dev"
  {
    map[
      PRODUCTION := "https://checkout.placetopay.com",
      TEST := "https://checkout-test.placetopay.com",
      DEVELOPMENT := "https://checkout-co.placetopay.dev"
    ]
  }

  /** getClient: the single PlacetoPay client, mapped to itself. */
  function GetClient(names: ClientNames): (r: map<string, string>)
    ensures r.Keys == {names.ptp}
    ensures r[names.ptp] == names.ptp
  {
    map[names.ptp := names.ptp]
  }
}

module ColombiaCountryConfig {
  import opened Environment
  import opened Clients
  import opened Helpers
  import CountryCode
  import CountryConfig

  function Resolve(countryCode: string): (r: bool)
    ensures r <==> countryCode == CountryCode.COLOMBIA
  {
    CountryCode.COLOMBIA == countryCode
  }

  /**
   * getEndpoints: the GOU client gets its own production and test hosts (stored
   * masked), keeping the base development host; any other client gets the base table.
   */
  function GetEndpoints(client: string, names: ClientNames): (r: map<string, string>)
    ensures r.Keys == TableKeys()
    ensures client == UnmaskString(names.go) ==>
      && r[PRODUCTION] == "https://checkout.goupagos.com.co"
      && r[TEST] == "https://checkout.test.goupagos.com.co"
      && r[DEVELOPMENT] == CountryConfig.GetEndpoints()[DEVELOPMENT]
    ensures client != UnmaskString(names.go) ==> r == CountryConfig.GetEndpoints()
  {
    if client == UnmaskString(names.go) then
      GouProductionHost();
      GouTestHost();
      CountryConfig.GetEndpoints() + map[
        PRODUCTION := UnmaskString("uggcf://purpxbhg.tbhcntbf.pbz.pb"),
        TEST := UnmaskString("uggcf://purpxbhg.grfg.tbhcntbf.pbz.pb")
      ]
    else
      CountryConfig.GetEndpoints()
  }

  /** The masked GOU production host decodes to checkout.goupagos.com.co. */
  lemma GouProductionHost()
    ensures UnmaskString("uggcf://purpxbhg.tbhcntbf.pbz.pb") == "https://checkout.goupagos.com.co"
  {
    UnmaskStringPointwise("uggcf://purpxbhg.tbhcntbf.pbz.pb", "https://checkout.goupagos.com.co");
  }

  /** The masked GOU test host decodes to checkout.test.goupagos.com.co. */
  lemma GouTestHost()
    ensures UnmaskString("uggcf://purpxbhg.grfg.tbhcntbf.pbz.pb") == "https://checkout.test.goupagos.com.co"
  {
    UnmaskStringPointwise("uggcf://purpxbhg.grfg.tbhcntbf.pbz.pb", "https://checkout.test.goupagos.com.co");
  }

  /** getClient: PlacetoPay Colombia and GOU, each mapped to itself. */
  function GetClient(names: ClientNames): (r: map<string, string>)
    ensures r.Keys == {names.pt, UnmaskString(names.go)}
    ensures forall c :: c in r ==> r[c] == c
  {
    map[names.pt := names.pt, UnmaskString(names.go) := UnmaskString(names.go)]
  }
}

module ChileCountryConfig {
  import opened Environment
  import opened Clients
  import opened Helpers
  import CountryCode
  import CountryConfig

  function Resolve(countryCode: string): (r: bool)
    ensures r <==> countryCode == CountryCode.CHILE
  {
    CountryCode.CHILE == countryCode
  }

  /** getEndpoints: every environment overridden with the Getnet hosts; the client is not consulted. */
  function GetEndpoints(client: string): (r: map<string, string>)
    ensures r.Keys == TableKeys()
    ensures r[PRODUCTION] == "https://checkout.getnet.cl"
    ensures r[TEST] == "https://checkout.test.getnet.cl"
    ensures r[DEVELOPMENT] == "https://checkout-cl.placetopay.dev"
  {
    GetnetProductionHost();
    GetnetTestHost();
    CountryConfig.GetEndpoints() + map[
      PRODUCTION := UnmaskString("uggcf://purpxbhg.trgarg.py"),
      TEST := UnmaskString("uggcf://purpxbhg.grfg.trgarg.py"),
      DEVELOPMENT := "https://checkout-cl.placetopay.dev"
    ]
  }

  /** The masked Getnet production host decodes to checkout.getnet.cl. */
  lemma GetnetProductionHost()
    ensures UnmaskString("uggcf://purpxbhg.trgarg.py") == "https://checkout.getnet.cl"
  {
    UnmaskStringPointwise("uggcf://purpxbhg.trgarg.py", "https://checkout.getnet.cl");
  }

  /** The masked Getnet test host decodes to checkout.test.getnet.cl. */
  lemma GetnetTestHost()
    ensures UnmaskString("uggcf://purpxbhg.grfg.trgarg.py") == "https://checkout.test.getnet.cl"
  {
    UnmaskStringPointwise("uggcf://purpxbhg.grfg.trgarg.py", "https://checkout.test.getnet.cl");
  }

  /** The Chile table does not depend on the client argument. */
  lemma EndpointsIgnoreClient(a: string, b: string)
    ensures GetEndpoints(a) == GetEndpoints(b)
  {
  }

  /** getClient: the single (unmasked) Getnet client, mapped to itself. */
  function GetClient(names: ClientNames): (r: map<string, string>)
    ensures r.Keys == {UnmaskString(names.gnt)}
    ensures r[UnmaskString(names.gnt)] == UnmaskString(names.gnt)
  {
    map[UnmaskString(names.gnt) := UnmaskString(names.gnt)]
  }
}

module EcuadorCountryConfig {
  import opened Environment
  import CountryCode
  import CountryConfig

  function Resolve(countryCode: string): (r: bool)
    ensures r <==> countryCode == CountryCode.ECUADOR
  {
    CountryCode.ECUADOR == countryCode
  }

  /** getEndpoints: all three environments overridden with the Ecuador hosts. */
  function GetEndpoints(): (r: map<string, string>)
    ensures r.Keys == CountryConfig.GetEndpoints().Keys
    ensures r[PRODUCTION] == "https://checkout.placetopay.ec"
    ensures r[TEST] == "https://checkout-test.placetopay.ec"
    ensures r[DEVELOPMENT] == "https://checkout-ec.placetopay.dev"
  {
    CountryConfig.GetEndpoints() + map[
      PRODUCTION := "https://checkout.placetopay.ec",
      TEST := "https://checkout-test.placetopay.ec",
      DEVELOPMENT := "https://checkout-ec.placetopay.dev"
    ]
  }
}

module HondurasCountryConfig {
  import opened Environment
  import CountryCode
  import CountryConfig

  function Resolve(countryCode: string): (r: bool)
    ensures r <==> countryCode == CountryCode.HONDURAS
  {
    CountryCode.HONDURAS == countryCode
  }

  /** getEndpoints: test and production overridden, development inherited from the base table. */
  function GetEndpoints(client: string): (r: map<string, string>)
    ensures r.Keys == CountryConfig.GetEndpoints().Keys
    ensures r[TEST] == "https://uy-uat-checkout.placetopay.com"
    ensures r[PRODUCTION] == "https://checkout.placetopay.uy"
    ensures r[DEVELOPMENT] == CountryConfig.GetEndpoints()[DEVELOPMENT]
  {
    CountryConfig.GetEndpoints() + map[
      TEST := "https://uy-uat-checkout.placetopay.com",
      PRODUCTION := "https://checkout.placetopay.uy"
    ]
  }
}

module UruguayCountryConfig {
  import opened Environment
  import CountryCode
  import CountryConfig

  function Resolve(countryCode: string): (r: bool)
    ensures r <==> countryCode == CountryCode.URUGUAY
  {
    CountryCode.URUGUAY == countryCode
  }

  /** getEndpoints: only production is overridden. */
  function GetEndpoints(): (r: map<string, string>)
    ensures r.Keys == CountryConfig.GetEndpoints().Keys
    ensures r[PRODUCTION] == "https://abgateway.atlabank.com"
    ensures forall env :: env in r && env != PRODUCTION ==> r[env] == CountryConfig.GetEndpoints()[env]
  {
    CountryConfig.GetEndpoints() + map[PRODUCTION := "https://abgateway.atlabank.com"]
  }
}

module BelizeCountryConfig {
  import opened Environment
  import CountryCode
  import CountryConfig

  function Resolve(countryCode: string): (r: bool)
    ensures r <==> countryCode == CountryCode.BELIZE
  {
    CountryCode.BELIZE == countryCode
  }

  /** getEndpoints: only production is overridden. */
  function GetEndpoints(): (r: map<string, string>)
    ensures r.Keys == CountryConfig.GetEndpoints().Keys
    ensures r[PRODUCTION] == "https://abgateway.atlabank.com"
    ensures forall env :: env in r && env != PRODUCTION ==> r[env] == CountryConfig.GetEndpoints()[env]
  {
    CountryConfig.GetEndpoints() + map[PRODUCTION := "https://abgateway.atlabank.com"]
  }
}

/**
 * The ordered chain of country configurations, tried first match wins. The
 * order of the chain is configuration the model does not fix: it is a parameter.
 */
module CountryChain {
  import opened Wrappers
  import opened Clients
  import CountryConfig
  import ColombiaCountryConfig
  import ChileCountryConfig
  import EcuadorCountryConfig
  import HondurasCountryConfig
  import UruguayCountryConfig
  import BelizeCountryConfig

  datatype Config = Base | Colombia | Chile | Ecuador | Honduras | Uruguay | Belize

  function Resolves(config: Config, countryCode: string): bool {
    match config
    case Base => CountryConfig.Resolve(countryCode)
    case Colombia => ColombiaCountryConfig.Resolve(countryCode)
    case Chile => ChileCountryConfig.Resolve(countryCode)
    case Ecuador => EcuadorCountryConfig.Resolve(countryCode)
    case Honduras => HondurasCountryConfig.Resolve(countryCode)
    case Uruguay => UruguayCountryConfig.Resolve(countryCode)
    case Belize => BelizeCountryConfig.Resolve(countryCode)
  }

  /** getClient; Ecuador, Honduras, Uruguay and Belize inherit the base one. */
  function ClientOptions(config: Config, names: ClientNames): map<string, string> {
    match config
    case Colombia => ColombiaCountryConfig.GetClient(names)
    case Chile => ChileCountryConfig.GetClient(names)
    case _ => CountryConfig.GetClient(names)
  }

  /** Reference definition: the first configuration of the chain that resolves the code. */
  function FirstMatch(chain: seq<Config>, countryCode: string): Option<Config> {
    if chain == [] then None
    else if Resolves(chain[0], countryCode) then Some(chain[0])
    else FirstMatch(chain[1..], countryCode)
  }

  /** The first match resolves the code, and no configuration before it does. */
  lemma {:induction false} FirstMatchIsFirst(chain: seq<Config>, countryCode: string)
    ensures FirstMatch(chain, countryCode).Some? ==>
      exists k :: 0 <= k < |chain| && chain[k] == FirstMatch(chain, countryCode).value
        && Resolves(chain[k], countryCode)
        && forall j :: 0 <= j < k ==> !Resolves(chain[j], countryCode)
    ensures FirstMatch(chain, countryCode).None? <==>
      forall j :: 0 <= j < |chain| ==> !Resolves(chain[j], countryCode)
  {
    if chain != [] && !Resolves(chain[0], countryCode) {
      FirstMatchIsFirst(chain[1..], countryCode);
      if FirstMatch(chain, countryCode).Some? {
        var k :| 0 <= k < |chain[1..]| && chain[1..][k] == FirstMatch(chain, countryCode).value
          && Resolves(chain[1..][k], countryCode)
          && forall j :: 0 <= j < k ==> !Resolves(chain[1..][j], countryCode);
        assert chain[k + 1] == chain[1..][k];
        assert forall j :: 0 <= j < k + 1 ==> !Resolves(chain[j], countryCode) by {
          forall j | 0 <= j < k + 1 ensures !Resolves(chain[j], countryCode) {
            if j > 0 { assert chain[j] == chain[1..][j - 1]; }
          }
        }
      } else {
        forall j | 0 <= j < |chain| ensures !Resolves(chain[j], countryCode) {
          if j > 0 { assert chain[j] == chain[1..][j - 1]; }
        }
      }
    }
  }

  /** A chain that contains the catch-all base configuration always finds a match. */
  lemma {:induction false} CatchAllAlwaysMatches(chain: seq<Config>, countryCode: string)
    requires Base in chain
    ensures FirstMatch(chain, countryCode).Some?
  {
    if chain[0] != Base {
      CatchAllAlwaysMatches(chain[1..], countryCode);
    }
  }

  /**
   * getOptionListCountries: walk the chain, skip configurations that do not
   * resolve the store's country and return the client list of the first that does.
   */
  method OptionListCountries(chain: seq<Config>, countryCode: string, names: ClientNames)
    returns (options: map<string, string>)
    ensures FirstMatch(chain, countryCode).Some? ==>
      options == ClientOptions(FirstMatch(chain, countryCode).value, names)
    ensures FirstMatch(chain, countryCode).None? ==> options == map[]
  {
    var i := 0;
    while i < |chain|
      invariant 0 <= i <= |chain|
      invariant FirstMatch(chain, countryCode) == FirstMatch(chain[i..], countryCode)
    {
      assert chain[i..][1..] == chain[i + 1..];
      if !Resolves(chain[i], countryCode) {
        i := i + 1;
        continue;
      }
      return ClientOptions(chain[i], names);
    }
    return map[];
  }
}
