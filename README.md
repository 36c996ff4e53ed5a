# PlacetoPay payment module for PrestaShop — a Dafny model

This project models the core of the PlacetoPay payment module for PrestaShop.

- **Redirect.** The module sends a customer from the checkout to the PlacetoPay gateway. It creates the order in the module's waiting state, builds the session request and records the payment.
- **Settlement.** It settles a payment when the customer comes back (the return URL carries the order reference in base64) or when the gateway notifies it (by request id).
- **Sweep.** A console sweep resolves every payment that is still pending.
- **Reconciliation.** Each gateway answer becomes a local status (FAILED 0, APPROVED 1, REJECTED 2, PENDING 3, DUPLICATE 4). It moves the order along a fixed state machine in which a paid order is final. It also projects the transaction's details onto the payment row.
- **Supporting pieces:**
  - the gateway endpoint tables (per country and per environment) and the country configuration chain;
  - the connection settings object;
  - the admin form validation;
  - the small string helpers (ROT13 unmasking, path fixing, line breaks).

Modules:

| file | modules |
|---|---|
| `wrappers.dfy` | `Wrappers` (Option, Result), `Php` (PHP `empty()` on strings) |
| `helpers.dfy` | `Helpers` |
| `constants.dfy` | `Environment`, `CountryCode`, `PaymentStatus` |
| `endpoints.dfy` | `PaymentUrl`, `BanchilePaymentUrl` |
| `countries.dfy` | `Clients`, `CountryConfig` and the six country configurations, `CountryChain` |
| `settings.dfy` | `Settings` |
| `gateway.dfy` | `Gateway` (the gateway messages the module reads), `Installments` |
| `base64.dfy` | `Base64` (the order reference encoding) |
| `reconciliation.dfy` | `Reconciliation` |
| `configuration.dfy` | `Configuration` |
| `checkout.dfy` | `Checkout` (session request, return URL) |
| `payments.dfy` | `Payments` (the `PlacetoPayPayment` class and its flows) |

How the model represents the module's state and surroundings:

- **Payment table.** It is a sequence of rows. A row's `id_payment` is its position plus one, as the auto-increment key gives it. A SELECT's "first row" and the sweep's order are therefore table order.
- **Orders and history.** Orders, the order of each cart, and the order history are fields of the `PlacetoPayPayment` class.
- **Gateway calls.** The gateway's query and session calls are function parameters, and a ghost log records every request id queried.
- **Platform filters.** PHP's URL, e-mail and integer filters are function parameters.

Where the module's documentation and its code disagree, the model follows the code:

- **The sweep stops at the first failing query.** `resolvePendingPayments` puts one try/catch around the whole loop (`src/Models/PlacetoPayPayment.php:931-981`). A gateway query that raises ends the sweep, and later pending payments are not visited (`Payments.SweepOutcome.Aborted`).
- **Expiration below the minimum falls back to the default.** `getExpirationTimeMinutes` does not raise a value below the minimum of 10 to 10. It falls back to the default of 120.
- **Unsuccessful answers stay pending.** `getStatusPayment` maps an unsuccessful answer that is not rejected to PENDING, not to FAILED.
- **The sweep settles unsuccessful answers too.** It settles with whatever status the answer gives. `process` only settles successful answers and raises error 13 otherwise.
- **The base URL is not normalised.** The settings constructor appends a slash only when the URL does not already end in one. A URL ending in `//` is kept as it is.
- **Country codes are case-sensitive.** Matching is exact and lower-case, so `EC` does not get Ecuador's hosts.

One discrepancy in the code itself is listed under "## Findings": the generic endpoint switch names two country constants that are not declared.

## Model

| member | source | states |
|---|---|---|
| Helpers.Rot13Char | helpers.php:94-99 | ROT13 moves a letter 13 places on, wrapping within its own case (lower-case stays lower-case, upper-case stays upper-case), and leaves every other character unchanged |
| Helpers.Rot13CharInvolution | helpers.php:94-99 | rotating a character twice gives it back |
| Helpers.UnmaskString | helpers.php:94-99 | unmasking keeps the length of the string |
| Helpers.UnmaskStringPointwise | helpers.php:94-99 | a string whose every character is the rotation of the input's is the unmasked input |
| Helpers.UnmaskStringKeepsNonLetters | helpers.php:94-99 | non-letters are not changed by unmasking |
| Helpers.UnmaskStringInvolution | helpers.php:94-99 | unmasking twice gives the masked string back, so masked client names and hosts round-trip |
| Helpers.RepeatLength | helpers.php:73 | repeating a string n times gives n times its length |
| Helpers.RepeatAdd | helpers.php:73 | repeating a+b times is repeating a times followed by b times |
| Helpers.RepeatPeriodic | helpers.php:73 | n copies of a string repeat with period its length |
| Helpers.BreakLine | helpers.php:64-75 | the result is `multiplier` copies of the line break (PHP_EOL on the console, `<br />` otherwise): its length is `multiplier` times the break's, it starts with the break and repeats with the break's length as period; it is empty exactly when the multiplier is 0 |
| Helpers.BreakLineDefault | helpers.php:64-75 | with the default multiplier of 1 the result is the break itself |
| Helpers.ModuleName | helpers.php:77-82 | the module's technical name is "placetopaypayment" |
| Helpers.ReplaceChar | helpers.php:90 | replacing one character keeps the length |
| Helpers.ReplaceCharAt | helpers.php:90 | each position holds the replacement where it held the replaced character, otherwise what it held |
| Helpers.FixPath | helpers.php:84-92 | fixing a path keeps its length |
| Helpers.FixPathAt | helpers.php:84-92 | every backslash and slash becomes the directory separator, every other character is kept |
| Helpers.FixPathOnlySeparator | helpers.php:84-92 | a fixed path holds no slash or backslash other than the separator |
| Helpers.FixPathIdempotent | helpers.php:84-92 | fixing a fixed path changes nothing |
| PaymentStatus.StatusLabels | src/Constants/PaymentStatus.php:14-42 | the label table covers exactly FAILED, APPROVED, REJECTED and PENDING; DUPLICATE has no label |
| PaymentUrl.DefaultEndpoints | src/Constants/PaymentUrl.php:14-21 | exactly the production, test and development hosts of the default table |
| PaymentUrl.EndpointsTo | src/Constants/PaymentUrl.php:27-47 | as intended: `ec` gets the Ecuador hosts, any other code exactly the default table; both define the three environments |
| PaymentUrl.Switch | src/Constants/PaymentUrl.php:29-44 | the switch lands on the first label equal to the subject, raises at the first undeclared label reached before that, and takes the default exactly when every label is declared and differs |
| PaymentUrl.EndpointsAsWritten | src/Constants/PaymentUrl.php:27-47 | as written: a table exactly for `ec`, the same as the intended one; every other code raises |
| PaymentUrl.ColombiaRaisesAsWritten | src/Constants/PaymentUrl.php:37-39 | `co`, listed among the default cases, raises as written and gets the default table as intended |
| PaymentUrl.UpperCaseCodeIsDefault | src/Constants/PaymentUrl.php:29-37 | matching is case-sensitive: `EC` gets the default table as intended, whose production host differs from Ecuador's, and raises as written |
| BanchilePaymentUrl.BaseTable | config/templates/BanchilePaymentUrl.php:20-24 | the base table defines the three environments |
| BanchilePaymentUrl.Override | config/templates/BanchilePaymentUrl.php:9-18 | Chile overrides all three environments; any other code overrides nothing |
| BanchilePaymentUrl.EndpointsTo | config/templates/BanchilePaymentUrl.php:7-25 | the override wins over the base table, other entries come from the base, and a non-Chile code gets the base table |
| BanchilePaymentUrl.ChileEndpoints | config/templates/BanchilePaymentUrl.php:10-16 | Chile's hosts are checkout.getnet.cl, checkout.test.getnet.cl and checkout-cl.placetopay.dev |
| CountryConfig.Resolve | src/Countries/CountryConfig.php:11-14 | the base configuration resolves every country code |
| CountryConfig.GetEndpoints | src/Countries/CountryConfig.php:16-23 | the base hosts for production, test and development |
| CountryConfig.GetClient | src/Countries/CountryConfig.php:25-30 | the base client list holds only the PlacetoPay client, mapped to itself |
| ColombiaCountryConfig.Resolve | src/Countries/ColombiaCountryConfig.php:11-14 | resolves exactly `co` |
| ColombiaCountryConfig.GetEndpoints | src/Countries/ColombiaCountryConfig.php:16-26 | for the unmasked GO client the production and test hosts are overridden and development is the base host; for any other client the base table |
| ColombiaCountryConfig.GouProductionHost | src/Countries/ColombiaCountryConfig.php:20 | the masked production host unmasks to https://checkout.goupagos.com.co |
| ColombiaCountryConfig.GouTestHost | src/Countries/ColombiaCountryConfig.php:21 | the masked test host unmasks to https://checkout.test.goupagos.com.co |
| ColombiaCountryConfig.GetClient | src/Countries/ColombiaCountryConfig.php:28-34 | the client list holds the PT client and the unmasked GO client, each mapped to itself |
| ChileCountryConfig.Resolve | src/Countries/ChileCountryConfig.php:11-14 | resolves exactly `cl` |
| ChileCountryConfig.GetEndpoints | src/Countries/ChileCountryConfig.php:16-23 | the getnet production and test hosts and the Chile development host, whatever the client |
| ChileCountryConfig.GetnetProductionHost | src/Countries/ChileCountryConfig.php:19 | the masked production host unmasks to https://checkout.getnet.cl |
| ChileCountryConfig.GetnetTestHost | src/Countries/ChileCountryConfig.php:20 | the masked test host unmasks to https://checkout.test.getnet.cl |
| ChileCountryConfig.EndpointsIgnoreClient | src/Countries/ChileCountryConfig.php:16-23 | the table does not depend on the client |
| ChileCountryConfig.GetClient | src/Countries/ChileCountryConfig.php:25-30 | the client list holds only the unmasked GNT client |
| EcuadorCountryConfig.Resolve | src/Countries/EcuadorCountryConfig.php:10-13 | resolves exactly `ec` |
| EcuadorCountryConfig.GetEndpoints | src/Countries/EcuadorCountryConfig.php:15-22 | all three environments are overridden with the Ecuador hosts |
| HondurasCountryConfig.Resolve | src/Countries/HondurasCountryConfig.php:10-13 | resolves exactly `hn` |
| HondurasCountryConfig.GetEndpoints | src/Countries/HondurasCountryConfig.php:15-21 | test and production are overridden, development stays the base host |
| UruguayCountryConfig.Resolve | src/Countries/UruguayCountryConfig.php:10-13 | resolves exactly `uy` |
| UruguayCountryConfig.GetEndpoints | src/Countries/UruguayCountryConfig.php:15-20 | production is abgateway.atlabank.com, test and development stay the base hosts |
| BelizeCountryConfig.Resolve | src/Countries/BelizeCountryConfig.php:10-13 | resolves exactly `bz` |
| BelizeCountryConfig.GetEndpoints | src/Countries/BelizeCountryConfig.php:15-20 | production is abgateway.atlabank.com, test and development stay the base hosts |
| CountryChain.FirstMatchIsFirst | src/Models/PlacetoPayPayment.php:2506-2518 | the configuration chosen resolves the code and none before it in the chain does; none is chosen exactly when none resolves it |
| CountryChain.CatchAllAlwaysMatches | src/Models/PlacetoPayPayment.php:2506-2518 | a chain holding the catch-all base configuration always chooses one |
| CountryChain.OptionListCountries | src/Models/PlacetoPayPayment.php:2506-2518 | the client list of the first configuration that resolves the store country, empty when none does |
| Settings.WithTrailingSlash | src/Helpers/Settings.php:40-42 | the result ends in a slash; a URL already ending in one is kept, otherwise one slash is appended |
| Settings.Validate | src/Helpers/Settings.php:30-60 | fails with missing credentials exactly when login or tranKey is unset, with a missing service URL exactly when credentials are set but the URL is unset or invalid; on success the URL ends in a slash, the type is SOAP exactly when SOAP was asked, timeout 15 and SSL verification on unless given, the given timeout, SSL flag, headers and credentials kept |
| Settings.RestCarrier.constructor | src/Helpers/Settings.php:130 | the carrier holds the settings it was built from |
| Settings.Settings.constructor | src/Helpers/Settings.php:30-60 | the object holds the validated values and no carrier |
| Settings.Settings.Create | src/Helpers/Settings.php:30-60 | construction fails with the validation error, or yields an object holding the validated values |
| Settings.Settings.BaseUrl | src/Helpers/Settings.php:62-65 | the base URL, which ends in a slash, followed by the endpoint |
| Settings.Settings.Wsdl | src/Helpers/Settings.php:67-70 | the base URL followed by `soap/redirect?wsdl` |
| Settings.Settings.Location | src/Helpers/Settings.php:72-75 | the base URL followed by `soap/redirect`, which is the WSDL address without `?wsdl` |
| Settings.Settings.Carrier | src/Helpers/Settings.php:124-133 | an existing carrier is returned unchanged; otherwise a fresh carrier for these settings is stored and returned |
| Settings.CarrierIsMemoised | src/Helpers/Settings.php:124-133 | two calls return the same carrier |
| Gateway.Lookup | src/Models/PlacetoPayPayment.php:1210 | a value found under the key, None when no entry has it |
| Gateway.LookupFirst | src/Models/PlacetoPayPayment.php:1210 | the value found is exactly the one under the first entry with the key |
| Installments.FirstNumeric | src/Models/PlacetoPayPayment.php:1209-1213 | the first numeric candidate, None when no candidate is numeric |
| Installments.FirstNumericAppend | src/Models/PlacetoPayPayment.php:1205-1237 | searching two lists in turn is searching their concatenation |
| Installments.TopLevelInstallmentsWins | src/Models/PlacetoPayPayment.php:1209-1213 | a numeric top-level `installments` decides the count |
| Installments.TopLevelInstallmentWins | src/Models/PlacetoPayPayment.php:1209-1213 | with no numeric `installments`, a numeric top-level `installment` decides the count |
| Installments.InstallmentsSound | src/Models/PlacetoPayPayment.php:1205-1237 | the count is 0 or the value of some numeric candidate |
| Installments.NumericFromKeys | src/Models/PlacetoPayPayment.php:1209-1213 | the loop over the two keys finds the first numeric one |
| Installments.GetInstallments | src/Models/PlacetoPayPayment.php:1205-1237 | the three searches (top level, processor fields, nested arrays) give the specified count, 0 when none is found |
| Base64.ValueOf | src/Models/PlacetoPayPayment.php:2819-2824 | a character that decodes has a value in 0-63 whose encoding character is that character; with `ValueOfCharOf` the alphabet is exactly the 64 base64 characters |
| Base64.ValueOfCharOf | src/Models/PlacetoPayPayment.php:2819-2824 | decoding a character of the alphabet gives back its value |
| Base64.Encode | src/Models/PlacetoPayPayment.php:2819-2824 | encoded references have a length that is a multiple of 4 |
| Base64.DecodeOneByte | src/Models/PlacetoPayPayment.php:2819-2824 | a padded block of one byte decodes back to that byte |
| Base64.DecodeTwoBytes | src/Models/PlacetoPayPayment.php:2819-2824 | a padded block of two bytes decodes back to them |
| Base64.DecodeFullBlock | src/Models/PlacetoPayPayment.php:2819-2824 | a full block followed by a decodable rest decodes to its three bytes and the rest |
| Base64.RoundTripOneByte | src/Models/PlacetoPayPayment.php:2819-2824 | a one-byte reference survives encoding and decoding |
| Base64.RoundTripTwoBytes | src/Models/PlacetoPayPayment.php:2819-2824 | a two-byte reference survives encoding and decoding |
| Base64.RoundTripBlock | src/Models/PlacetoPayPayment.php:2819-2824 | if the rest after three bytes survives the round trip, so does the whole reference |
| Base64.DecodeEncode | src/Models/PlacetoPayPayment.php:2819-2824 | decoding an encoded reference gives it back (the return flow's round trip) |
| Reconciliation.StatusOf | src/Models/PlacetoPayPayment.php:2339-2354 | APPROVED exactly for a successful approved answer, REJECTED exactly for a rejected one (successful or not, when not approved), PENDING otherwise; never FAILED or DUPLICATE |
| Reconciliation.StatusDescription | src/Models/PlacetoPayPayment.php:2302-2337 | "ok" exactly for APPROVED and DUPLICATE, "fail" for FAILED, "rejected" for REJECTED, "pending" for everything else |
| Reconciliation.PaidOrderIsFinal | src/Models/PlacetoPayPayment.php:1092 | a paid order is never moved, whatever the status |
| Reconciliation.OrderTransitionCases | src/Models/PlacetoPayPayment.php:1089-1133 | FAILED moves an unpaid order to error and REJECTED to canceled unless it is already in error or canceled; APPROVED and DUPLICATE move it to paid; PENDING moves nothing |
| Reconciliation.SecondSettlementWritesNothing | src/Models/PlacetoPayPayment.php:1089-1133 | settling again with the status just applied writes no second history entry |
| Reconciliation.RemoveStars | src/Models/PlacetoPayPayment.php:1169 | removing stars never lengthens the string |
| Reconciliation.RemoveStarsSingle | src/Models/PlacetoPayPayment.php:1169 | a star is dropped and any other character kept |
| Reconciliation.RemoveStarsAppend | src/Models/PlacetoPayPayment.php:1169 | removing stars from a concatenation is removing them from each part, in order; with `RemoveStarsSingle` this gives exactly the non-star characters in order |
| Reconciliation.RemoveStarsClean | src/Models/PlacetoPayPayment.php:1169 | the result holds no star, removing stars again changes nothing, and a string without stars is kept |
| Reconciliation.Project | src/Models/PlacetoPayPayment.php:1138-1203 | the row gets the new status and keeps its id, cart, currency, amount, IP address, request id and reference |
| Reconciliation.ProjectWithoutSettlement | src/Models/PlacetoPayPayment.php:1140-1152 | without a successful last transaction the transaction fields are blanked and the answer's own status date, reason and message are written |
| Reconciliation.ProjectWithSettlement | src/Models/PlacetoPayPayment.php:1154-1170 | with a successful last transaction its bank, franchise, authorization, receipt, conversion factor, installments and status text are written, and the last digits are the transaction's `lastDigits` entry with the stars removed (blank when it has none), holding no star |
| Reconciliation.ProjectPayerEmail | src/Models/PlacetoPayPayment.php:1172-1176 | the payer e-mail is the echoed non-empty one, otherwise blank |
| Configuration.ExpirationTimeMinutes | src/Models/PlacetoPayPayment.php:1922-1929 | at least 10; the configured value when numeric and at least 10, otherwise 120 |
| Configuration.EffectiveEnvironment | src/Models/PlacetoPayPayment.php:1971-1978 | the configured environment, TEST when it is empty |
| Configuration.Uri | src/Models/PlacetoPayPayment.php:2009-2021 | in the custom environment the custom URL (none when empty); in production, test or development the store country's host; none for any other environment |
| Configuration.UnsetEnvironmentUsesTest | src/Models/PlacetoPayPayment.php:1971-1978 | with no environment configured the country's test host is used |
| Configuration.RedirectPage | src/Models/PlacetoPayPayment.php:2036-2059 | guests get the confirmation page; logged-in customers the order details, history or home page as configured, the confirmation page otherwise |
| Configuration.IsSetCredentials | src/Models/PlacetoPayPayment.php:2761-2764 | true exactly when neither login nor transaction key is PHP-empty |
| Configuration.When | src/Models/PlacetoPayPayment.php:1449-1507 | the error is listed exactly when its check failed |
| Configuration.ContactErrors | src/Models/PlacetoPayPayment.php:1455-1471 | exactly the failed merchant, legal name, e-mail and telephone checks |
| Configuration.PaymentErrors | src/Models/PlacetoPayPayment.php:1474-1495 | exactly the failed expiration, client, environment and custom URL checks |
| Configuration.CredentialErrors | src/Models/PlacetoPayPayment.php:1497-1503 | exactly the failed login and transaction key checks; the key is demanded only when the stored one is empty |
| Configuration.FormValidation | src/Models/PlacetoPayPayment.php:1449-1507 | an error is reported exactly when the form was submitted and its check fails |
| Checkout.ReturnUrl | src/Models/PlacetoPayPayment.php:619 | the return URL is the module's process page followed by the encoded reference |
| Checkout.ReturnUrlCarriesReference | src/Models/PlacetoPayPayment.php:619 | the return URL's query parameter decodes back to the order reference |
| Checkout.Mobile | src/Models/PlacetoPayPayment.php:634-636 | the buyer's mobile is the mobile phone unless empty, then the landline |
| Checkout.BuildRequest | src/Models/PlacetoPayPayment.php:597-679 | the request carries the locale, the return URL, reference, description, currency, total, buyer (the delivery address's first name, last name, country and city, the customer's e-mail) and expiration (now plus the expiration minutes, at least 10 minutes); one value-added tax entry exactly when taxes are on and positive, with amount plus base equal to the total; one federal-government modifier exactly for Uruguayan stores with a discount |
| Payments.FirstMatch | src/Models/PlacetoPayPayment.php:2065-2080 | the first matching row from a position on, none when no row matches |
| Payments.FindBy | src/Models/PlacetoPayPayment.php:2065-2080 | an empty value finds nothing; otherwise the first matching row, none only when no row matches |
| Payments.Locate | src/Models/PlacetoPayPayment.php:761-788 | the payment process looks at is a row of the table; with neither a reference nor a notification there is none |
| Payments.FirstMatchSameMatches | src/Models/PlacetoPayPayment.php:2065-2080 | tables whose rows match alike give the same first match |
| Payments.FindAppendedByReference | src/Models/PlacetoPayPayment.php:2065-2080 | a row with a fresh non-empty reference appended to the table is found by that reference |
| Payments.Asked | src/Models/PlacetoPayPayment.php:761-805 | the payment asked about is the located one, exactly when it is still pending |
| Payments.Expected | src/Models/PlacetoPayPayment.php:759-891 | an invalid notification is refused; not found exactly when no payment is located; not pending exactly when the located payment is not pending; for a located pending payment: the query failure exactly when the query raises, unsuccessful (13) exactly for an unsuccessful answer, the missing order (14) exactly for a successful answer whose cart has no order, settled with the answer's status exactly for a successful answer whose cart has an order |
| Payments.LocateAfterUpdate | src/Models/PlacetoPayPayment.php:1138-1203 | updating a payment does not change which payment a reference or request id finds |
| Payments.SettledPaymentIsNotProcessedAgain | src/Models/PlacetoPayPayment.php:817-836 | after a payment was settled with a final status, the same return or notification finds it not pending, whatever the gateway would answer |
| Payments.ReturnFindsRecordedPayment | src/Models/PlacetoPayPayment.php:619 | the return URL of a payment recorded with a fresh reference locates that payment |
| Payments.UpdatedRows | src/Models/PlacetoPayPayment.php:1178-1193 | the row whose id is given gets the projected answer, every other row is kept, and the number of rows is kept |
| Payments.Swept | src/Models/PlacetoPayPayment.php:937-972 | rows not pending, without a request id, whose query raises or whose cart has no order are left as they are; a pending row with a request id, an answer and an order gets the answer projected with its status; identity fields are kept |
| Payments.PendingRequestIds | src/Models/PlacetoPayPayment.php:946-951 | a request id is asked exactly when it is non-zero and some pending row carries it; at most once per row |
| Payments.SweepTransition | src/Models/PlacetoPayPayment.php:946-964 | a row moves an order exactly when it is pending, has a request id and an answer, its cart has an order, and the transition moves that order; the move names that order and the transition's state |
| Payments.Moved | src/Models/PlacetoPayPayment.php:1089-1133 | a move sets the moved order's state and leaves every other order as it was |
| Payments.SweptOrders | src/Models/PlacetoPayPayment.php:937-972 | the orders after settling rows in table order: no order appears or disappears, only states change, and a paid order stays paid |
| Payments.SweptHistory | src/Models/PlacetoPayPayment.php:937-972 | the history the sweep writes: at most one entry per row, each naming a known order and notifying the customer |
| Payments.SweptChangesAreLogged | src/Models/PlacetoPayPayment.php:937-972 | every order whose state the sweep changed has a notifying history entry with its final state |
| Payments.SweptPrefixStep | src/Models/PlacetoPayPayment.php:937-972 | settling one more row applies its move to the orders and appends its entry to the history |
| Payments.SweepInvariantStep | src/Models/PlacetoPayPayment.php:937-972 | settling row i as one turn does carries the sweep's invariant from i rows to i+1 |
| Payments.PendingRequestIdsStep | src/Models/PlacetoPayPayment.php:937-972 | the ids asked for a longer prefix are those of the prefix then those of the new row |
| Payments.PlacetoPayPayment.constructor | src/Models/PlacetoPayPayment.php:1320-1350 | an installed module starts with the empty payment table it created, no orders and no history |
| Payments.PlacetoPayPayment.InsertPayment | src/Models/PlacetoPayPayment.php:1029-1084 | one row is appended with the next id, the given values and the defaults: empty reason, the message as description, conversion 1, authorization 000000 |
| Payments.PlacetoPayPayment.UpdateTransaction | src/Models/PlacetoPayPayment.php:1138-1203 | the payment with the id is projected with the answer; no payment with the id, no change |
| Payments.PlacetoPayPayment.SettleTransaction | src/Models/PlacetoPayPayment.php:1089-1133 | the order moves as the transition says with a notifying history entry (or not at all), and the payment is updated in every case |
| Payments.PlacetoPayPayment.UpdateCurrentOrderWithError | src/Models/PlacetoPayPayment.php:1240-1246 | the current order moves to the error state with a history entry that does not notify |
| Payments.PlacetoPayPayment.ValidateOrder | src/Models/PlacetoPayPayment.php:605-615 | a new order for the cart and customer in the given state becomes the current order and the cart's order |
| Payments.PlacetoPayPayment.Process | src/Models/PlacetoPayPayment.php:759-891 | the outcome is the reference decision; only a settled outcome changes the table, orders and history (as settleTransaction does); the gateway is asked only about a located pending payment |
| Payments.PlacetoPayPayment.ResolvePendingPayments | src/Models/PlacetoPayPayment.php:903-984 | refused outside the console unless debugging; when finished every row is swept and the ids asked are those of the pending rows with a request id, in order; when a query raises, rows before it are swept, it and later rows untouched; the orders and history are those settling the visited rows in table order gives (`SweptOrders`, `SweptHistory`), so no order appears or disappears and a paid order stays paid |
| Payments.PlacetoPayPayment.AdvanceSweep | src/Models/PlacetoPayPayment.php:937-972 | one turn of the sweep carries the sweep's invariant one row further, or reports the raising query with the table, orders and history unchanged |
| Payments.PlacetoPayPayment.ResolveOne | src/Models/PlacetoPayPayment.php:937-972 | the row becomes its swept form, the orders take the row's move and the history its entry; a raising query changes nothing but the query log |
| Payments.PlacetoPayPayment.Redirect | src/Models/PlacetoPayPayment.php:546-740 | no cart or a blocking pending payment sends to authentication; a customer, address or currency that did not load gives 301, 302 or 303, in that order, changing nothing; otherwise a new order is created and the request sent carries the return URL, reference and total; a successful session records a pending payment and keeps the order waiting; a refused one records a failed payment with amount 0 and request id 0 and moves the order to error; a raised one records nothing and moves the order to error; the new order is the only order added, and the history gains its creation entry, followed by a non-notifying error entry when the session was refused or raised |

## Left out

- HTTP transport, the Dnetix client library, the notification signature check and its debugging shortcut are not modelled. The signature check is a boolean in `Payments.ProcessEntry.Notification`. A gateway call that raises is `TransportError` / `SessionTransportError`.
- The five-second `sleep` before handling a notification is not modelled.
- Logging, translations, console and HTML output, the lightbox page and the "show setup" output are left out. So is which page or message ends the request; outcomes are datatype values.
- Module installation, uninstallation, order-state creation, admin form rendering and configuration storage are outside the modelled core.
- Amounts are integers in the currency's minor units; PHP floats are not modelled.
- `pSQL` escaping and SQL injection are not modelled. Every value is stored as given.
- Database errors are not modelled. These are exceptions 401, 601 and 901, and a failed SELECT, which the code logs and treats as "not found".
- The platform's `validateOrder` is reduced to creating the order with its first history entry (`Payments.PlacetoPayPayment.ValidateOrder`). Its own refusals are left out, for example a cart that already has an order.
- The order reference generated by the platform is a parameter of `Redirect`. It is required to be byte characters, as PrestaShop's references are upper-case letters.
- `getLastPendingTransaction` is `HasPendingPayment`, an existence check over the payment rows and orders. The row it returns is not used by the code.
- `getOrderByCartId` is a lookup in `orderOfCart`. Multi-shop differences and version differences are not modelled.
- `Base64.Decode` accepts only canonical base64. PHP's lenient `base64_decode` also accepts and skips other characters; such input is "not found" in the model.
- `Base64.Encode` is defined on byte characters only. References outside that range are not modelled.
- `Helpers.BreakLine` takes the console test as a parameter. The per-request memoisation of the break string is not modelled. PHP_EOL is "\n" and a negative multiplier is not allowed (`nat`).
- `Settings.Settings`: the HTTP client (`client()`), `authentication()`, `toArray()` and the loading of extra keys such as `authAdditional` are not modelled. `timeout`, `verifySsl` and `headers` are taken as given when set.
- The settings construction that `instanceRedirection` performs is not modelled separately. A settings refusal there is one of the exceptions `SessionTransportError` and `TransportError` stand for.
- `resolveRedirectUrl`, `getClient`/`getDefaultClient` and the locale lookup are left out. The locale, client name and shop URL are inputs.
- The order of the country configuration chain (`CountryCode::COUNTRIES_CLIENT`) is not defined in `src/Constants/CountryCode.php`. It is a parameter of `CountryChain.OptionListCountries`.
- `getOptionList`'s formatting of the client map into form options is left out; the map itself is returned.
- Concurrency is not modelled. The code has no compare-and-set on a payment's status, and two settlements racing over one payment are not covered. Calls are sequential.
- PaymentUrl.EndpointsTo: models the intended switch, in which every code but `ec` gets the default table; as written the switch raises for those codes (see "## Findings", modelled by `PaymentUrl.EndpointsAsWritten`).
- PaymentUrl.UpperCaseCodeIsDefault: its default-table clause is about the intended switch; as written `EC` raises, which its last clause states.
- Configuration.Uri: uses the intended table, so for a country other than `ec` it gives the default host where `getUri` as written raises.

## Findings

| source | as written | input that shows it | evidently intended | confidence | as-written member | corrected member |
|---|---|---|---|---|---|---|
| src/Constants/PaymentUrl.php:37-38 | the case labels `CountryCode::MEXICO` and `CountryCode::PERU` name constants `src/Constants/CountryCode.php:8-27` does not declare; PHP evaluates the labels in order, so every code other than `ec` raises an Error at line 37 | `co` (Colombia), or any code other than `ec` | every code other than `ec` falls to the default table, as the listed Colombia and Costa Rica cases and the `default` label say | medium, not executed | PaymentUrl.ColombiaRaisesAsWritten | PaymentUrl.EndpointsTo |
