/** Environment names: the keys of every endpoint table. */
module Environment {
  const PRODUCTION: string := "PRODUCTION"
  const TEST: string := "TEST"
  const DEVELOPMENT: string := "DEVELOPMENT"
  const CUSTOM: string := "CUSTOM"
  const UAT: string := "UAT"

  /** The three environments every endpoint table defines. */
  function TableKeys(): set<string> {
    {PRODUCTION, TEST, DEVELOPMENT}
  }
}

/** Lower-case ISO 3166 country codes; matching on them is case-sensitive. */
module CountryCode {
  const BELIZE: string := "bz"
  const CHILE: string := "cl"
  const COLOMBIA: string := "co"
  const COSTA_RICA: string := "cr"
  const ECUADOR: string := "ec"
  const HONDURAS: string := "hn"
  const PANAMA: string := "pa"
  const PUERTO_RICO: string := "pr"
  const URUGUAY: string := "uy"
}

/** Status codes stored in the payment table. */
module PaymentStatus {
  const FAILED: int := 0
  const APPROVED: int := 1
  const REJECTED: int := 2
  const PENDING: int := 3
  /** DUPLICATE (before APPROVED): treated like APPROVED when settling. */
  const DUPLICATE: int := 4

  /** The label table; it has no entry for DUPLICATE. */
  const STATUS: map<int, string> :=
    map[FAILED := "FAILED", APPROVED := "APPROVED", REJECTED := "REJECTED", PENDING := "PENDING"]

  lemma StatusLabels()
    ensures STATUS.Keys == {FAILED, APPROVED, REJECTED, PENDING}
    ensures DUPLICATE !in STATUS
  {
  }
}
