/** The records the application passes around: providers, currencies,
    stored transfer routes, the user's query, the AI insight and the
    derived transfer result. Optional fields are `Option`s; confidence is
    an integer percentage, fees and times are reals. */
module Domain {
  import opened Wrappers

  /** A payment service provider. */
  datatype PSP = PSP(
    id: string,
    name: string,
    displayName: string,
    logoUrl: Option<string>,
    websiteUrl: Option<string>,
    affiliateTemplate: Option<string>,
    description: Option<string>,
    isActive: bool)

  datatype Currency = Currency(
    id: string,
    code: string,
    name: string,
    symbol: Option<string>,
    flagUrl: Option<string>,
    isActive: bool)

  /** A stored route between two providers in one currency, with the
      provider and currency rows joined in. */
  datatype TransferRoute = TransferRoute(
    id: string,
    fromPspId: string,
    toPspId: string,
    currencyId: string,
    isSupported: bool,
    confidenceLevel: Option<int>,
    estimatedFeePercentage: Option<real>,
    estimatedTimeHours: Option<real>,
    kycRequired: Option<bool>,
    notes: Option<string>,
    fromPsp: Option<PSP>,
    toPsp: Option<PSP>,
    currency: Option<Currency>)

  /** What the search form submits: provider and currency ids. */
  datatype TransferQuery = TransferQuery(fromPsp: string, toPsp: string, currency: string)

  /** The three-valued answer shown to the user. */
  datatype Status = Yes | No | Maybe

  /** A route-shaped record extended with the derived status, its colour
      token and an optional affiliate link. */
  datatype TransferResult = TransferResult(
    route: TransferRoute,
    status: Status,
    statusColor: string,
    affiliateUrl: Option<string>)

  /** The edge function's estimate for one query. */
  datatype AIInsight = AIInsight(
    confidence: int,
    estimatedFee: real,
    estimatedTime: real,
    isSupported: bool,
    notes: string,
    sourceInfo: string)
}
