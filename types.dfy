/** The shared types of the application: statuses, the enriched brief, tiers and accounts. */
module Types {

  /** The six stages the generation screen can be in. */
  datatype GenerationStatus = Idle | Analyzing | Generating | GeneratingVideo | Completed | Error

  /**
   * The structured brief produced by prompt enrichment: the seven string fields the
   * enrichment schema lists as required.
   */
  datatype PromptDetails = PromptDetails(
    sceneOverview: string,
    subjectDetails: string,
    environment: string,
    cameraComposition: string,
    lightingAtmosphere: string,
    styleParameters: string,
    finalGenerationPrompt: string)

  /** Subscription tiers, in increasing order of quota. */
  datatype SubscriptionTier = Free | Standard | Premium

  /**
   * An account record. A string field that the stored JSON lacks is the empty string
   * here, since the source tests such fields by truthiness.
   */
  datatype User = User(
    id: string,
    email: string,
    name: string,
    tier: SubscriptionTier,
    dailyUsage: nat,
    lastUsageDate: string,   // YYYY-MM-DD
    createdAt: string,       // ISO timestamp
    lastLoginAt: string)     // ISO timestamp

  /** The enum's string value, as a template literal prints it. */
  function TierName(t: SubscriptionTier): string {
    match t
    case Free => "FREE"
    case Standard => "STANDARD"
    case Premium => "PREMIUM"
  }

  /** Position of a tier in the declaration order FREE, STANDARD, PREMIUM. */
  function TierRank(t: SubscriptionTier): nat {
    match t
    case Free => 0
    case Standard => 1
    case Premium => 2
  }

  /** `TIER_LIMITS`: generations allowed per day. */
  function TierLimit(t: SubscriptionTier): (r: nat)
    ensures r > 0
  {
    match t
    case Free => 1
    case Standard => 5
    case Premium => 15
  }

  /** `TIER_PRICES`: monthly price in LEK. */
  function TierPrice(t: SubscriptionTier): (r: nat)
    ensures r == 0 <==> t == Free
  {
    match t
    case Free => 0
    case Standard => 500
    case Premium => 1000
  }

  lemma TierLimitValues()
    ensures TierLimit(Free) == 1 && TierLimit(Standard) == 5 && TierLimit(Premium) == 15
  {
  }

  /** A higher tier always allows strictly more generations per day and costs strictly more. */
  lemma TierOrderMonotone(a: SubscriptionTier, b: SubscriptionTier)
    ensures TierRank(a) < TierRank(b) <==> TierLimit(a) < TierLimit(b)
    ensures TierRank(a) < TierRank(b) <==> TierPrice(a) < TierPrice(b)
  {
  }

  lemma TierPriceValues()
    ensures TierPrice(Free) == 0 && TierPrice(Standard) == 500 && TierPrice(Premium) == 1000
  {
  }
}
