/** Usage metering for the paywall (src/lib/usage.ts): a tier per user, a
    monthly word counter per user, and the statistics read from them. */
module Usage {
  import opened Js

  /** Words a free account may read per month. */
  const FREE_TIER_LIMIT: int := 10000

  datatype Tier = Free | Premium

  /** What `getUsageStats` reports, without the month label. `remaining == -1`
      means unlimited. */
  datatype UsageStats = UsageStats(wordsRead: int, remaining: int, tier: Tier, atLimit: bool)

  function Max(a: int, b: int): int {
    if a >= b then a else b
  }

  /** `usage?.words_read || 0`: the words read this month; no row reads as 0. */
  function WordsReadOf(row: Option<int>): int {
    if row.Some? then row.value else 0
  }

  /** The statistics of a user with the given tier and usage row for this month. */
  function StatsFor(tier: Tier, row: Option<int>): (s: UsageStats)
    ensures s.tier == tier
    ensures tier == Premium ==> s.wordsRead == 0 && s.remaining == -1 && !s.atLimit
    ensures tier == Free ==>
              s.wordsRead == WordsReadOf(row) && s.remaining >= 0 && (s.atLimit <==> s.remaining == 0)
    ensures tier == Free && s.wordsRead <= FREE_TIER_LIMIT ==> s.wordsRead + s.remaining == FREE_TIER_LIMIT
  {
    match tier
    case Premium => UsageStats(0, -1, Premium, false)
    case Free =>
      var w := WordsReadOf(row);
      UsageStats(w, Max(0, FREE_TIER_LIMIT - w), Free, w >= FREE_TIER_LIMIT)
  }

  /** The statistics when no database is configured: nothing read, free, the whole quota left. */
  function UnconfiguredStats(): (s: UsageStats)
    ensures s == StatsFor(Free, None)
  {
    UsageStats(0, FREE_TIER_LIMIT, Free, false)
  }

  /** `stats.tier === "premium" || stats.remaining > 0` */
  predicate MayReadMore(stats: UsageStats) {
    stats.tier == Premium || stats.remaining > 0
  }

  /** The counter after the store's atomic `increment_words_read(user, count)`. */
  function Increment(usage: map<string, int>, user: string, count: int): (r: map<string, int>)
    ensures r.Keys == usage.Keys + {user}
    ensures r[user] == WordsReadOf(if user in usage then Some(usage[user]) else None) + count
    ensures forall u :: u in usage && u != user ==> r[u] == usage[u]
  {
    usage[user := (if user in usage then usage[user] else 0) + count]
  }

  function Lookup(m: map<string, int>, key: string): Option<int> {
    if key in m then Some(m[key]) else None
  }

  /** A premium account is unlimited whatever usage is stored. */
  lemma PremiumIsUnlimited(row: Option<int>)
    ensures var s := StatsFor(Premium, row);
            s.remaining == -1 && !s.atLimit && s.wordsRead == 0 && MayReadMore(s)
  {
  }

  /** A free account's remaining quota is the limit minus what it read, never below 0. */
  lemma FreeRemainingBounds(row: Option<int>)
    requires WordsReadOf(row) >= 0
    ensures var s := StatsFor(Free, row);
            0 <= s.remaining <= FREE_TIER_LIMIT
            && (s.wordsRead <= FREE_TIER_LIMIT ==> s.remaining + s.wordsRead == FREE_TIER_LIMIT)
  {
  }

  /** A free account is at its limit exactly when nothing remains. */
  lemma AtLimitIffNothingRemains(row: Option<int>)
    ensures var s := StatsFor(Free, row);
            (s.atLimit <==> s.wordsRead >= FREE_TIER_LIMIT) && (s.atLimit <==> s.remaining == 0)
  {
  }

  /** A missing usage row counts as nothing read. */
  lemma MissingRowReadsZero(tier: Tier)
    ensures StatsFor(tier, None).wordsRead == 0 && !StatsFor(tier, None).atLimit
  {
  }

  /** `canReadMore` holds exactly when the reported statistics are not at the limit. */
  lemma MayReadMoreIffNotAtLimit(tier: Tier, row: Option<int>)
    ensures MayReadMore(StatsFor(tier, row)) <==> !StatsFor(tier, row).atLimit
  {
  }

  /** The scenario "a free account at the limit": nothing remains and it is at the limit. */
  lemma AtTheLimit()
    ensures StatsFor(Free, Some(FREE_TIER_LIMIT)) == UsageStats(FREE_TIER_LIMIT, 0, Free, true)
  {
  }

  /** Two increments of `a` and then `b` leave the same counter as one increment of `a + b`. */
  lemma IncrementAdditive(usage: map<string, int>, user: string, a: int, b: int)
    ensures Increment(Increment(usage, user, a), user, b) == Increment(usage, user, a + b)
  {
  }

  /** Increments of two users, in either order, leave the same counters. */
  lemma IncrementCommutes(usage: map<string, int>, u: string, v: string, a: int, b: int)
    ensures Increment(Increment(usage, u, a), v, b) == Increment(Increment(usage, v, b), u, a)
  {
    if u == v {
      IncrementAdditive(usage, u, a, b);
      IncrementAdditive(usage, u, b, a);
    }
  }

  /** The usage and tier tables as the paywall sees them. `configured` is false
      when the database client could not be created; `usage` holds this month's
      `words_read` per user. */
  class UsageStore {
    const configured: bool
    var tiers: map<string, Tier>
    var usage: map<string, int>

    constructor (configured: bool, tiers: map<string, Tier>, usage: map<string, int>)
      ensures this.configured == configured && this.tiers == tiers && this.usage == usage
    {
      this.configured := configured;
      this.tiers := tiers;
      this.usage := usage;
    }

    /** `ensureUserTier`: the stored tier, or a new "free" row. `insertError` is
        the store's answer to the insert. */
    method EnsureUserTier(user: string, insertError: Option<string>) returns (r: Result<Tier>)
      modifies this
      ensures usage == old(usage)
      ensures user in old(tiers) ==> r == Ok(old(tiers)[user]) && tiers == old(tiers)
      ensures user !in old(tiers) && insertError.None? ==>
                r == Ok(Free) && tiers == old(tiers)[user := Free]
      ensures user !in old(tiers) && insertError.Some? ==>
                r == Err("Failed to create user tier: " + insertError.value) && tiers == old(tiers)
    {
      if user in tiers {
        return Ok(tiers[user]);
      }
      if insertError.Some? {
        return Err("Failed to create user tier: " + insertError.value);
      }
      tiers := tiers[user := Free];
      r := Ok(Free);
    }

    /** `trackWordsRead`: one atomic increment, a no-op without a database,
        and an error thrown when the store reports one. */
    method TrackWordsRead(user: string, count: int, rpcError: Option<string>) returns (r: Result<()>)
      modifies this
      ensures tiers == old(tiers)
      ensures !configured ==> r == Ok(()) && usage == old(usage)
      ensures configured && rpcError.Some? ==>
                r == Err("Failed to track words read: " + rpcError.value) && usage == old(usage)
      ensures configured && rpcError.None? ==> r == Ok(()) && usage == Increment(old(usage), user, count)
    {
      if !configured {
        return Ok(());
      }
      if rpcError.Some? {
        return Err("Failed to track words read: " + rpcError.value);
      }
      usage := Increment(usage, user, count);
      r := Ok(());
    }

    /** `getUsageStats`: creates a free tier row when the user has none, then
        reports the statistics of the tier and this month's row. */
    method GetUsageStats(user: string, insertError: Option<string>) returns (r: Result<UsageStats>)
      modifies this
      ensures usage == old(usage)
      ensures !configured ==> r == Ok(UnconfiguredStats()) && tiers == old(tiers)
      ensures configured && user in old(tiers) ==>
                r == Ok(StatsFor(old(tiers)[user], Lookup(usage, user))) && tiers == old(tiers)
      ensures configured && user !in old(tiers) && insertError.None? ==>
                r == Ok(StatsFor(Free, Lookup(usage, user))) && tiers == old(tiers)[user := Free]
      ensures configured && user !in old(tiers) && insertError.Some? ==>
                r == Err("Failed to create user tier: " + insertError.value) && tiers == old(tiers)
    {
      if !configured {
        return Ok(UnconfiguredStats());
      }
      var tier := EnsureUserTier(user, insertError);
      if tier.Err? {
        return Err(tier.message);
      }
      r := Ok(StatsFor(tier.value, Lookup(usage, user)));
    }

    /** `canReadMore`: premium, or some free quota left; errors of `getUsageStats` propagate. */
    method CanReadMore(user: string, insertError: Option<string>) returns (r: Result<bool>)
      modifies this
      ensures usage == old(usage)
      ensures configured && user in old(tiers) ==>
                r == Ok(!StatsFor(old(tiers)[user], Lookup(usage, user)).atLimit)
      ensures configured && user !in old(tiers) && insertError.None? ==>
                r == Ok(WordsReadOf(Lookup(usage, user)) < FREE_TIER_LIMIT)
      ensures configured && user !in old(tiers) && insertError.Some? ==>
                r == Err("Failed to create user tier: " + insertError.value)
      ensures !configured ==> r == Ok(true)
      ensures tiers == if configured && user !in old(tiers) && insertError.None?
                       then old(tiers)[user := Free] else old(tiers)
    {
      var stats := GetUsageStats(user, insertError);
      if stats.Err? {
        return Err(stats.message);
      }
      MayReadMoreIffNotAtLimit(if configured && user in old(tiers) then old(tiers)[user] else Free,
                               Lookup(usage, user));
      r := Ok(MayReadMore(stats.value));
    }
  }
}
