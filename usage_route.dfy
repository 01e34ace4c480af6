/** The usage endpoint (src/app/api/usage/route.ts): GET reports the caller's
    usage statistics, POST adds a number of words to the caller's counter. */
module UsageRoute {
  import opened Js
  import opened Usage

  /** The message of the TypeError thrown by `const { key } = body` on a null body. */
  function NullBodyMessage(key: string): string {
    "Cannot destructure property '" + key + "' of 'body' as it is null."
  }

  /** The validation of `count`: a number that is not negative. */
  function CheckedCount(body: Json): (r: Result<int>)
    requires Destructurable(body)
    ensures r.Ok? <==> Field(body, "count").Num? && Field(body, "count").n >= 0
    ensures r.Ok? ==> r.value == Field(body, "count").n && r.value >= 0
    ensures r.Err? ==> r.message == "Invalid word count"
  {
    var count := Field(body, "count");
    if !count.Num? || count.n < 0 then Err("Invalid word count") else Ok(count.n)
  }

  /** Zero passes the check and is forwarded; any negative count is refused. */
  lemma ZeroCountAccepted(body: Json, n: int)
    requires body.Object? && "count" in body.fields
    ensures body.fields["count"] == Num(0) ==> CheckedCount(body) == Ok(0)
    ensures body.fields["count"] == Num(n) && n < 0 ==> CheckedCount(body).Err?
    ensures body.fields["count"] == Str("5") ==> CheckedCount(body).Err?
  {
  }

  /** `GET /api/usage`: 401 without a session user, the statistics, or 500 with the error. */
  method GetUsage(store: UsageStore, session: Option<string>, insertError: Option<string>)
    returns (r: Response<UsageStats>)
    modifies store
    ensures store.usage == old(store.usage)
    ensures !Truthy(session) ==> r == Unauthorized() && store.tiers == old(store.tiers)
    ensures Truthy(session) && store.configured && session.value in old(store.tiers) ==>
              r == Response(200, Succeeded(Some(StatsFor(old(store.tiers)[session.value],
                                                         Lookup(store.usage, session.value)))))
    ensures Truthy(session) && !store.configured ==> r == Response(200, Succeeded(Some(UnconfiguredStats())))
    ensures Truthy(session) && store.configured && session.value !in old(store.tiers) && insertError.None? ==>
              r == Response(200, Succeeded(Some(StatsFor(Free, Lookup(store.usage, session.value)))))
              && store.tiers == old(store.tiers)[session.value := Free]
    ensures Truthy(session) && store.configured && session.value !in old(store.tiers) && insertError.Some? ==>
              r == Response(500, Failed("Failed to create user tier: " + insertError.value))
    ensures !(Truthy(session) && store.configured && session.value !in old(store.tiers) && insertError.None?) ==>
              store.tiers == old(store.tiers)
  {
    if !Truthy(session) {
      return Unauthorized();
    }
    var stats := store.GetUsageStats(session.value, insertError);
    if stats.Err? {
      return Response(500, Failed(stats.message));
    }
    r := Response(200, Succeeded(Some(stats.value)));
  }

  /** `POST /api/usage` with the parsed body (`Err` when the body is not JSON). */
  method PostUsage(store: UsageStore, session: Option<string>, body: Result<Json>,
                   rpcError: Option<string>, insertError: Option<string>)
    returns (r: Response<UsageStats>)
    modifies store
    ensures !Truthy(session) ==> r == Unauthorized() && store.usage == old(store.usage)
    ensures Truthy(session) && body.Err? ==> r == Response(500, Failed(body.message)) && store.usage == old(store.usage)
    ensures Truthy(session) && body == Ok(Null) ==>
              r == Response(500, Failed(NullBodyMessage("count"))) && store.usage == old(store.usage)
    ensures Truthy(session) && body.Ok? && Destructurable(body.value) && CheckedCount(body.value).Err? ==>
              r == Response(400, ErrorOnly("Invalid word count")) && store.usage == old(store.usage)
    ensures Truthy(session) && body.Ok? && Destructurable(body.value) && CheckedCount(body.value).Ok? ==>
              var count := CheckedCount(body.value).value;
              var user := session.value;
              if !store.configured then
                store.usage == old(store.usage) && r == Response(200, Succeeded(Some(UnconfiguredStats())))
              else if rpcError.Some? then
                store.usage == old(store.usage)
                && r == Response(500, Failed("Failed to track words read: " + rpcError.value))
              else
                store.usage == Increment(old(store.usage), user, count)
                && (user in old(store.tiers) ==>
                      r == Response(200, Succeeded(Some(StatsFor(old(store.tiers)[user], Lookup(store.usage, user))))))
                && (user !in old(store.tiers) && insertError.None? ==>
                      r == Response(200, Succeeded(Some(StatsFor(Free, Lookup(store.usage, user))))))
                && (user !in old(store.tiers) && insertError.Some? ==>
                      r == Response(500, Failed("Failed to create user tier: " + insertError.value)))
    ensures store.tiers == if Truthy(session) && body.Ok? && Destructurable(body.value) && CheckedCount(body.value).Ok?
                             && store.configured && rpcError.None? && session.value !in old(store.tiers)
                             && insertError.None?
                           then old(store.tiers)[session.value := Free] else old(store.tiers)
  {
    if !Truthy(session) {
      return Unauthorized();
    }
    if body.Err? {
      return Response(500, Failed(body.message));
    }
    if !Destructurable(body.value) {
      return Response(500, Failed(NullBodyMessage("count")));
    }
    var count := CheckedCount(body.value);
    if count.Err? {
      return Response(400, ErrorOnly(count.message));
    }
    var tracked := store.TrackWordsRead(session.value, count.value, rpcError);
    if tracked.Err? {
      return Response(500, Failed(tracked.message));
    }
    var stats := store.GetUsageStats(session.value, insertError);
    if stats.Err? {
      return Response(500, Failed(stats.message));
    }
    r := Response(200, Succeeded(Some(stats.value)));
  }

  /** After an accepted POST a free user's reported words have grown by exactly the count. */
  lemma PostReportsGrownCounter(usage: map<string, int>, user: string, count: int)
    ensures StatsFor(Free, Lookup(Increment(usage, user, count), user)).wordsRead
              == WordsReadOf(Lookup(usage, user)) + count
  {
  }
}
