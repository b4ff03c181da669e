/**
 * Resolving one queued request: the configuration check, the choice of
 * mapping endpoint, the mapping lookup and the three independent secondary
 * lookups (profile, headshot, body), ending in exactly one settled result.
 *
 * Every HTTP call is replaced by its outcome, supplied in a `Network` record:
 * `Ok(data)` for a response whose data the code reads, `Fail` for a call that
 * throws (network error, non-2xx status, unreadable body).
 */
module Resolver {
  import opened Js
  import opened Interaction

  const NotConfigured: string := "Verification not configured."
  const FetchFailed: string := "Failed to fetch info. Please try again later."

  /** The record every caller receives; every key is always present. */
  datatype IdentityResult = IdentityResult(
    discordId: Value, robloxId: Value, robloxUsername: Value,
    username: Value, displayName: Value,
    headshot: Value, avatar: Value, created: Value)
  {
    function Get(f: Field): (r: Value) {
      match f
      case DiscordId => discordId
      case RobloxId => robloxId
      case RobloxUsername => robloxUsername
      case Username => username
      case DisplayName => displayName
      case Headshot => headshot
      case Avatar => avatar
      case Created => created
    }
  }

  /** The eight keys of an `IdentityResult`. */
  datatype Field = DiscordId | RobloxId | RobloxUsername | Username | DisplayName | Headshot | Avatar | Created

  /** `emptyResult`: the canonical "no result" value. */
  function EmptyResult(): (r: IdentityResult)
    ensures forall f: Field :: r.Get(f) == Null
  {
    IdentityResult(Null, Null, Null, Null, Null, Null, Null, Null)
  }

  /** The client's configuration; a missing client or config reads as `Undefined`. */
  datatype Client = Client(mintApi: Value)

  /** A queued request: its type tag, the external id, the caller context and the client. */
  datatype Request = Request(kind: string, id: string, context: Context, client: Client)

  datatype Endpoint = DiscordToRoblox | RobloxToDiscord

  datatype Headers = Headers(apiKey: Value, guildId: Option<Value>)

  /** An HTTP call the resolver issues. */
  datatype Lookup =
    | MappingGet(endpoint: Endpoint, id: string, headers: Headers)
    | ProfileGet(userId: Value)
    | HeadshotGet(userId: Value)
    | BodyGet(userId: Value)

  datatype Outcome<T> = Ok(data: T) | Fail

  /** The mapping response data: falsy, or an object with the three id keys. */
  datatype MappingData = NoData | Linked(discordId: Value, robloxId: Value, robloxUsername: Value)

  /** The fields of the profile response that are read. */
  datatype Profile = Profile(name: Value, displayName: Value, created: Value)

  /**
   * What each lookup would yield. For the thumbnails, `Ok(v)` carries the value
   * of `data?.[0]?.imageUrl` in the response.
   */
  datatype Network = Network(
    mapping: Outcome<MappingData>, profile: Outcome<Profile>,
    headshot: Outcome<Value>, body: Outcome<Value>)

  /** What resolving a request produces: the settled value, the notices attempted, the calls issued. */
  datatype Resolution = Resolution(result: IdentityResult, notices: seq<string>, lookups: seq<Lookup>)

  /** The two-way switch on the request type; any other tag is an error. */
  function MappingEndpoint(kind: string): (r: Option<Endpoint>)
    ensures r == Some(DiscordToRoblox) <==> kind == "discord"
    ensures r == Some(RobloxToDiscord) <==> kind == "roblox"
  {
    if kind == "discord" then Some(DiscordToRoblox)
    else if kind == "roblox" then Some(RobloxToDiscord)
    else None
  }

  /** The mapping request's headers: the API key, and the guild id only when it is truthy. */
  function MappingHeaders(apiKey: Value, ctx: Context): (h: Headers)
    ensures h.apiKey == apiKey
    ensures h.guildId.Some? <==> ctx.Context? && Truthy(ctx.guildId)
    ensures h.guildId.Some? ==> h.guildId.value == ctx.guildId
  {
    Headers(apiKey, if ctx.Context? && Truthy(ctx.guildId) then Some(ctx.guildId) else None)
  }

  /** The settled state of a request's `finish` closure. */
  datatype Settlement = Unsettled | Settled(value: IdentityResult)

  /** `finish`: the first value settles the request; any later call changes nothing. */
  function Finish(s: Settlement, v: IdentityResult): (r: Settlement)
    ensures r.Settled?
    ensures s.Settled? ==> r == s
    ensures s.Unsettled? ==> r.value == v
  {
    if s.Settled? then s else Settled(v)
  }

  lemma FinishIdempotent(s: Settlement, v: IdentityResult, w: IdentityResult)
    ensures Finish(Finish(s, v), w) == Finish(s, v)
  {
  }

  /** The image URL a thumbnail lookup contributes: `imageUrl || null`, or null when it failed. */
  function ImageUrl(o: Outcome<Value>): (r: Value)
    ensures r != Undefined
    ensures Truthy(r) <==> o.Ok? && Truthy(o.data)
    ensures Truthy(r) ==> r == o.data
    ensures !(o.Ok? && Truthy(o.data)) ==> r == Null
  {
    match o
    case Ok(url) => OrNull(url)
    case Fail => Null
  }

  /** The secondary lookups issued for a resolved Roblox id: all three, or none. */
  function SecondaryLookups(robloxId: Value): (r: seq<Lookup>)
    ensures |r| == (if Truthy(robloxId) then 3 else 0)
    ensures forall i :: 0 <= i < |r| ==> !r[i].MappingGet? && r[i].userId == robloxId
    ensures Truthy(robloxId) ==> r[0].ProfileGet? && r[1].HeadshotGet? && r[2].BodyGet?
  {
    if Truthy(robloxId) then [ProfileGet(robloxId), HeadshotGet(robloxId), BodyGet(robloxId)] else []
  }

  /**
   * The result for a linked mapping: the three ids from the mapping, and for
   * each secondary lookup its own fields, from its data when it ran and
   * succeeded, `null` otherwise. Profile fields are passed through unchanged.
   */
  function LinkedResult(link: MappingData, net: Network): (r: IdentityResult)
    requires link.Linked?
    ensures r.discordId == OrNull(link.discordId)
    ensures r.robloxId == OrNull(link.robloxId)
    ensures r.robloxUsername == OrNull(link.robloxUsername)
    ensures !Truthy(link.robloxId) ==> forall f: Field :: SourceOf(f) != FromMapping ==> r.Get(f) == Null
    ensures forall f: Field :: SourceOf(f) != FromMapping && Failed(net, SourceOf(f)) ==> r.Get(f) == Null
  {
    var robloxId := OrNull(link.robloxId);
    var fetched := Truthy(robloxId);
    var profile := if fetched && net.profile.Ok? then net.profile.data else Profile(Null, Null, Null);
    IdentityResult(
      OrNull(link.discordId), robloxId, OrNull(link.robloxUsername),
      profile.name, profile.displayName,
      if fetched then ImageUrl(net.headshot) else Null,
      if fetched then ImageUrl(net.body) else Null,
      profile.created)
  }

  /**
   * The specification of resolving one request, as a case analysis over the
   * configuration, the type tag and the lookup outcomes.
   */
  function Resolve(req: Request, net: Network): (r: Resolution)
    ensures |r.notices| <= 1
    ensures r.notices != [] ==> r.result == EmptyResult() && |r.lookups| <= 1
    ensures |r.lookups| == 0 || |r.lookups| == 1 || |r.lookups| == 4
    ensures r.lookups != [] ==> r.lookups[0].MappingGet? && r.lookups[0].id == req.id
    ensures forall i :: 1 <= i < |r.lookups| ==> !r.lookups[i].MappingGet?
    ensures |r.lookups| == 4 ==> r.lookups[1..] == SecondaryLookups(r.result.robloxId)
  {
    if !Truthy(req.client.mintApi) then
      Resolution(EmptyResult(), [NotConfigured], [])
    else if MappingEndpoint(req.kind).None? then
      Resolution(EmptyResult(), [FetchFailed], [])
    else
      var mapping := MappingGet(MappingEndpoint(req.kind).value, req.id, MappingHeaders(req.client.mintApi, req.context));
      match net.mapping
      case Fail => Resolution(EmptyResult(), [FetchFailed], [mapping])
      case Ok(NoData) => Resolution(EmptyResult(), [], [mapping])
      case Ok(link) =>
        Resolution(LinkedResult(link, net), [], [mapping] + SecondaryLookups(OrNull(link.robloxId)))
  }

  /**
   * The body of `processQueue` for the request it took: the `try` block with
   * its early returns, the `catch` block and the `settled`-guarded `finish`.
   * Every path settles the request.
   */
  method ProcessRequest(req: Request, net: Network)
    returns (settlement: Settlement, notices: seq<string>, lookups: seq<Lookup>)
    ensures settlement == Settled(Resolve(req, net).result)
    ensures notices == Resolve(req, net).notices
    ensures lookups == Resolve(req, net).lookups
  {
    settlement, notices, lookups := Unsettled, [], [];
    if !Truthy(req.client.mintApi) {
      notices := notices + [NotConfigured];
      settlement := Finish(settlement, EmptyResult());
      return;
    }
    var thrown := false;  // control left the try block for the catch block
    var endpoint := MappingEndpoint(req.kind);
    if endpoint.None? {
      thrown := true;
    } else {
      lookups := lookups + [MappingGet(endpoint.value, req.id, MappingHeaders(req.client.mintApi, req.context))];
      match net.mapping
      case Fail =>
        thrown := true;
      case Ok(data) =>
        if data.NoData? {
          settlement := Finish(settlement, EmptyResult());
          return;
        }
        var robloxId := OrNull(data.robloxId);
        var discordId := OrNull(data.discordId);
        var robloxUsername := OrNull(data.robloxUsername);
        var username, displayName, created, headshotUrl, bodyUrl := Null, Null, Null, Null, Null;
        if Truthy(robloxId) {
          lookups := lookups + [ProfileGet(robloxId)];
          if net.profile.Ok? {
            username := net.profile.data.name;
            displayName := net.profile.data.displayName;
            created := net.profile.data.created;
          }
          lookups := lookups + [HeadshotGet(robloxId)];
          if net.headshot.Ok? {
            headshotUrl := OrNull(net.headshot.data);
          }
          lookups := lookups + [BodyGet(robloxId)];
          if net.body.Ok? {
            bodyUrl := OrNull(net.body.data);
          }
        }
        settlement := Finish(settlement, IdentityResult(
          discordId, robloxId, robloxUsername, username, displayName, headshotUrl, bodyUrl, created));
    }
    if thrown {
      notices := notices + [FetchFailed];
      settlement := Finish(settlement, EmptyResult());
    }
  }

  // ---------------------------------------------------------------------
  // Properties of the resolution
  // ---------------------------------------------------------------------

  /** The mapping lookup the request issues once it is configured and well typed. */
  predicate MappingIssued(req: Request) {
    Truthy(req.client.mintApi) && MappingEndpoint(req.kind).Some?
  }

  /** The secondary lookups run: the mapping returned data whose Roblox id is truthy. */
  predicate SecondaryRuns(req: Request, net: Network) {
    MappingIssued(req) && net.mapping.Ok? && net.mapping.data.Linked? &&
    Truthy(net.mapping.data.robloxId)
  }

  /** With no API key the result is empty, one notice is attempted and nothing is looked up. */
  lemma NotConfiguredResolution(req: Request, net: Network)
    requires !Truthy(req.client.mintApi)
    ensures Resolve(req, net) == Resolution(EmptyResult(), [NotConfigured], [])
  {
  }

  /**
   * A type other than "discord"/"roblox", and a failing mapping lookup, both end
   * in the empty result with one "failed to fetch" notice.
   */
  lemma FailureResolution(req: Request, net: Network)
    requires Truthy(req.client.mintApi)
    requires MappingEndpoint(req.kind).None? || net.mapping.Fail?
    ensures Resolve(req, net).result == EmptyResult()
    ensures Resolve(req, net).notices == [FetchFailed]
    ensures |Resolve(req, net).lookups| == (if MappingEndpoint(req.kind).None? then 0 else 1)
  {
  }

  /** Falsy mapping data is the normal "not linked" outcome: empty result, no notice, no further lookups. */
  lemma EmptyMappingResolution(req: Request, net: Network)
    requires MappingIssued(req) && net.mapping == Ok(NoData)
    ensures Resolve(req, net).result == EmptyResult()
    ensures Resolve(req, net).notices == []
    ensures |Resolve(req, net).lookups| == 1
  {
  }

  /**
   * Notices: at most one is attempted; "not configured" exactly when the API key
   * is missing; "failed to fetch" exactly when the type is invalid or the mapping
   * lookup fails; and a notice always comes with the empty result and no
   * secondary lookups.
   */
  lemma NoticeCases(req: Request, net: Network)
    ensures |Resolve(req, net).notices| <= 1
    ensures Resolve(req, net).notices == [NotConfigured] <==> !Truthy(req.client.mintApi)
    ensures Resolve(req, net).notices == [FetchFailed] <==>
      Truthy(req.client.mintApi) && (MappingEndpoint(req.kind).None? || net.mapping.Fail?)
    ensures Resolve(req, net).notices != [] ==>
      Resolve(req, net).result == EmptyResult() && |Resolve(req, net).lookups| <= 1
  {
  }

  /**
   * The calls issued: none without a key or with an invalid type; otherwise the
   * mapping lookup on the endpoint the type selects, then the three secondary
   * lookups exactly when the mapping yields a truthy Roblox id.
   */
  lemma LookupsIssued(req: Request, net: Network)
    ensures Resolve(req, net).lookups == [] <==> !MappingIssued(req)
    ensures MappingIssued(req) ==>
      Resolve(req, net).lookups[0] ==
        MappingGet(if req.kind == "discord" then DiscordToRoblox else RobloxToDiscord,
                   req.id, MappingHeaders(req.client.mintApi, req.context))
    ensures |Resolve(req, net).lookups| > 1 <==> SecondaryRuns(req, net)
    ensures SecondaryRuns(req, net) ==>
      var id := Resolve(req, net).result.robloxId;
      Resolve(req, net).lookups[1..] == [ProfileGet(id), HeadshotGet(id), BodyGet(id)]
  {
  }

  /** The lookup each result field comes from. */
  datatype Source = FromMapping | FromProfile | FromHeadshot | FromBody

  function SourceOf(f: Field): (r: Source) {
    match f
    case DiscordId => FromMapping
    case RobloxId => FromMapping
    case RobloxUsername => FromMapping
    case Username => FromProfile
    case DisplayName => FromProfile
    case Created => FromProfile
    case Headshot => FromHeadshot
    case Avatar => FromBody
  }

  /** Two networks agree on the outcome of the given lookup. */
  predicate SameOutcome(n1: Network, n2: Network, s: Source) {
    match s
    case FromMapping => n1.mapping == n2.mapping
    case FromProfile => n1.profile == n2.profile
    case FromHeadshot => n1.headshot == n2.headshot
    case FromBody => n1.body == n2.body
  }

  predicate Failed(net: Network, s: Source) {
    match s
    case FromMapping => net.mapping.Fail?
    case FromProfile => net.profile.Fail?
    case FromHeadshot => net.headshot.Fail?
    case FromBody => net.body.Fail?
  }

  /**
   * The secondary lookups are independent: with the same mapping outcome, a
   * field depends only on the outcome of the lookup it comes from.
   */
  lemma SecondaryIsolation(req: Request, n1: Network, n2: Network, f: Field)
    requires n1.mapping == n2.mapping
    requires SameOutcome(n1, n2, SourceOf(f))
    ensures Resolve(req, n1).result.Get(f) == Resolve(req, n2).result.Get(f)
    ensures Resolve(req, n1).notices == Resolve(req, n2).notices
    ensures Resolve(req, n1).lookups == Resolve(req, n2).lookups
  {
  }

  /** A failing secondary lookup leaves its own fields null. */
  lemma FailedLookupLeavesNull(req: Request, net: Network, f: Field)
    requires SourceOf(f) != FromMapping && Failed(net, SourceOf(f))
    ensures Resolve(req, net).result.Get(f) == Null
  {
  }

  /**
   * A linked mapping's ids are kept (falsy ones as null) whatever the secondary
   * lookups do, and no notice is sent; without a truthy Roblox id every other
   * field is null.
   */
  lemma LinkedIdsKept(req: Request, net: Network)
    requires MappingIssued(req) && net.mapping.Ok? && net.mapping.data.Linked?
    ensures var r := Resolve(req, net).result;
      r.discordId == OrNull(net.mapping.data.discordId) &&
      r.robloxId == OrNull(net.mapping.data.robloxId) &&
      r.robloxUsername == OrNull(net.mapping.data.robloxUsername)
    ensures Resolve(req, net).notices == []
    ensures !Truthy(net.mapping.data.robloxId) ==>
      forall f: Field :: SourceOf(f) != FromMapping ==> Resolve(req, net).result.Get(f) == Null
  {
  }

  /**
   * Successful secondary lookups: the profile fields are copied as given (not
   * normalised), the thumbnail URLs as `imageUrl || null`.
   */
  lemma SecondaryDataCopied(req: Request, net: Network)
    requires SecondaryRuns(req, net)
    ensures net.profile.Ok? ==>
      var r := Resolve(req, net).result;
      r.username == net.profile.data.name &&
      r.displayName == net.profile.data.displayName &&
      r.created == net.profile.data.created
    ensures net.headshot.Ok? ==> Resolve(req, net).result.headshot == OrNull(net.headshot.data)
    ensures net.body.Ok? ==> Resolve(req, net).result.avatar == OrNull(net.body.data)
  {
  }

  /**
   * A worked case: Discord id "123" maps to Roblox id "456" named "Alice"; the
   * profile succeeds, the headshot fails and the body thumbnail returns a URL.
   */
  lemma HeadshotFailureScenario(ctx: Context, url: string)
    requires url != ""
    ensures var req := Request("discord", "123", ctx, Client(Str("key")));
      var net := Network(
        Ok(Linked(Undefined, Str("456"), Str("Alice"))),
        Ok(Profile(Str("Alice"), Str("Al"), Str("2020-01-01"))),
        Fail,
        Ok(Str(url)));
      Resolve(req, net).result ==
        IdentityResult(Null, Str("456"), Str("Alice"), Str("Alice"), Str("Al"), Null, Str(url), Str("2020-01-01"))
      && Resolve(req, net).notices == []
      && |Resolve(req, net).lookups| == 4
  {
  }
}
