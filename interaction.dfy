/**
 * User-visible notices: deciding whether a caller context can be answered,
 * building the ephemeral payload, and choosing between `reply` and `followUp`.
 * The delivery itself (and its swallowed failures) is outside the model; a
 * notice is the value that would be handed to `reply` or `followUp`.
 */
module Interaction {
  import opened Js

  /** discord.js `MessageFlags.Ephemeral`, the bit 1 << 6. */
  const Ephemeral: int := 64

  /** What the context's `isRepliable` member does, if it is a function at all. */
  datatype RepliableProbe = NoProbe | Answers(repliable: bool) | Throws

  /**
   * The caller context as the notice path sees it. `NoContext` stands for a
   * falsy context (`null`/`undefined`). The `has...` flags say whether a member
   * is a function (`hasReply`, `hasFollowUp`) or a key present on the object
   * (`hasDeferredKey`, `hasRepliedKey`); `deferred` and `replied` are the
   * truthiness of those properties; `guildId` is read for the mapping request.
   */
  datatype Context =
    | NoContext
    | Context(probe: RepliableProbe, hasReply: bool, hasFollowUp: bool,
              hasDeferredKey: bool, hasRepliedKey: bool,
              deferred: bool, replied: bool, guildId: Value)

  /** A notice given either as a string or as an options object (content and flags keys). */
  datatype Message = Text(text: string) | Options(content: Value, flags: Value)

  datatype Payload = Payload(content: Value, flags: Value)

  datatype Route = Reply | FollowUp

  datatype Notice = Notice(route: Route, payload: Payload)

  /**
   * A falsy context never is one. A context whose `isRepliable` answers is
   * judged by that answer alone. Without that method, or when it throws, the
   * context must have `reply` and `followUp` functions and a `deferred` or
   * `replied` key.
   */
  function IsInteractionContext(ctx: Context): (r: bool)
    ensures r ==> ctx.Context?
    ensures ctx.Context? && ctx.probe.Answers? ==> (r <==> ctx.probe.repliable)
    ensures ctx.Context? && !ctx.probe.Answers? ==>
      (r <==> ctx.hasReply && ctx.hasFollowUp && (ctx.hasDeferredKey || ctx.hasRepliedKey))
  {
    match ctx
    case NoContext => false
    case Context(probe, hasReply, hasFollowUp, hasDeferredKey, hasRepliedKey, _, _, _) =>
      if probe.Answers? then probe.repliable
      else hasReply && hasFollowUp && (hasDeferredKey || hasRepliedKey)
  }

  /** The payload sent for a message; it always carries a `flags` key. */
  function PayloadFor(message: Message): (p: Payload)
    ensures p.flags != Undefined
    ensures message.Text? ==> p.content == Str(message.text) && p.flags == Num(Ephemeral)
    ensures message.Options? ==> p.content == message.content
    ensures message.Options? && message.flags != Undefined ==> p.flags == message.flags
    ensures message.Options? && message.flags == Undefined ==> p.flags == Num(Ephemeral)
  {
    match message
    case Text(text) => Payload(Str(text), Num(Ephemeral))
    case Options(content, flags) =>
      Payload(content, if flags == Undefined then Num(Ephemeral) else flags)
  }

  /** The context has already answered, so only a follow-up can be sent. */
  predicate Answered(ctx: Context) {
    ctx.Context? && (ctx.deferred || ctx.replied)
  }

  /** An interaction context that has the function the route calls for. */
  predicate CanDeliver(ctx: Context) {
    IsInteractionContext(ctx) && ((Answered(ctx) && ctx.hasFollowUp) || ctx.hasReply)
  }

  /**
   * `safeInteractionResponse`: the notice handed to `followUp` or `reply`, or
   * nothing when the context cannot be answered.
   */
  function SafeInteractionResponse(ctx: Context, message: Message): (r: Option<Notice>)
    ensures r.Some? <==> CanDeliver(ctx)
    ensures !IsInteractionContext(ctx) ==> r == None
    ensures r.Some? ==> r.value.payload == PayloadFor(message)
    ensures r.Some? ==> (r.value.route == FollowUp <==> Answered(ctx) && ctx.hasFollowUp)
  {
    if !IsInteractionContext(ctx) then None
    else
      var payload := PayloadFor(message);
      if Answered(ctx) && ctx.hasFollowUp then Some(Notice(FollowUp, payload))
      else if ctx.hasReply then Some(Notice(Reply, payload))
      else None
  }

  /** Every notice the resolver sends (always a string) is ephemeral. */
  lemma TextNoticeIsEphemeral(ctx: Context, text: string)
    ensures SafeInteractionResponse(ctx, Text(text)).Some? ==>
      SafeInteractionResponse(ctx, Text(text)).value.payload == Payload(Str(text), Num(Ephemeral))
  {
  }
}
