/**
 * Instruction routing: the AI classifies a free-text instruction into an intent with its
 * arguments; when the AI is unavailable or answers without an intent, the keyword
 * fallback decides.
 */
module Router {
  import opened Wrappers
  import opened Text
  import opened Records
  import opened AiFallbacks

  const RouteName := "route_instruction"

  /**
   * The AI-backed `route_instruction` before wrapping: the answer, with code fences
   * stripped, must parse as JSON and carry an `intent`; anything else raises.
   */
  function RoutePrimary(reply: AiReply, parse: string -> Option<RouteDict>): (r: Attempt<AiValue>)
    ensures r.Succeeded? <==> reply.Reply? && parse(StripCodeFences(reply.text)).Some?
                              && parse(StripCodeFences(reply.text)).value.intent.Some?
    ensures r.Succeeded? ==> r.value == RouteValue(parse(StripCodeFences(reply.text)).value)
  {
    match reply
    case NoReply => Raised
    case Reply(text) =>
      match parse(StripCodeFences(text))
      case None => Raised
      case Some(d) => if d.intent.None? then Raised else Succeeded(RouteValue(d))
  }

  /** The wrapped `route_instruction`, as callers see it. */
  function RouteInstruction(instruction: string, reply: AiReply, parse: string -> Option<RouteDict>): AiValue {
    WithAiFallback(RouteName,
                   (_: string) => RoutePrimary(reply, parse),
                   (s: string) => Succeeded(RouteValue(FallbackRouteInstruction(s))),
                   instruction)
  }

  /**
   * Routing always yields a routing dict with an intent: the AI's when it answered with
   * one, the keyword fallback's otherwise.
   */
  lemma RouteAlwaysHasIntent(instruction: string, reply: AiReply, parse: string -> Option<RouteDict>)
    ensures var r := RouteInstruction(instruction, reply, parse);
      && r.RouteValue? && r.route.intent.Some?
      && (RoutePrimary(reply, parse).Raised? ==> r.route == FallbackRouteInstruction(instruction))
      && (RoutePrimary(reply, parse).Succeeded? ==> r.route == parse(StripCodeFences(reply.text)).value)
  {
  }

  /** A fenced JSON answer reaches the parser without its fences and is returned as parsed. */
  lemma FencedAnswerRoutes(instruction: string, body: string, parse: string -> Option<RouteDict>)
    requires parse(body).Some? && parse(body).value.intent.Some?
    ensures RouteInstruction(instruction, Reply("```json" + body + "```"), parse) == RouteValue(parse(body).value)
  {
    JsonFenceRoundTrip(body);
  }
}
