/**
 * The request as the admission chain sees it, and the outcomes a stage of
 * the chain can produce.
 */
module Http {

  /**
   * An inbound request: the URL as received (Express's `originalUrl`) and
   * the header map, keyed by lower-case header name as Node delivers it.
   */
  datatype Request = Request(originalUrl: string, headers: map<string, string>)

  /** A header's value, or the empty string when the header is absent (`req.headers[name] || ''`). */
  function Header(r: Request, name: string): string {
    if name in r.headers then r.headers[name] else ""
  }

  /**
   * The request as it travels down the chain: the only thing a stage
   * changes is whether the JSON body parser has been applied to it.
   */
  datatype Ctx = Ctx(req: Request, jsonParserRan: bool)

  /** The context a request enters the chain with: nothing parsed yet. */
  function Arrival(r: Request): Ctx {
    Ctx(r, false)
  }

  /** The body of a deny response: `res.json({message})` or `res.send(text)`. */
  datatype Body = JsonMessage(message: string) | PlainText(text: string)

  /** The mounted route groups of the service, one per router module. */
  datatype Router =
    | WebhookRouter | UserRouter | AuthRoutes | RenewVipRouter
    | CancelSubscriptionRouter | VipRouter | PayRouter | ForgotPasswordRouter
    | ResetPasswordRouter | UpdateVipStatusRouter | StatsRouter | RequestsRouter
    | ContentRequestsRouter | FilterOptionsRouter | StripePortalRouter
    | WesternRouter | AsianRouter | BannedContentRouter | UnknownContentRouter
    | VipAsianRouter | VipWesternRouter | VipBannedRouter | VipUnknownRouter
    | UniversalSearchRouter | RecommendationsRouter

  /** A response that ends the chain. */
  datatype Reply =
    | Deny(status: int, body: Body)      // a guard of this chain answered
    | KeyRejected                       // the API-key middleware answered
    | RateLimited(message: string)      // the rate limiter answered
    | Served(router: Router)            // a mounted router answered

  /** An error passed to `next(err)`, which skips every later ordinary stage. */
  datatype Error =
    | MalformedJson     // the JSON body parser rejected the body
    | MalformedUri      // `decodeURIComponent` threw on the URL

  /** What one stage does with the request. */
  datatype Step = Next | Answer(reply: Reply) | Raise(error: Error)

  /** How the whole chain ends: an answer, an error, or falling off the end (404). */
  datatype Final = Answered(reply: Reply) | Failed(error: Error) | NotFound

  /** The step a stage took to end the chain with `f`. */
  function StepOf(f: Final): Step {
    match f
    case Answered(rep) => Answer(rep)
    case Failed(err) => Raise(err)
    case NotFound => Next
  }
}
