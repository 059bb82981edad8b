/**
 * The admission chain of index.js as registered: the origin/referer guard,
 * the JSON body parser with its webhook exemption, the 25 route mounts, then
 * the rate limiter, the bot guard and the suspicious-path guard.  Each stage
 * passes the request on (`next()`), answers it, or raises an error; the
 * first stage that does not pass it on ends the chain.
 */
module Pipeline {
  import opened Wrappers
  import opened Http
  import opened Routes
  import Guards

  /** The options given to `rateLimit` (index.js:102-106). */
  datatype RateLimitOptions = RateLimitOptions(windowMs: nat, max: nat, message: string)

  const LimiterOptions := RateLimitOptions(15 * 60 * 1000, 100, "Ip bloqueado.")

  /**
   * The collaborators whose code is not part of this model, each reduced to
   * the decision the chain depends on:
   *  - `decode`: `decodeURIComponent`, `None` where it throws;
   *  - `jsonOk`: `express.json()` accepts the body (otherwise it calls `next(err)`);
   *  - `keyOk`: `checkApiKey` calls `next()` (otherwise it answers);
   *  - `underLimit`: the rate limiter calls `next()` (otherwise it answers);
   *  - `handles`: the router answers the request (otherwise it calls `next()`).
   */
  datatype Env = Env(
    decode: string -> Option<string>,
    jsonOk: Request -> bool,
    keyOk: Request -> bool,
    underLimit: Request -> bool,
    handles: (Router, Ctx) -> bool)

  /** One registered middleware layer. */
  datatype Stage =
    | RefererBlock       // index.js:20-30
    | JsonBody           // index.js:66-72
    | Mount(route: Route) // index.js:75-99, one per `app.use(prefix, ...)`
    | RateLimit          // index.js:107
    | BotBlock           // index.js:110-116
    | PathBlock          // index.js:119-139

  /** What one stage did: its step, the context it hands on, and the warnings it logged. */
  datatype Effect = Effect(step: Step, ctx: Ctx, warnings: seq<string>)

  /** Which stage can end the chain with which step. */
  predicate ComesFrom(stage: Stage, step: Step) {
    match step
    case Next => true
    case Answer(Served(rt)) => stage.Mount? && stage.route.router == rt
    case Answer(KeyRejected) => stage.Mount? && stage.route.keyGuard
    case Answer(RateLimited(m)) => stage == RateLimit && m == LimiterOptions.message
    case Answer(Deny(_, _)) =>
      || (stage == RefererBlock && step.reply == Guards.Blocked)
      || (stage == BotBlock && step.reply == Guards.Forbidden)
      || (stage == PathBlock && step.reply == Guards.AccessDenied)
    case Raise(MalformedJson) => stage == JsonBody
    case Raise(MalformedUri) => stage == PathBlock
  }

  /** Runs one stage on the request. */
  function Eval(env: Env, stage: Stage, ctx: Ctx): (e: Effect)
    ensures ComesFrom(stage, e.step)
    ensures e.ctx.req == ctx.req
    ensures stage != JsonBody || !e.step.Next? ==> e.ctx == ctx
    ensures e.warnings != [] ==> stage == PathBlock && e.step == Answer(Guards.AccessDenied) && |e.warnings| == 1
    ensures stage.Mount? && !Mounted(stage.route.prefix, ctx.req) ==> e.step == Next
    ensures e.step == Answer(KeyRejected) ==>
      stage.Mount? && Mounted(stage.route.prefix, ctx.req) && !env.keyOk(ctx.req)
    ensures e.step.Answer? && e.step.reply.Served? ==>
      && stage.Mount?
      && Mounted(stage.route.prefix, ctx.req)
      && (stage.route.keyGuard ==> env.keyOk(ctx.req))
      && env.handles(stage.route.router, ctx)
  {
    match stage
    case RefererBlock => Effect(Guards.OriginGuard(ctx.req), ctx, [])
    case JsonBody =>
      if ctx.req.originalUrl == "/webhook" then Effect(Next, ctx, [])
      else if env.jsonOk(ctx.req) then Effect(Next, ctx.(jsonParserRan := true), [])
      else Effect(Raise(MalformedJson), ctx, [])
    case Mount(route) =>
      if !Mounted(route.prefix, ctx.req) then Effect(Next, ctx, [])
      else if route.keyGuard && !env.keyOk(ctx.req) then Effect(Answer(KeyRejected), ctx, [])
      else if env.handles(route.router, ctx) then Effect(Answer(Served(route.router)), ctx, [])
      else Effect(Next, ctx, [])
    case RateLimit =>
      if env.underLimit(ctx.req) then Effect(Next, ctx, [])
      else Effect(Answer(RateLimited(LimiterOptions.message)), ctx, [])
    case BotBlock => Effect(Guards.BotGuard(ctx.req), ctx, [])
    case PathBlock =>
      var g := Guards.PathGuard(env.decode, ctx.req);
      Effect(g.step, ctx, g.warnings)
  }

  /**
   * How a chain run ended: the final outcome, the stages it visited in
   * order (the last one ended it, unless every stage passed the request on),
   * the warnings logged, and the context at the end.
   */
  datatype Run = Run(final: Final, trace: seq<Stage>, warnings: seq<string>, ctx: Ctx)

  /** Runs the stages in order until one of them answers or raises. */
  function RunChain(env: Env, chain: seq<Stage>, ctx: Ctx): (r: Run)
    ensures |r.trace| <= |chain| && r.trace == chain[..|r.trace|]
    ensures r.ctx.req == ctx.req
    ensures r.final.NotFound? ==> r.trace == chain && r.warnings == []
    ensures !r.final.NotFound? ==>
      && 0 < |r.trace|
      && Eval(env, r.trace[|r.trace| - 1], r.ctx).step == StepOf(r.final)
      && r.warnings == Eval(env, r.trace[|r.trace| - 1], r.ctx).warnings
    ensures JsonBody !in chain ==> r.ctx == ctx
    decreases |chain|
  {
    if |chain| == 0 then Run(NotFound, [], [], ctx)
    else
      var e := Eval(env, chain[0], ctx);
      match e.step
      case Next =>
        var rest := RunChain(env, chain[1..], e.ctx);
        ConsPrefix(chain, rest.trace);
        Run(rest.final, [chain[0]] + rest.trace, e.warnings + rest.warnings, rest.ctx)
      case Answer(rep) => Run(Answered(rep), [chain[0]], e.warnings, e.ctx)
      case Raise(err) => Run(Failed(err), [chain[0]], e.warnings, e.ctx)
  }

  /** The first stage in front of a prefix of the remaining stages is a prefix of the chain. */
  lemma ConsPrefix(chain: seq<Stage>, t: seq<Stage>)
    requires 0 < |chain| && |t| < |chain| && t == chain[1..][..|t|]
    ensures [chain[0]] + t == chain[..|t| + 1]
    ensures 0 < |t| ==> ([chain[0]] + t)[|t|] == t[|t| - 1]
  {
  }

  /**
   * Without the body parser the context never changes, so every stage a
   * run went past (all but the last, or all of them when none answered)
   * passed the request on in the context the run started with.
   */
  lemma {:induction false} PassedBeforeLast(env: Env, chain: seq<Stage>, ctx: Ctx)
    requires JsonBody !in chain
    ensures var r := RunChain(env, chain, ctx);
      forall j :: 0 <= j < |r.trace| && (j < |r.trace| - 1 || r.final.NotFound?) ==>
        Eval(env, chain[j], ctx).step == Next
    decreases |chain|
  {
    if |chain| > 0 {
      var e := Eval(env, chain[0], ctx);
      if e.step.Next? {
        assert JsonBody !in chain[1..];
        PassedBeforeLast(env, chain[1..], ctx);
        var r := RunChain(env, chain, ctx);
        var rest := RunChain(env, chain[1..], ctx);
        forall j | 0 <= j < |r.trace| && (j < |r.trace| - 1 || r.final.NotFound?)
          ensures Eval(env, chain[j], ctx).step == Next
        {
          if j > 0 {
            assert chain[j] == chain[1..][j - 1];
          }
        }
      }
    }
  }

  /** Continues a run with further stages when, and only when, it fell off the end. */
  function Then(env: Env, ra: Run, b: seq<Stage>): Run {
    if ra.final.NotFound? then
      var rb := RunChain(env, b, ra.ctx);
      Run(rb.final, ra.trace + rb.trace, ra.warnings + rb.warnings, rb.ctx)
    else ra
  }

  /**
   * Short-circuiting: running `a + b` is running `a`, then `b` only if every
   * stage of `a` passed the request on.  A stage of `b` never runs once a
   * stage of `a` has answered or raised.
   */
  lemma {:induction false} RunAppend(env: Env, a: seq<Stage>, b: seq<Stage>, ctx: Ctx)
    ensures RunChain(env, a + b, ctx) == Then(env, RunChain(env, a, ctx), b)
    decreases |a|
  {
    if |a| == 0 {
      assert a + b == b;
    } else {
      var e := Eval(env, a[0], ctx);
      if e.step.Next? {
        RunAppend(env, a[1..], b, e.ctx);
      }
      RunAppendStep(env, a, b, ctx);
    }
  }

  /** One step of `RunAppend`: the first stage of `a`, given the claim for the rest of `a`. */
  lemma RunAppendStep(env: Env, a: seq<Stage>, b: seq<Stage>, ctx: Ctx)
    requires 0 < |a|
    requires var e := Eval(env, a[0], ctx);
      e.step.Next? ==> RunChain(env, a[1..] + b, e.ctx) == Then(env, RunChain(env, a[1..], e.ctx), b)
    ensures RunChain(env, a + b, ctx) == Then(env, RunChain(env, a, ctx), b)
  {
    assert (a + b)[0] == a[0];
    assert (a + b)[1..] == a[1..] + b;
    var e := Eval(env, a[0], ctx);
    if e.step.Next? {
      var ra := RunChain(env, a[1..], e.ctx);
      if ra.final.NotFound? {
        var rb := RunChain(env, b, ra.ctx);
        ConcatAssoc([a[0]], ra.trace, rb.trace);
        ConcatAssoc(e.warnings, ra.warnings, rb.warnings);
      }
    }
  }

  /** Concatenation is associative. */
  lemma ConcatAssoc<T>(x: seq<T>, y: seq<T>, z: seq<T>)
    ensures x + (y + z) == (x + y) + z
  {
  }

  /**
   * The body parser is skipped, leaving the body raw, exactly when the URL
   * is `/webhook` itself; any other URL goes through the JSON parser.
   */
  lemma WebhookExemption(env: Env, ctx: Ctx)
    requires !ctx.jsonParserRan
    ensures var e := Eval(env, JsonBody, ctx);
      (e.step == Next && !e.ctx.jsonParserRan) <==> ctx.req.originalUrl == "/webhook"
  {
  }

  /** `/webhook/` and `/webhook?x=1` are not exempt: the parser runs on them or rejects them. */
  lemma WebhookLookalikesParsed(env: Env, h: map<string, string>)
    ensures var e := Eval(env, JsonBody, Arrival(Request("/webhook/", h)));
      e.step != Next || e.ctx.jsonParserRan
    ensures var e := Eval(env, JsonBody, Arrival(Request("/webhook?x=1", h)));
      e.step != Next || e.ctx.jsonParserRan
  {
    WebhookExemption(env, Arrival(Request("/webhook/", h)));
    WebhookExemption(env, Arrival(Request("/webhook?x=1", h)));
  }

  /**
   * A run in which every stage passes the request on visits all of them and
   * hands on the context unchanged (when the body parser is not among them).
   */
  lemma {:induction false} AllPass(env: Env, chain: seq<Stage>, ctx: Ctx)
    requires JsonBody !in chain
    requires forall j :: 0 <= j < |chain| ==> Eval(env, chain[j], ctx).step == Next
    ensures RunChain(env, chain, ctx) == Run(NotFound, chain, [], ctx)
    decreases |chain|
  {
    if |chain| > 0 {
      assert Eval(env, chain[0], ctx).step == Next;
      AllPass(env, chain[1..], ctx);
    }
  }

  /** The first stage to answer, after stages that all passed the request on, decides the run. */
  lemma FirstAnswerDecides(env: Env, early: seq<Stage>, late: seq<Stage>, ctx: Ctx, rep: Reply)
    requires JsonBody !in early
    requires forall j :: 0 <= j < |early| ==> Eval(env, early[j], ctx).step == Next
    requires 0 < |late| && Eval(env, late[0], ctx).step == Answer(rep)
    ensures RunChain(env, early + late, ctx).final == Answered(rep)
    ensures RunChain(env, early + late, ctx).trace == early + [late[0]]
  {
    AllPass(env, early, ctx);
    RunAppend(env, early, late, ctx);
  }

  /**
   * Behind stages that all passed the request on, a run ends the way the
   * rest of the chain ends on its own, having visited those stages first.
   */
  lemma PassedThenRest(env: Env, early: seq<Stage>, late: seq<Stage>, ctx: Ctx)
    requires JsonBody !in early
    requires forall j :: 0 <= j < |early| ==> Eval(env, early[j], ctx).step == Next
    ensures var r, rl := RunChain(env, early + late, ctx), RunChain(env, late, ctx);
      r.final == rl.final && r.trace == early + rl.trace && r.ctx == rl.ctx
  {
    AllPass(env, early, ctx);
    RunAppend(env, early, late, ctx);
  }

  /**
   * A run starting at a keyed mount the request matches: without a valid
   * key it ends right there with the key refusal; with one, the mount's
   * router answers if it handles the request.
   */
  lemma KeyedMountRun(env: Env, chain: seq<Stage>, ctx: Ctx)
    requires 0 < |chain| && chain[0].Mount? && chain[0].route.keyGuard
    requires Mounted(chain[0].route.prefix, ctx.req)
    ensures var r := RunChain(env, chain, ctx);
      && r.trace[0] == chain[0]
      && (!env.keyOk(ctx.req) ==> r.final == Answered(KeyRejected) && r.trace == [chain[0]])
      && (env.keyOk(ctx.req) && env.handles(chain[0].route.router, ctx) ==>
            r.final == Answered(Served(chain[0].route.router)) && r.trace == [chain[0]])
  {
  }

  /** The suspicious-path guard run on its own. */
  lemma PathStageRun(env: Env, c: Ctx)
    ensures var r := RunChain(env, [PathBlock], c);
      match env.decode(c.req.originalUrl)
      case None => r == Run(Failed(MalformedUri), [PathBlock], [], c)
      case Some(u) =>
        if Guards.Suspicious(u) then
          r == Run(Answered(Guards.AccessDenied), [PathBlock], ["try suspect: " + u], c)
        else
          r == Run(NotFound, [PathBlock], [], c)
  {
    assert [PathBlock][1..] == [];
  }

  /** The bot guard followed by the suspicious-path guard. */
  lemma BotThenPathRun(env: Env, c: Ctx)
    ensures var r := RunChain(env, [BotBlock, PathBlock], c);
      if Guards.IsBotAgent(Header(c.req, "user-agent")) then
        r == Run(Answered(Guards.Forbidden), [BotBlock], [], c)
      else
        var p := RunChain(env, [PathBlock], c);
        r == p.(trace := [BotBlock] + p.trace)
  {
    assert [BotBlock, PathBlock][1..] == [PathBlock];
  }

  /**
   * The limiter followed by the two other late guards: they run only when
   * the limiter passed the request on.
   */
  lemma LateGuardsRun(env: Env, c: Ctx)
    ensures var r := RunChain(env, [RateLimit, BotBlock, PathBlock], c);
      if !env.underLimit(c.req) then
        r == Run(Answered(RateLimited("Ip bloqueado.")), [RateLimit], [], c)
      else
        var q := RunChain(env, [BotBlock, PathBlock], c);
        r == q.(trace := [RateLimit] + q.trace)
  {
    assert [RateLimit, BotBlock, PathBlock][1..] == [BotBlock, PathBlock];
  }

  /** Among the late guards, the bot guard is reached only after the limiter passed the request on. */
  lemma BotGuardAfterLimiter(env: Env, c: Ctx)
    ensures var t := RunChain(env, [RateLimit, BotBlock, PathBlock], c).trace;
      BotBlock in t ==> t[0] == RateLimit && env.underLimit(c.req)
  {
    LateGuardsRun(env, c);
  }

  /** Among the late guards, the suspicious-path guard is reached only after the bot guard passed the request on. */
  lemma PathGuardAfterBotGuard(env: Env, c: Ctx)
    ensures var t := RunChain(env, [RateLimit, BotBlock, PathBlock], c).trace;
      PathBlock in t ==> t[1] == BotBlock && !Guards.IsBotAgent(Header(c.req, "user-agent"))
  {
    LateGuardsRun(env, c);
    var t := RunChain(env, [RateLimit, BotBlock, PathBlock], c).trace;
    var q := RunChain(env, [BotBlock, PathBlock], c);
    if PathBlock in t {
      assert env.underLimit(c.req);
      assert t == [RateLimit] + q.trace;
      assert PathBlock in q.trace;
      assert [BotBlock, PathBlock][1..] == [PathBlock];
      assert q.trace[0] == BotBlock;
      assert Eval(env, BotBlock, c).step == Next;
      Guards.BotGuardPasses(c.req);
    }
  }

  /**
   * The late guards keep their order behind any stages that do not
   * include them: the bot guard is reached only after the limiter let the
   * request through, the suspicious-path guard only after the bot guard did.
   */
  lemma LateGuardsAfter(env: Env, head: seq<Stage>, c0: Ctx)
    requires RateLimit !in head && BotBlock !in head && PathBlock !in head
    ensures var t := RunChain(env, head + [RateLimit, BotBlock, PathBlock], c0).trace;
      BotBlock in t ==> RateLimit in t && env.underLimit(c0.req)
    ensures var t := RunChain(env, head + [RateLimit, BotBlock, PathBlock], c0).trace;
      PathBlock in t ==> BotBlock in t && !Guards.IsBotAgent(Header(c0.req, "user-agent"))
  {
    var late := [RateLimit, BotBlock, PathBlock];
    RunAppend(env, head, late, c0);
    var t := RunChain(env, head + late, c0).trace;
    var rh := RunChain(env, head, c0);
    if rh.final.NotFound? {
      BotGuardAfterLimiter(env, rh.ctx);
      PathGuardAfterBotGuard(env, rh.ctx);
      var tl := RunChain(env, late, rh.ctx).trace;
      assert t == head + tl;
      if BotBlock in t {
        assert BotBlock in tl;
        assert tl[0] in t;
      }
      if PathBlock in t {
        assert PathBlock in tl;
        assert tl[1] in t;
      }
    } else {
      NotVisited(env, head, c0, BotBlock);
      NotVisited(env, head, c0, PathBlock);
    }
  }

  /** A run visits only stages of its chain. */
  lemma NotVisited(env: Env, chain: seq<Stage>, c: Ctx, s: Stage)
    requires s !in chain
    ensures s !in RunChain(env, chain, c).trace
  {
    var t := RunChain(env, chain, c).trace;
    forall j | 0 <= j < |t|
      ensures t[j] != s
    {
      assert t[j] == chain[j];
    }
  }
}
