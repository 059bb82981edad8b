/**
 * The chain index.js registers, in registration order, and what it
 * guarantees about every request that enters it.
 */
module Admission {
  import opened Wrappers
  import opened Text
  import opened Http
  import opened Routes
  import opened Pipeline
  import Guards

  /** One mount stage per route, in table order. */
  function Mounts(routes: seq<Route>): seq<Stage> {
    seq(|routes|, i requires 0 <= i < |routes| => Mount(routes[i]))
  }

  /** Mounting two route lists one after the other is mounting their concatenation. */
  lemma MountsAppend(a: seq<Route>, b: seq<Route>)
    ensures Mounts(a + b) == Mounts(a) + Mounts(b)
  {
  }

  /** The stages registered before the limiter: origin guard, body parser, the 25 mounts. */
  const Head: seq<Stage> := [RefererBlock, JsonBody] + Mounts(RouteTable)

  /** The stages registered after every mount (index.js:107-139). */
  const Tail: seq<Stage> := [RateLimit, BotBlock, PathBlock]

  /** The whole chain of index.js. */
  const Chain: seq<Stage> := Head + Tail

  /**
   * What the service does with one request: the origin guard always sees
   * it first, and a request nothing answered went through the whole chain
   * without a warning.
   */
  function Admit(env: Env, req: Request): (r: Run)
    ensures r.ctx.req == req
    ensures 0 < |r.trace| && r.trace[0] == RefererBlock
    ensures r.final.NotFound? ==> r.trace == Chain && r.warnings == []
  {
    assert Chain[0] == RefererBlock;
    RunChain(env, Chain, Arrival(req))
  }

  /** After the first two stages come the mounts, then the late guards. */
  lemma MountsAfterParser()
    ensures Chain[2..] == Mounts(RouteTable) + Tail
    ensures forall i :: 0 <= i < |RouteTable| ==> Chain[2..][i] == Mount(RouteTable[i])
  {
    assert Chain == [RefererBlock, JsonBody] + (Mounts(RouteTable) + Tail);
  }

  /** Where each kind of stage sits in the chain. */
  lemma ChainLayout()
    ensures |Head| == 27 && |Chain| == 30
    ensures Chain[0] == RefererBlock && Chain[1] == JsonBody
    ensures forall i :: 0 <= i < |RouteTable| ==> Chain[i + 2] == Mount(RouteTable[i])
    ensures Chain[27] == RateLimit && Chain[28] == BotBlock && Chain[29] == PathBlock
    ensures forall j :: 0 <= j < |Chain| && Chain[j].Mount? ==> 2 <= j < 27
    ensures forall s :: s in Head ==> s == RefererBlock || s == JsonBody || s.Mount?
    ensures JsonBody !in Chain[2..]
  {
    ChainEnds();
    MountsAfterParser();
    HeadStages();
    forall s | s in Chain[2..]
      ensures s != JsonBody
    {
      var j :| 0 <= j < |Chain[2..]| && Chain[2..][j] == s;
    }
  }

  /** The first two stages and the last three. */
  lemma ChainEnds()
    ensures |Head| == 27 && |Chain| == 30
    ensures Chain[0] == RefererBlock && Chain[1] == JsonBody
    ensures Chain[27] == RateLimit && Chain[28] == BotBlock && Chain[29] == PathBlock
    ensures Chain[27..] == Tail
  {
    assert Chain == [RefererBlock, JsonBody] + Mounts(RouteTable) + Tail;
  }

  /** Before the limiter there are only the origin guard, the body parser and mounts. */
  lemma HeadStages()
    ensures forall s :: s in Head ==> s == RefererBlock || s == JsonBody || s.Mount?
  {
    forall s | s in Head
      ensures s == RefererBlock || s == JsonBody || s.Mount?
    {
      var i :| 0 <= i < |Head| && Head[i] == s;
      if 2 <= i {
        assert s == Mounts(RouteTable)[i - 2];
      }
    }
  }

  /** The stage at a chain position between the parser and the limiter is a mount. */
  lemma MountAt(i: int)
    requires 2 <= i < 27
    ensures Chain[i] == Mount(RouteTable[i - 2])
  {
    ChainLayout();
  }

  /** None of the late guards is registered before the limiter. */
  lemma HeadHasNoLateGuards()
    ensures RateLimit !in Head && BotBlock !in Head && PathBlock !in Head
  {
    HeadStages();
  }

  /** The referer or the origin header contains `https://bypass.city/`, as a case-sensitive substring. */
  ghost predicate BypassReferenced(req: Request) {
    || (exists i :: OccursAt(Header(req, "referer"), "https://bypass.city/", i))
    || (exists i :: OccursAt(Header(req, "origin"), "https://bypass.city/", i))
  }

  /** The stage that ended a run, and the step it took, read off the run. */
  lemma LastStage(env: Env, req: Request) returns (s: Stage)
    requires !Admit(env, req).final.NotFound?
    ensures var r := Admit(env, req);
      && s == r.trace[|r.trace| - 1]
      && s == Chain[|r.trace| - 1]
      && Eval(env, s, r.ctx).step == StepOf(r.final)
      && ComesFrom(s, StepOf(r.final))
      && r.ctx.req == req
  {
    var r := Admit(env, req);
    var n := |r.trace|;
    s := r.trace[n - 1];
    assert r.trace == Chain[..n];
    assert s == Chain[..n][n - 1];
  }

  /**
   * The origin/referer guard answers 403 `You are blocked` exactly for the
   * requests that reference the blocked domain, and such a request visits
   * no other stage: no router sees it.
   */
  lemma OriginDenial(env: Env, req: Request)
    ensures Admit(env, req).final == Answered(Guards.Blocked) <==> BypassReferenced(req)
    ensures BypassReferenced(req) ==>
      Admit(env, req).trace == [RefererBlock] && Admit(env, req).warnings == []
  {
    ChainLayout();
    var r := Admit(env, req);
    if r.final == Answered(Guards.Blocked) {
      var s := LastStage(env, req);
      assert s == RefererBlock;
    }
  }

  /** The origin guard then the body parser: when both pass, the parser ran unless the URL is `/webhook`. */
  lemma GuardThenParser(env: Env, req: Request)
    ensures var rh := RunChain(env, [RefererBlock, JsonBody], Arrival(req));
      && (rh.final.NotFound? <==>
            Guards.OriginGuard(req) == Next && (req.originalUrl == "/webhook" || env.jsonOk(req)))
      && (rh.final.NotFound? ==>
            rh.ctx == Ctx(req, req.originalUrl != "/webhook") && rh.warnings == [])
      && (!rh.final.NotFound? ==> |rh.trace| <= 2)
  {
    var ctx0 := Arrival(req);
    var e0 := Eval(env, RefererBlock, ctx0);
    assert [RefererBlock, JsonBody][1..] == [JsonBody];
    if e0.step.Next? {
      assert e0.ctx == ctx0;
      var r1 := RunChain(env, [JsonBody], ctx0);
      assert [JsonBody][1..] == [];
      assert r1.final.NotFound? ==> r1.ctx == Ctx(req, req.originalUrl != "/webhook");
    }
  }

  /** A run splits after the first two stages, before the mounts. */
  lemma SplitAtMounts(env: Env, req: Request) returns (rh: Run)
    ensures rh == RunChain(env, [RefererBlock, JsonBody], Arrival(req))
    ensures Admit(env, req) == Then(env, rh, Chain[2..])
    ensures rh.final.NotFound? ==>
      rh.ctx == Ctx(req, req.originalUrl != "/webhook") && rh.trace == Chain[..2] && rh.warnings == []
    ensures !rh.final.NotFound? ==> |rh.trace| <= 2
  {
    assert Chain[..2] == [RefererBlock, JsonBody];
    assert Chain == Chain[..2] + Chain[2..];
    RunAppend(env, Chain[..2], Chain[2..], Arrival(req));
    rh := RunChain(env, [RefererBlock, JsonBody], Arrival(req));
    GuardThenParser(env, req);
  }

  /** A run a router ended stopped at that router's mount. */
  lemma ServedAtMount(env: Env, req: Request, rt: Router)
    requires Admit(env, req).final == Answered(Served(rt))
    ensures |Admit(env, req).trace| == RouteIndex(rt) + 3
    ensures Eval(env, Mount(RouteTable[RouteIndex(rt)]), Admit(env, req).ctx).step == Answer(Served(rt))
  {
    MountedOnce(rt);
    ChainLayout();
    var r := Admit(env, req);
    var s := LastStage(env, req);
    var n := |r.trace|;
    assert Chain[n - 1] == Mount(RouteTable[n - 3]);
  }

  /**
   * A request a router answered went through the origin guard and the body
   * parser, reached that router's one mount, matched its prefix, carried a
   * valid key if the mount is keyed, and every earlier mount passed it on.
   */
  lemma ServedByMount(env: Env, req: Request, rt: Router)
    requires Admit(env, req).final == Answered(Served(rt))
    ensures var r := Admit(env, req);
      var k := RouteIndex(rt);
      var route := RouteTable[k];
      && r.trace == Chain[..k + 3]
      && r.ctx == Ctx(req, req.originalUrl != "/webhook")
      && r.warnings == []
      && Mounted(route.prefix, req)
      && (route.keyGuard ==> env.keyOk(req))
      && env.handles(rt, r.ctx)
      && forall j :: 0 <= j < k ==> Eval(env, Mount(RouteTable[j]), r.ctx).step == Next
  {
    var r := Admit(env, req);
    var k := RouteIndex(rt);
    var rh, rest := ServedPastParser(env, req, rt);
    assert Eval(env, Mount(RouteTable[k]), r.ctx).step == Answer(Served(rt));
    MountsPassedBeforeLast(env, rh.ctx, k);
  }

  /** Past the body parser, the mounts a run went beyond all passed the request on. */
  lemma MountsPassedBeforeLast(env: Env, ctx: Ctx, n: nat)
    requires n < |RouteTable|
    ensures n < |RunChain(env, Chain[2..], ctx).trace| ==>
      forall j :: 0 <= j < n ==> Eval(env, Mount(RouteTable[j]), ctx).step == Next
  {
    assert JsonBody !in Chain[2..] by {
      ChainLayout();
    }
    PassedBeforeLast(env, Chain[2..], ctx);
    MountsAfterParser();
  }


  /** A run a router ended got past the origin guard and the body parser. */
  lemma ServedPastParser(env: Env, req: Request, rt: Router) returns (rh: Run, rest: Run)
    requires Admit(env, req).final == Answered(Served(rt))
    ensures rh == RunChain(env, [RefererBlock, JsonBody], Arrival(req))
    ensures rh.final.NotFound? && rh.ctx == Ctx(req, req.originalUrl != "/webhook")
    ensures rest == RunChain(env, Chain[2..], rh.ctx)
    ensures Admit(env, req) == rest.(trace := Chain[..2] + rest.trace)
    ensures |rest.trace| == RouteIndex(rt) + 1 && rest.ctx == rh.ctx
    ensures Admit(env, req).trace == Chain[..RouteIndex(rt) + 3]
    ensures Eval(env, Mount(RouteTable[RouteIndex(rt)]), rh.ctx).step == Answer(Served(rt))
  {
    var r := Admit(env, req);
    ServedAtMount(env, req, rt);
    rh := SplitAtMounts(env, req);
    assert JsonBody !in Chain[2..] by {
      ChainLayout();
    }
    rest := RunChain(env, Chain[2..], rh.ctx);
  }

  /** The chain positions of the three `/auth` mounts. */
  lemma AuthStages()
    ensures Chain[3] == Mount(Route("/auth", false, UserRouter))
    ensures Chain[4] == Mount(Route("/auth", false, AuthRoutes))
    ensures Chain[5] == Mount(Route("/auth", false, RenewVipRouter))
    ensures RouteTable[1] == Route("/auth", false, UserRouter)
    ensures RouteTable[2] == Route("/auth", false, AuthRoutes)
    ensures RouteTable[3] == Route("/auth", false, RenewVipRouter)
  {
    MountsAfterParser();
    assert Chain[3] == Chain[2..][1] && Chain[4] == Chain[2..][2] && Chain[5] == Chain[2..][3];
  }

  /** Every mount before the one that answered was visited and passed the request on. */
  lemma EarlierMountDeclined(env: Env, req: Request, rt: Router, j: nat)
    requires Admit(env, req).final == Answered(Served(rt))
    requires j < RouteIndex(rt)
    ensures var r := Admit(env, req);
      && Mount(RouteTable[j]) in r.trace
      && Eval(env, Mount(RouteTable[j]), r.ctx).step == Next
      && Mounted(RouteTable[RouteIndex(rt)].prefix, req)
      && r.ctx.req == req
  {
    var r := Admit(env, req);
    ServedByMount(env, req, rt);
    MountAt(j + 2);
    assert r.trace[j + 2] == Chain[j + 2];
  }

  /** No mount after the one that answered was visited. */
  lemma LaterMountUnreached(env: Env, req: Request, rt: Router, j: nat)
    requires Admit(env, req).final == Answered(Served(rt))
    requires RouteIndex(rt) < j < |RouteTable|
    ensures Mount(RouteTable[j]) !in Admit(env, req).trace
  {
    var r := Admit(env, req);
    ServedByMount(env, req, rt);
    forall i | 0 <= i < |r.trace|
      ensures r.trace[i] != Mount(RouteTable[j])
    {
      EarlierStageIsNotMount(i, j);
    }
  }

  /** A chain position before the `j`-th mount holds a different stage. */
  lemma EarlierStageIsNotMount(i: nat, j: nat)
    requires i < j + 2 && j < |RouteTable|
    ensures Chain[i] != Mount(RouteTable[j])
  {
    if i < 2 {
      ChainLayout();
    } else {
      MountAt(i);
      assert RouteTable[i - 2].router != RouteTable[j].router by {
        MountedOnce(RouteTable[j].router);
      }
    }
  }

  /** authRoutes answers only requests userRouter, mounted at the same prefix before it, declined. */
  lemma AuthRoutesAfterUserRouter(env: Env, req: Request)
    requires Admit(env, req).final == Answered(Served(AuthRoutes))
    ensures var r := Admit(env, req);
      Mount(RouteTable[1]) in r.trace && !env.handles(UserRouter, r.ctx)
  {
    AuthStages();
    assert RouteIndex(AuthRoutes) == 2;
    EarlierMountDeclined(env, req, AuthRoutes, 1);
  }

  /** renewVipRouter answers only requests both earlier `/auth` routers declined. */
  lemma RenewVipAfterOtherAuthRouters(env: Env, req: Request)
    requires Admit(env, req).final == Answered(Served(RenewVipRouter))
    ensures var r := Admit(env, req);
      && Mount(RouteTable[1]) in r.trace && Mount(RouteTable[2]) in r.trace
      && !env.handles(UserRouter, r.ctx) && !env.handles(AuthRoutes, r.ctx)
  {
    AuthStages();
    assert RouteIndex(RenewVipRouter) == 3;
    EarlierMountDeclined(env, req, RenewVipRouter, 1);
    EarlierMountDeclined(env, req, RenewVipRouter, 2);
  }

  /** When userRouter answers, the later `/auth` routers are never reached. */
  lemma UserRouterFirstAtAuth(env: Env, req: Request)
    requires Admit(env, req).final == Answered(Served(UserRouter))
    ensures var r := Admit(env, req);
      Mount(RouteTable[2]) !in r.trace && Mount(RouteTable[3]) !in r.trace
  {
    assert RouteIndex(UserRouter) == 1;
    LaterMountUnreached(env, req, UserRouter, 2);
    LaterMountUnreached(env, req, UserRouter, 3);
  }

  /**
   * A router behind `checkApiKey` answers only requests the key check
   * accepted, and the key check only ever answers for a keyed prefix the
   * request matched.
   */
  lemma KeyGuardedRoutes(env: Env, req: Request, rt: Router)
    ensures var r := Admit(env, req);
      r.final == Answered(Served(rt)) && RouteTable[RouteIndex(rt)].prefix in KeyedPrefixes ==>
        env.keyOk(req)
    ensures var r := Admit(env, req);
      r.final == Answered(KeyRejected) ==>
        !env.keyOk(req) && exists p :: p in KeyedPrefixes && Mounted(p, req)
  {
    var r := Admit(env, req);
    KeyGuardBinding();
    if r.final == Answered(Served(rt)) {
      ServedByMount(env, req, rt);
    }
    if r.final == Answered(KeyRejected) {
      var s := LastStage(env, req);
      ChainLayout();
      var n := |r.trace|;
      assert s == Mount(RouteTable[n - 3]);
      assert RouteTable[n - 3].prefix in KeyedPrefixes;
    }
  }

  /**
   * Past the body parser, a request under a keyed prefix without a valid
   * key is refused by `checkApiKey` at the first mount of that prefix:
   * no earlier mount matches it, so none can answer first.
   */
  lemma KeyedPrefixRefusesBadKey(env: Env, req: Request, p: string)
    requires p in KeyedPrefixes && Mounted(p, req) && !env.keyOk(req)
    requires RunChain(env, [RefererBlock, JsonBody], Arrival(req)).final.NotFound?
    ensures var r, k := Admit(env, req), PrefixPosition(p, RouteTable);
      && r.final == Answered(KeyRejected)
      && k < |RouteTable|
      && r.trace[|r.trace| - 1] == Mount(RouteTable[k])
  {
    var k, late := KeyedMountFirstReached(env, req, p);
    KeyedMountRun(env, late, Ctx(req, req.originalUrl != "/webhook"));
  }

  /**
   * Past the body parser, a request under a keyed prefix with a valid key
   * reaches the first mount of that prefix, and is served there when that
   * mount's router handles it.
   */
  lemma KeyedPrefixAdmitsGoodKey(env: Env, req: Request, p: string)
    requires p in KeyedPrefixes && Mounted(p, req) && env.keyOk(req)
    requires RunChain(env, [RefererBlock, JsonBody], Arrival(req)).final.NotFound?
    ensures var r, k := Admit(env, req), PrefixPosition(p, RouteTable);
      && k < |RouteTable|
      && Mount(RouteTable[k]) in r.trace
      && (env.handles(RouteTable[k].router, Ctx(req, req.originalUrl != "/webhook")) ==>
            r.final == Answered(Served(RouteTable[k].router)))
  {
    var k, late := KeyedMountFirstReached(env, req, p);
    KeyedMountRun(env, late, Ctx(req, req.originalUrl != "/webhook"));
  }

  /**
   * Past the body parser, a request under a keyed prefix passes every
   * mount before the first one with that prefix, since it matches none of
   * them, and the rest of the chain from that mount decides its run.
   */
  lemma KeyedMountFirstReached(env: Env, req: Request, p: string) returns (k: nat, late: seq<Stage>)
    requires p in KeyedPrefixes && Mounted(p, req)
    requires RunChain(env, [RefererBlock, JsonBody], Arrival(req)).final.NotFound?
    ensures k == PrefixPosition(p, RouteTable) && k < |RouteTable|
    ensures RouteTable[k].prefix == p && RouteTable[k].keyGuard
    ensures 0 < |late| && late[0] == Mount(RouteTable[k])
    ensures var rl := RunChain(env, late, Ctx(req, req.originalUrl != "/webhook"));
      && Admit(env, req).final == rl.final
      && Admit(env, req).trace == Chain[..2] + (Mounts(RouteTable[..k]) + rl.trace)
  {
    var rh := SplitAtMounts(env, req);
    var ctx := rh.ctx;
    k := PrefixPosition(p, RouteTable);
    KeyedPrefixPosition(p);
    var early := RouteTable[..k];
    forall j | 0 <= j < |early|
      ensures !Mounted(early[j].prefix, req)
    {
      MountsExclusive(k, j, req);
    }
    UnmatchedMountsPass(env, early, ctx);
    late := Mounts(RouteTable[k..]) + Tail;
    MountsSplitAt(k);
    PassedThenRest(env, Mounts(early), late, ctx);
  }

  /** The stages after the body parser, cut before the mount at table position `k`. */
  lemma MountsSplitAt(k: nat)
    requires k < |RouteTable|
    ensures Chain[2..] == Mounts(RouteTable[..k]) + (Mounts(RouteTable[k..]) + Tail)
    ensures Mounts(RouteTable[k..])[0] == Mount(RouteTable[k])
  {
    MountsAfterParser();
    SplitMounts(RouteTable, k);
  }

  /** Mounting a route list is mounting its two halves one after the other. */
  lemma SplitMounts(t: seq<Route>, k: nat)
    requires k <= |t|
    ensures Mounts(t) == Mounts(t[..k]) + Mounts(t[k..])
  {
    MountsAppend(t[..k], t[k..]);
    assert t == t[..k] + t[k..];
  }

  /** Mounts the request matches none of all pass it on, and the body parser is not among them. */
  lemma UnmatchedMountsPass(env: Env, routes: seq<Route>, ctx: Ctx)
    requires forall j :: 0 <= j < |routes| ==> !Mounted(routes[j].prefix, ctx.req)
    ensures JsonBody !in Mounts(routes)
    ensures forall j :: 0 <= j < |Mounts(routes)| ==> Eval(env, Mounts(routes)[j], ctx).step == Next
  {
  }

  /**
   * The webhook router sees a body the JSON parser never touched exactly
   * when the URL is `/webhook` itself: `/webhook/` or `/webhook?x=1` still
   * reach it, but parsed.
   */
  lemma WebhookRawBody(env: Env, req: Request)
    requires Admit(env, req).final == Answered(Served(WebhookRouter))
    ensures !Admit(env, req).ctx.jsonParserRan <==> req.originalUrl == "/webhook"
  {
    ServedByMount(env, req, WebhookRouter);
  }

  /**
   * A request a router answered never reaches the limiter, the bot guard
   * or the suspicious-path guard: they are registered after every mount.
   */
  lemma RoutedSkipsTailGuards(env: Env, req: Request)
    requires Admit(env, req).final.Answered? && Admit(env, req).final.reply.Served?
    ensures var r := Admit(env, req);
      RateLimit !in r.trace && BotBlock !in r.trace && PathBlock !in r.trace
  {
    var r := Admit(env, req);
    ServedByMount(env, req, r.final.reply.router);
    ChainLayout();
    var n := |r.trace|;
    forall j | 0 <= j < n
      ensures r.trace[j] != RateLimit && r.trace[j] != BotBlock && r.trace[j] != PathBlock
    {
      assert r.trace[j] == Head[j];
    }
  }

  /** A run splits before the limiter: the limiter runs only if every earlier stage passed the request on. */
  lemma SplitAtLimiter(env: Env, req: Request) returns (rh: Run)
    ensures rh == RunChain(env, Head, Arrival(req))
    ensures Admit(env, req) == Then(env, rh, Tail)
    ensures rh.ctx.req == req
    ensures !rh.final.NotFound? ==>
      forall s :: s in Admit(env, req).trace ==> s == RefererBlock || s == JsonBody || s.Mount?
  {
    RunAppend(env, Head, Tail, Arrival(req));
    rh := RunChain(env, Head, Arrival(req));
    ChainLayout();
  }

  /**
   * Once every stage up to the last mount passed the request on, the three
   * late guards decide it in order: the limiter, then the bot guard, then
   * the suspicious-path guard, which logs one warning when it refuses and
   * raises when the URL cannot be decoded.
   */
  lemma TailOutcome(env: Env, req: Request)
    requires RunChain(env, Head, Arrival(req)).final.NotFound?
    ensures var r := Admit(env, req);
      if !env.underLimit(req) then
        r.final == Answered(RateLimited("Ip bloqueado.")) && r.warnings == []
      else if Guards.IsBotAgent(Header(req, "user-agent")) then
        r.final == Answered(Guards.Forbidden) && r.warnings == []
      else match env.decode(req.originalUrl)
        case None => r.final == Failed(MalformedUri) && r.warnings == []
        case Some(u) =>
          if Guards.Suspicious(u) then
            r.final == Answered(Guards.AccessDenied) && r.warnings == ["try suspect: " + u]
          else
            r.final == NotFound && r.warnings == []
  {
    var rh := SplitAtLimiter(env, req);
    assert Tail == [RateLimit, BotBlock, PathBlock];
    LateGuardsRun(env, rh.ctx);
    BotThenPathRun(env, rh.ctx);
    PathStageRun(env, rh.ctx);
  }

  /**
   * Among the late guards the order is limiter, bot guard, suspicious-path
   * guard: a request reaches the bot guard only after the limiter let it
   * through, and the path guard only after the bot guard let it through.
   */
  lemma TailGuardOrder(env: Env, req: Request)
    ensures var r := Admit(env, req);
      BotBlock in r.trace ==> RateLimit in r.trace && env.underLimit(req)
    ensures var r := Admit(env, req);
      PathBlock in r.trace ==>
        BotBlock in r.trace && !Guards.IsBotAgent(Header(req, "user-agent"))
  {
    HeadHasNoLateGuards();
    assert Chain == Head + [RateLimit, BotBlock, PathBlock];
    LateGuardsAfter(env, Head, Arrival(req));
  }

  /**
   * Only a refusal by the suspicious-path guard logs, and it logs exactly
   * one warning carrying the decoded URL it refused.
   */
  lemma OneWarningPerDenial(env: Env, req: Request)
    ensures var r := Admit(env, req);
      r.warnings != [] ==> r.final == Answered(Guards.AccessDenied) && |r.warnings| == 1
    ensures var r := Admit(env, req);
      r.final == Answered(Guards.AccessDenied) ==>
        exists u :: env.decode(req.originalUrl) == Some(u) && Guards.Suspicious(u) &&
          r.warnings == ["try suspect: " + u]
  {
    var r := Admit(env, req);
    if !r.final.NotFound? {
      var s := LastStage(env, req);
      if r.final == Answered(Guards.AccessDenied) {
        assert s == PathBlock;
        var u := env.decode(req.originalUrl).value;
        assert Guards.Suspicious(u);
      }
    }
  }

  /** The limiter's options: a 15-minute window, 100 requests, and its refusal message. */
  lemma LimiterConfig()
    ensures LimiterOptions.windowMs == 900000 && LimiterOptions.windowMs == 15 * 60 * 1000
    ensures LimiterOptions.max == 100
    ensures LimiterOptions.message == "Ip bloqueado."
  {
  }

  /** The seventh mount is the payment router, at `/pay`, without a key guard. */
  lemma PayMount()
    ensures RouteTable[6] == Route("/pay", false, PayRouter)
  {
  }

  /** None of the six mounts registered before `/pay` matches `/pay`: each prefix is longer. */
  lemma EarlyMountsSkipPay(env: Env, ctx: Ctx)
    requires ctx.req.originalUrl == "/pay"
    ensures forall j :: 0 <= j < 6 ==> Eval(env, Mounts(RouteTable[..6])[j], ctx).step == Next
  {
    assert PathOf("/pay") == "/pay";
    var early := RouteTable[..6];
    assert early == [
      Route("/webhook", false, WebhookRouter),
      Route("/auth", false, UserRouter),
      Route("/auth", false, AuthRoutes),
      Route("/auth", false, RenewVipRouter),
      Route("/cancel-subscription", false, CancelSubscriptionRouter),
      Route("/vipcontent", true, VipRouter)];
    forall j | 0 <= j < 6
      ensures !Mounted(early[j].prefix, ctx.req)
    {
      assert |early[j].prefix| >= 5;
    }
  }

  /** Past the body parser, a `/pay` request the payment router handles is served by it. */
  lemma PayServedAfterParser(env: Env, ctx: Ctx)
    requires ctx.req.originalUrl == "/pay" && env.handles(PayRouter, ctx)
    ensures RunChain(env, Chain[2..], ctx).final == Answered(Served(PayRouter))
  {
    var early := Chain[2..8];
    var late := Chain[8..];
    assert Chain[2..] == early + late && late[0] == Mount(RouteTable[6]) by {
      MountsAfterParser();
    }
    assert early == Mounts(RouteTable[..6]) by {
      MountsAfterParser();
    }
    EarlyMountsSkipPay(env, ctx);
    assert JsonBody !in early;
    assert Eval(env, late[0], ctx).step == Answer(Served(PayRouter)) by {
      PayMount();
      assert Mounted("/pay", ctx.req) by {
        assert PathOf("/pay") == "/pay";
        assert Fold("/pay") == "/pay";
      }
    }
    FirstAnswerDecides(env, early, late, ctx, Served(PayRouter));
  }

  /**
   * The bot guard protects only what no router answered: a `curl` client
   * asking for `/pay` is served by the payment router, because the bot
   * guard is registered after the mounts.
   */
  lemma RoutedBotIsServed(env: Env)
    requires env.jsonOk(Request("/pay", map["user-agent" := "curl/8.4.0"]))
    requires env.handles(PayRouter, Ctx(Request("/pay", map["user-agent" := "curl/8.4.0"]), true))
    ensures var req := Request("/pay", map["user-agent" := "curl/8.4.0"]);
      && Guards.IsBotAgent(Header(req, "user-agent"))
      && Admit(env, req).final == Answered(Served(PayRouter))
  {
    var req := Request("/pay", map["user-agent" := "curl/8.4.0"]);
    assert OccursAtIgnoringCase(Header(req, "user-agent"), "curl", 0);
    assert ContainsIgnoringCase(Header(req, "user-agent"), Guards.BotPatterns[0]);
    Guards.MissingOriginHeadersPass(req);
    GuardThenParser(env, req);
    var rh := SplitAtMounts(env, req);
    var ctx := Ctx(req, true);
    assert rh.final.NotFound? && rh.ctx == ctx;
    PayServedAfterParser(env, ctx);
  }
}
