/**
 * The route policy table (index.js lines 75-99): the 25 `app.use` mounts in
 * registration order, each a path prefix, whether `checkApiKey` guards it,
 * and the router it dispatches to.
 */
module Routes {
  import opened Text
  import opened Http

  /** One `app.use(prefix, [checkApiKey,] router)` registration. */
  datatype Route = Route(prefix: string, keyGuard: bool, router: Router)

  /** The mounts, in the order they are registered. */
  const RouteTable: seq<Route> := [
    Route("/webhook", false, WebhookRouter),
    Route("/auth", false, UserRouter),
    Route("/auth", false, AuthRoutes),
    Route("/auth", false, RenewVipRouter),
    Route("/cancel-subscription", false, CancelSubscriptionRouter),
    Route("/vipcontent", true, VipRouter),
    Route("/pay", false, PayRouter),
    Route("/forgot-password", false, ForgotPasswordRouter),
    Route("/reset-password", false, ResetPasswordRouter),
    Route("/update-vip-status", true, UpdateVipStatusRouter),
    Route("/api/stats", true, StatsRouter),
    Route("/admin/requests", true, RequestsRouter),
    Route("/content-requests", true, ContentRequestsRouter),
    Route("/filteroptions", false, FilterOptionsRouter),
    Route("/stripe-portal", false, StripePortalRouter),
    Route("/westerncontent", true, WesternRouter),
    Route("/asiancontent", true, AsianRouter),
    Route("/bannedcontent", true, BannedContentRouter),
    Route("/unknowncontent", true, UnknownContentRouter),
    Route("/vip-asiancontent", true, VipAsianRouter),
    Route("/vip-westerncontent", true, VipWesternRouter),
    Route("/vip-bannedcontent", true, VipBannedRouter),
    Route("/vip-unknowncontent", true, VipUnknownRouter),
    Route("/universal-search", true, UniversalSearchRouter),
    Route("/recommendations", false, RecommendationsRouter)
  ]

  /** The prefixes whose router sits behind `checkApiKey`. */
  const KeyedPrefixes: set<string> := {
    "/vipcontent", "/update-vip-status", "/api/stats", "/admin/requests",
    "/content-requests", "/westerncontent", "/asiancontent", "/bannedcontent",
    "/unknowncontent", "/vip-asiancontent", "/vip-westerncontent",
    "/vip-bannedcontent", "/vip-unknowncontent", "/universal-search"
  }

  /** The public prefixes: webhook, auth, payment and account routes. */
  const OpenPrefixes: set<string> := {
    "/webhook", "/auth", "/pay", "/forgot-password", "/reset-password",
    "/cancel-subscription", "/filteroptions", "/stripe-portal", "/recommendations"
  }

  /** A mount carries the API-key guard exactly when its prefix is one of the keyed prefixes. */
  lemma KeyGuardBinding()
    ensures forall i :: 0 <= i < |RouteTable| ==>
      (RouteTable[i].keyGuard <==> RouteTable[i].prefix in KeyedPrefixes)
  {
  }

  /** A mount lacks the API-key guard exactly when its prefix is one of the public prefixes. */
  lemma OpenBinding()
    ensures forall i :: 0 <= i < |RouteTable| ==>
      (!RouteTable[i].keyGuard <==> RouteTable[i].prefix in OpenPrefixes)
  {
  }

  /** Every keyed prefix is mounted, behind the API-key guard. */
  lemma KeyedPrefixMounted(p: string)
    requires p in KeyedPrefixes
    ensures exists i :: 0 <= i < |RouteTable| && RouteTable[i].prefix == p && RouteTable[i].keyGuard
  {
    var i :=
      if p == "/vipcontent" then 5 else
      if p == "/update-vip-status" then 9 else
      if p == "/api/stats" then 10 else
      if p == "/admin/requests" then 11 else
      if p == "/content-requests" then 12 else
      if p == "/westerncontent" then 15 else
      if p == "/asiancontent" then 16 else
      if p == "/bannedcontent" then 17 else
      if p == "/unknowncontent" then 18 else
      if p == "/vip-asiancontent" then 19 else
      if p == "/vip-westerncontent" then 20 else
      if p == "/vip-bannedcontent" then 21 else
      if p == "/vip-unknowncontent" then 22 else
      23;
    assert RouteTable[i].prefix == p;
  }

  /** Every public prefix is mounted, without the API-key guard. */
  lemma OpenPrefixMounted(p: string)
    requires p in OpenPrefixes
    ensures exists i :: 0 <= i < |RouteTable| && RouteTable[i].prefix == p && !RouteTable[i].keyGuard
  {
    var i :=
      if p == "/webhook" then 0 else
      if p == "/auth" then 1 else
      if p == "/cancel-subscription" then 4 else
      if p == "/pay" then 6 else
      if p == "/forgot-password" then 7 else
      if p == "/reset-password" then 8 else
      if p == "/filteroptions" then 13 else
      if p == "/stripe-portal" then 14 else
      24;
    assert RouteTable[i].prefix == p;
  }

  /** No prefix is both keyed and public. */
  lemma PrefixListsDisjoint()
    ensures KeyedPrefixes !! OpenPrefixes
  {
  }

  /** The position of a router's mount. */
  function RouteIndex(rt: Router): (k: nat)
    ensures k < |RouteTable| && RouteTable[k].router == rt
  {
    match rt
    case WebhookRouter => 0
    case UserRouter => 1
    case AuthRoutes => 2
    case RenewVipRouter => 3
    case CancelSubscriptionRouter => 4
    case VipRouter => 5
    case PayRouter => 6
    case ForgotPasswordRouter => 7
    case ResetPasswordRouter => 8
    case UpdateVipStatusRouter => 9
    case StatsRouter => 10
    case RequestsRouter => 11
    case ContentRequestsRouter => 12
    case FilterOptionsRouter => 13
    case StripePortalRouter => 14
    case WesternRouter => 15
    case AsianRouter => 16
    case BannedContentRouter => 17
    case UnknownContentRouter => 18
    case VipAsianRouter => 19
    case VipWesternRouter => 20
    case VipBannedRouter => 21
    case VipUnknownRouter => 22
    case UniversalSearchRouter => 23
    case RecommendationsRouter => 24
  }

  /** Every router is mounted once: its position is the one `RouteIndex` gives. */
  lemma MountedOnce(rt: Router)
    ensures forall j :: 0 <= j < |RouteTable| && RouteTable[j].router == rt ==> j == RouteIndex(rt)
  {
    PositionsFirst();
    PositionsSecond();
    PositionsThird();
    PositionsFourth();
  }

  /** Mounts 0 to 6 sit where `RouteIndex` puts their routers. */
  lemma PositionsFirst()
    ensures forall j :: 0 <= j < 7 ==> RouteIndex(RouteTable[j].router) == j
  {
    var t := RouteTable[..7];
    assert forall j :: 0 <= j < 7 ==> RouteTable[j] == t[j];
  }

  /** Mounts 7 to 12 sit where `RouteIndex` puts their routers. */
  lemma PositionsSecond()
    ensures forall j :: 7 <= j < 13 ==> RouteIndex(RouteTable[j].router) == j
  {
    var t := RouteTable[7..13];
    assert forall j :: 7 <= j < 13 ==> RouteTable[j] == t[j - 7];
  }

  /** Mounts 13 to 18 sit where `RouteIndex` puts their routers. */
  lemma PositionsThird()
    ensures forall j :: 13 <= j < 19 ==> RouteIndex(RouteTable[j].router) == j
  {
    var t := RouteTable[13..19];
    assert forall j :: 13 <= j < 19 ==> RouteTable[j] == t[j - 13];
  }

  /** Mounts 19 to 24 sit where `RouteIndex` puts their routers. */
  lemma PositionsFourth()
    ensures forall j :: 19 <= j < 25 ==> RouteIndex(RouteTable[j].router) == j
  {
    var t := RouteTable[19..25];
    assert forall j :: 19 <= j < 25 ==> RouteTable[j] == t[j - 19];
  }

  /** `/auth` is mounted three times, in the order userRouter, authRoutes, renewVipRouter. */
  lemma AuthMountedThrice()
    ensures forall i :: 0 <= i < |RouteTable| ==> (RouteTable[i].prefix == "/auth" <==> 1 <= i <= 3)
    ensures RouteTable[1].router == UserRouter
    ensures RouteTable[2].router == AuthRoutes
    ensures RouteTable[3].router == RenewVipRouter
  {
  }

  /**
   * The path of an origin-form URL, as Express matches mounts on it: the
   * part before the query string or fragment, that is, everything before
   * the first `?` or `#`.
   */
  function PathOf(url: string): (p: string)
    ensures |p| <= |url| && p == url[..|p|]
    ensures '?' !in p && '#' !in p
    ensures |p| < |url| ==> url[|p|] == '?' || url[|p|] == '#'
  {
    if |url| == 0 || url[0] == '?' || url[0] == '#' then ""
    else [url[0]] + PathOf(url[1..])
  }

  /** A fragment is not part of the path: `/vipcontent#x` is matched by the `/vipcontent` mount. */
  lemma FragmentLeftOutOfPath()
    ensures PathOf("/vipcontent#x") == "/vipcontent"
    ensures Mounted("/vipcontent", Request("/vipcontent#x", map[]))
  {
    assert "/vipcontent#x" == "/vipcontent" + "#" + "x";
    assert forall k :: 0 <= k < |"/vipcontent"| ==> "/vipcontent"[k] != '?' && "/vipcontent"[k] != '#';
    PathStopsAtFragment("/vipcontent", "x");
  }

  /** Whatever follows a `#` after the path, the path is what is matched. */
  lemma {:induction false} PathStopsAtFragment(path: string, fragment: string)
    requires '?' !in path && '#' !in path
    ensures PathOf(path + "#" + fragment) == path
    decreases |path|
  {
    var u := path + "#" + fragment;
    if |path| == 0 {
      assert u[0] == '#';
    } else {
      assert u[0] == path[0];
      assert u[1..] == path[1..] + "#" + fragment;
      PathStopsAtFragment(path[1..], fragment);
    }
  }

  /**
   * `a` is `b` or a run of whole leading segments of `b`: it ends where `b`
   * ends or before a `/`.  This is the condition `Mounted` places on the
   * folded prefix and path.
   */
  predicate SegmentPrefix(a: string, b: string) {
    |a| <= |b| && b[..|a|] == a && (|a| == |b| || b[|a|] == '/')
  }

  /**
   * Express's mount match for `app.use(prefix, ...)`: the prefix, folded,
   * is a run of whole leading segments of the folded path: `SegmentPrefix`
   * of the two, written out (`MountedIsSegmentPrefix`).
   */
  predicate Mounted(prefix: string, r: Request) {
    var path, pre := Fold(PathOf(r.originalUrl)), Fold(prefix);
    |pre| <= |path| && path[..|pre|] == pre && (|path| == |pre| || path[|pre|] == '/')
  }

  /** `Mounted` is `SegmentPrefix` of the folded prefix and the folded path. */
  lemma MountedIsSegmentPrefix(prefix: string, r: Request)
    ensures Mounted(prefix, r) <==> SegmentPrefix(Fold(prefix), Fold(PathOf(r.originalUrl)))
  {
  }

  /**
   * A mount matches exactly when, after ASCII case folding, the path is the
   * prefix followed by nothing or by a part that starts with `/`.
   */
  lemma MountedMeans(prefix: string, r: Request)
    ensures Mounted(prefix, r) <==>
      exists rest :: Fold(PathOf(r.originalUrl)) == Fold(prefix) + rest && (rest == [] || rest[0] == '/')
  {
    var path, pre := Fold(PathOf(r.originalUrl)), Fold(prefix);
    if Mounted(prefix, r) {
      assert path == pre + path[|pre|..];
    }
    forall rest | path == pre + rest && (rest == [] || rest[0] == '/')
      ensures Mounted(prefix, r)
    {
      assert path[..|pre|] == pre;
      assert path[|pre|..] == rest;
    }
  }

  /**
   * The shape every prefix of the table has: `/` followed by lower-case
   * letters and `-`, except for the inner `/` of `/api/stats` and
   * `/admin/requests`, whose first segments are not themselves prefixes.
   */
  predicate PrefixShape(q: string) {
    && 1 < |q| && q[0] == '/'
    && (forall k :: 1 <= k < |q| ==>
         || 'a' <= q[k] <= 'z'
         || q[k] == '-'
         || (q[k] == '/' && (q == "/api/stats" || q == "/admin/requests")))
    && q != "/api" && q != "/admin"
  }

  /** Every prefix of the table has the shape above. */
  lemma PrefixShapes()
    ensures forall i :: 0 <= i < |RouteTable| ==> PrefixShape(RouteTable[i].prefix)
  {
    ShapesFirst();
    ShapesSecond();
    ShapesThird();
    ShapesFourth();
    ShapesFifth();
    forall i | 0 <= i < |RouteTable|
      ensures PrefixShape(RouteTable[i].prefix)
    {
    }
  }

  lemma ShapesFirst()
    ensures PrefixShape("/webhook") && PrefixShape("/auth") && PrefixShape("/cancel-subscription")
    ensures PrefixShape("/vipcontent") && PrefixShape("/pay")
  {
  }

  lemma ShapesSecond()
    ensures PrefixShape("/forgot-password") && PrefixShape("/reset-password")
    ensures PrefixShape("/update-vip-status") && PrefixShape("/api/stats")
  {
  }

  lemma ShapesThird()
    ensures PrefixShape("/admin/requests") && PrefixShape("/content-requests")
    ensures PrefixShape("/filteroptions") && PrefixShape("/stripe-portal") && PrefixShape("/westerncontent")
  {
  }

  lemma ShapesFourth()
    ensures PrefixShape("/asiancontent") && PrefixShape("/bannedcontent") && PrefixShape("/unknowncontent")
    ensures PrefixShape("/vip-asiancontent") && PrefixShape("/vip-westerncontent")
  {
  }

  lemma ShapesFifth()
    ensures PrefixShape("/vip-bannedcontent") && PrefixShape("/vip-unknowncontent")
    ensures PrefixShape("/universal-search") && PrefixShape("/recommendations")
  {
  }

  /** Two different prefixes of that shape never end at a segment boundary of one another. */
  lemma DistinctPrefixesApart(a: string, b: string)
    requires PrefixShape(a) && PrefixShape(b) && a != b
    ensures !SegmentPrefix(a, b)
  {
    if |a| < |b| && b[|a|] == '/' {
      if b == "/api/stats" {
        assert |a| == 4;
        assert b[..|a|] == "/api";
      } else {
        assert |a| == 6;
        assert b[..|a|] == "/admin";
      }
    }
  }

  /** Of two prefixes a request is mounted under, the shorter is a segment prefix of the longer. */
  lemma MountedUnderBoth(a: string, b: string, r: Request)
    ensures Mounted(a, r) && Mounted(b, r) && |a| <= |b| ==> SegmentPrefix(Fold(a), Fold(b))
  {
    var path := Fold(PathOf(r.originalUrl));
    if Mounted(a, r) && Mounted(b, r) && |a| <= |b| {
      assert Fold(b)[..|a|] == path[..|a|];
      if |a| < |b| {
        assert Fold(b)[|a|] == path[|a|];
      }
    }
  }

  /** A request mounted under one prefix of the table is not mounted under any other prefix of it. */
  lemma MountsExclusive(i: nat, j: nat, r: Request)
    requires i < |RouteTable| && j < |RouteTable|
    requires RouteTable[i].prefix != RouteTable[j].prefix
    ensures !(Mounted(RouteTable[i].prefix, r) && Mounted(RouteTable[j].prefix, r))
  {
    PrefixShapes();
    ShapedMountsExclusive(RouteTable[i].prefix, RouteTable[j].prefix, r);
  }

  /** Under two different prefixes of the table's shape, at most one mount matches. */
  lemma ShapedMountsExclusive(a: string, b: string, r: Request)
    requires PrefixShape(a) && PrefixShape(b) && a != b
    ensures !(Mounted(a, r) && Mounted(b, r))
  {
    assert Fold(a) == a by {
      assert forall k :: 0 <= k < |a| ==> !('A' <= a[k] <= 'Z');
    }
    assert Fold(b) == b by {
      assert forall k :: 0 <= k < |b| ==> !('A' <= b[k] <= 'Z');
    }
    DistinctPrefixesApart(a, b);
    DistinctPrefixesApart(b, a);
    MountedUnderBoth(a, b, r);
    MountedUnderBoth(b, a, r);
  }

  /** The position of the first mount with prefix `p`, or `|t|` when `p` is not mounted. */
  function PrefixPosition(p: string, t: seq<Route>): (k: nat)
    ensures k <= |t|
    ensures forall j :: 0 <= j < k ==> t[j].prefix != p
    ensures k < |t| ==> t[k].prefix == p
    decreases |t|
  {
    if |t| == 0 || t[0].prefix == p then 0
    else
      var k := 1 + PrefixPosition(p, t[1..]);
      assert forall j :: 1 <= j < k ==> t[j] == t[1..][j - 1];
      k
  }

  /** A keyed prefix is first mounted at a position of the table, behind `checkApiKey`. */
  lemma KeyedPrefixPosition(p: string)
    requires p in KeyedPrefixes
    ensures var k := PrefixPosition(p, RouteTable);
      k < |RouteTable| && RouteTable[k].prefix == p && RouteTable[k].keyGuard
  {
    KeyedPrefixMounted(p);
    KeyGuardBinding();
  }
}
