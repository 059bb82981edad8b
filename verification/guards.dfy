/**
 * The three string guards of the chain (index.js lines 20-30, 110-116 and
 * 119-139).  Each is a pure function from the request to a step; the
 * suspicious-path guard also reports the warnings it logs.
 */
module Guards {
  import opened Wrappers
  import opened Text
  import opened Http

  // ----- Origin/referer blocklist (index.js:20-30) -----

  /** Referer or origin values containing one of these are refused. */
  const BlockedDomains: seq<string> := ["https://bypass.city/"]

  /** The reply of the origin/referer guard. */
  const Blocked := Deny(403, JsonMessage("You are blocked"))

  /** `blockedDomains.some(d => referer.includes(d) || origin.includes(d))`. */
  predicate OriginBlocked(r: Request) {
    exists d | d in BlockedDomains ::
      Contains(Header(r, "referer"), d) || Contains(Header(r, "origin"), d)
  }

  function OriginGuard(r: Request): (s: Step)
    ensures s == Answer(Blocked) || s == Next
    ensures s == Answer(Blocked) <==>
      (exists i :: OccursAt(Header(r, "referer"), "https://bypass.city/", i)) ||
      (exists i :: OccursAt(Header(r, "origin"), "https://bypass.city/", i))
  {
    var referer, origin := Header(r, "referer"), Header(r, "origin");
    assert OriginBlocked(r) <==>
      Contains(referer, BlockedDomains[0]) || Contains(origin, BlockedDomains[0]);
    if OriginBlocked(r) then Answer(Blocked) else Next
  }

  // ----- Bot user-agent guard (index.js:110-116) -----

  /** The alternatives of `/curl|wget|bot|spider/i`. */
  const BotPatterns: seq<string> := ["curl", "wget", "bot", "spider"]

  /** The reply of the bot guard. */
  const Forbidden := Deny(403, PlainText("Forbidden"))

  /** The user-agent matches `/curl|wget|bot|spider/i`. */
  predicate IsBotAgent(ua: string) {
    exists p | p in BotPatterns :: ContainsIgnoringCase(ua, p)
  }

  function BotGuard(r: Request): (s: Step)
    ensures s == Answer(Forbidden) || s == Next
    ensures var ua := Header(r, "user-agent");
      s == Answer(Forbidden) <==>
        (exists i :: OccursAtIgnoringCase(ua, "curl", i)) ||
        (exists i :: OccursAtIgnoringCase(ua, "wget", i)) ||
        (exists i :: OccursAtIgnoringCase(ua, "bot", i)) ||
        (exists i :: OccursAtIgnoringCase(ua, "spider", i))
  {
    var ua := Header(r, "user-agent");
    assert IsBotAgent(ua) <==>
      ContainsIgnoringCase(ua, BotPatterns[0]) || ContainsIgnoringCase(ua, BotPatterns[1]) ||
      ContainsIgnoringCase(ua, BotPatterns[2]) || ContainsIgnoringCase(ua, BotPatterns[3]);
    if IsBotAgent(ua) then Answer(Forbidden) else Next
  }

  /** The bot guard passes a request on exactly when its user agent names no crawler. */
  lemma BotGuardPasses(r: Request)
    ensures BotGuard(r) == Next <==> !IsBotAgent(Header(r, "user-agent"))
  {
  }

  // ----- Suspicious-path guard (index.js:119-139) -----

  /** One entry of the `bloqueios` list: `/lit$/i` or `/lit/i` with a literal `lit`. */
  datatype Pattern = Suffix(lit: string) | Infix(lit: string)

  /** `pattern.test(url)`. */
  predicate Matches(url: string, pat: Pattern) {
    match pat
    case Suffix(lit) => EndsWithIgnoringCase(url, lit)
    case Infix(lit) => ContainsIgnoringCase(url, lit)
  }

  /** The `bloqueios` list, in the order the loop tries it. */
  const SuspiciousPatterns: seq<Pattern> := [
    Suffix(".bak"), Suffix(".old"),
    Infix("nice ports"), Infix("trinity"), Infix(".git"), Infix(".env"),
    Infix("wp-admin"), Infix("phpmyadmin")
  ]

  /** The reply of the suspicious-path guard. */
  const AccessDenied := Deny(403, PlainText("Access denied."))

  /**
   * The decoded URL is a probe, spelled out character by character:
   * it ends with `.bak` or `.old`, or contains one of the six fragments,
   * all compared ignoring ASCII case.
   */
  ghost predicate Suspicious(u: string) {
    || OccursAtIgnoringCase(u, ".bak", |u| - 4)
    || OccursAtIgnoringCase(u, ".old", |u| - 4)
    || (exists i :: OccursAtIgnoringCase(u, "nice ports", i))
    || (exists i :: OccursAtIgnoringCase(u, "trinity", i))
    || (exists i :: OccursAtIgnoringCase(u, ".git", i))
    || (exists i :: OccursAtIgnoringCase(u, ".env", i))
    || (exists i :: OccursAtIgnoringCase(u, "wp-admin", i))
    || (exists i :: OccursAtIgnoringCase(u, "phpmyadmin", i))
  }

  /**
   * The `for (const pattern of bloqueios)` loop: the position of the first
   * pattern that matches, or `|pats|` when none does.
   */
  function FirstMatch(url: string, pats: seq<Pattern>): (k: nat)
    ensures k <= |pats|
    ensures forall j :: 0 <= j < k ==> !Matches(url, pats[j])
    ensures k < |pats| ==> Matches(url, pats[k])
  {
    if |pats| == 0 then 0
    else if Matches(url, pats[0]) then 0
    else 1 + FirstMatch(url, pats[1..])
  }

  /** Some entry of the pattern table matches exactly when the URL is suspicious. */
  lemma PatternTableIsSuspicious(u: string)
    ensures (exists j :: 0 <= j < |SuspiciousPatterns| && Matches(u, SuspiciousPatterns[j]))
        <==> Suspicious(u)
  {
    if exists j :: 0 <= j < |SuspiciousPatterns| && Matches(u, SuspiciousPatterns[j]) {
      var j :| 0 <= j < |SuspiciousPatterns| && Matches(u, SuspiciousPatterns[j]);
      MatchedEntryIsSuspicious(u, j);
    }
    if Suspicious(u) {
      SuspiciousMatchesEntry(u);
    }
  }

  /** A URL some table entry matches is suspicious. */
  lemma MatchedEntryIsSuspicious(u: string, j: nat)
    requires j < |SuspiciousPatterns| && Matches(u, SuspiciousPatterns[j])
    ensures Suspicious(u)
  {
    var t := SuspiciousPatterns;
    if j == 0 {
      assert t[0] == Suffix(".bak");
    } else if j == 1 {
      assert t[1] == Suffix(".old");
    } else if j == 2 {
      assert t[2] == Infix("nice ports");
    } else if j == 3 {
      assert t[3] == Infix("trinity");
    } else if j == 4 {
      assert t[4] == Infix(".git");
    } else if j == 5 {
      assert t[5] == Infix(".env");
    } else if j == 6 {
      assert t[6] == Infix("wp-admin");
    } else {
      assert t[7] == Infix("phpmyadmin");
    }
  }

  /** A suspicious URL is matched by some table entry. */
  lemma SuspiciousMatchesEntry(u: string)
    requires Suspicious(u)
    ensures exists j :: 0 <= j < |SuspiciousPatterns| && Matches(u, SuspiciousPatterns[j])
  {
    var t := SuspiciousPatterns;
    if OccursAtIgnoringCase(u, ".bak", |u| - 4) {
      assert t[0] == Suffix(".bak");
      assert Matches(u, t[0]);
    } else if OccursAtIgnoringCase(u, ".old", |u| - 4) {
      assert t[1] == Suffix(".old");
      assert Matches(u, t[1]);
    } else if exists i :: OccursAtIgnoringCase(u, "nice ports", i) {
      assert t[2] == Infix("nice ports");
      assert Matches(u, t[2]);
    } else if exists i :: OccursAtIgnoringCase(u, "trinity", i) {
      assert t[3] == Infix("trinity");
      assert Matches(u, t[3]);
    } else if exists i :: OccursAtIgnoringCase(u, ".git", i) {
      assert t[4] == Infix(".git");
      assert Matches(u, t[4]);
    } else if exists i :: OccursAtIgnoringCase(u, ".env", i) {
      assert t[5] == Infix(".env");
      assert Matches(u, t[5]);
    } else if exists i :: OccursAtIgnoringCase(u, "wp-admin", i) {
      assert t[6] == Infix("wp-admin");
      assert Matches(u, t[6]);
    } else {
      assert t[7] == Infix("phpmyadmin");
      assert Matches(u, t[7]);
    }
  }

  /** What a guard did: its step and the warnings it logged (`console.warn`). */
  datatype GuardEffect = GuardEffect(step: Step, warnings: seq<string>)

  /**
   * The suspicious-path guard, given `decodeURIComponent` as `decode`
   * (`None` where it throws a `URIError`).
   */
  function PathGuard(decode: string -> Option<string>, r: Request): (e: GuardEffect)
    ensures decode(r.originalUrl).None? ==> e == GuardEffect(Raise(MalformedUri), [])
    ensures decode(r.originalUrl).Some? ==>
      var u := decode(r.originalUrl).value;
      && (Suspicious(u) ==> e == GuardEffect(Answer(AccessDenied), ["try suspect: " + u]))
      && (!Suspicious(u) ==> e == GuardEffect(Next, []))
  {
    match decode(r.originalUrl)
    case None => GuardEffect(Raise(MalformedUri), [])
    case Some(u) =>
      var k := FirstMatch(u, SuspiciousPatterns);
      PatternTableIsSuspicious(u);
      if k < |SuspiciousPatterns| then
        GuardEffect(Answer(AccessDenied), ["try suspect: " + u])
      else
        GuardEffect(Next, [])
  }

  // ----- Consequences -----

  /** Without referer and origin headers the origin guard passes the request on. */
  lemma MissingOriginHeadersPass(r: Request)
    requires "referer" !in r.headers && "origin" !in r.headers
    ensures OriginGuard(r) == Next
  {
    assert !OccursAt("", "https://bypass.city/", 0);
  }

  /** The origin test is case-sensitive: an upper-cased domain is not refused. */
  lemma OriginTestIsCaseSensitive()
    ensures OriginGuard(Request("/", map["referer" := "HTTPS://BYPASS.CITY/"])) == Next
  {
    var r := Request("/", map["referer" := "HTTPS://BYPASS.CITY/"]);
    assert Header(r, "referer") == "HTTPS://BYPASS.CITY/";
    assert !OccursAt("HTTPS://BYPASS.CITY/", "https://bypass.city/", 0) by {
      assert "HTTPS://BYPASS.CITY/"[0] != "https://bypass.city/"[0];
    }
  }

  /** Without a user-agent header the bot guard passes the request on. */
  lemma MissingUserAgentPasses(r: Request)
    requires "user-agent" !in r.headers
    ensures BotGuard(r) == Next
  {
  }

  /** The bot test ignores case: a crawler announcing itself as `Googlebot` is refused. */
  lemma CrawlerRefused(r: Request)
    requires Header(r, "user-agent") == "Mozilla/5.0 (compatible; GoogleBot/2.1)"
    ensures BotGuard(r) == Answer(Forbidden)
  {
    assert OccursAtIgnoringCase(Header(r, "user-agent"), "bot", 31);
  }

  /** `/nice%20ports` is refused: the pattern matches the space decoding produces. */
  lemma NicePortsProbeRefused(decode: string -> Option<string>, h: map<string, string>)
    requires decode("/nice%20ports") == Some("/nice ports")
    ensures PathGuard(decode, Request("/nice%20ports", h)) ==
      GuardEffect(Answer(AccessDenied), ["try suspect: " + "/nice ports"])
  {
    assert OccursAtIgnoringCase("/nice ports", "nice ports", 1) by {
      assert "/nice ports"[1..] == "nice ports";
    }
  }

  /** Upper case does not hide an environment file: `/.ENV` is refused. */
  lemma EnvFileRefused(decode: string -> Option<string>, h: map<string, string>)
    requires decode("/.ENV") == Some("/.ENV")
    ensures PathGuard(decode, Request("/.ENV", h)).step == Answer(AccessDenied)
  {
    assert OccursAtIgnoringCase("/.ENV", ".env", 1);
  }

  /**
   * A pattern whose first character appears in `u` at most at position `j`,
   * and does not occur there, occurs nowhere in `u`.
   */
  lemma OnlyCandidate(u: string, p: string, j: int)
    requires 0 < |p|
    requires forall i :: 0 <= i < |u| && Lower(u[i]) == Lower(p[0]) ==> i == j
    requires !OccursAtIgnoringCase(u, p, j)
    ensures forall i :: !OccursAtIgnoringCase(u, p, i)
  {
    forall i | 0 <= i && i + |p| <= |u| && i != j
      ensures !OccursAtIgnoringCase(u, p, i)
    {
      assert Lower(u[i + 0]) != Lower(p[0]);
    }
  }

  /** `/db.bak?v=1` does not end with `.bak` or `.old`: the query string follows. */
  lemma BackupBeforeQueryNoSuffix()
    ensures var u := "/db.bak?v=1";
      !OccursAtIgnoringCase(u, ".bak", |u| - 4) && !OccursAtIgnoringCase(u, ".old", |u| - 4)
  {
    var u := "/db.bak?v=1";
    assert Lower(u[|u| - 4]) == '?';
    assert !OccursAtIgnoringCase(u, ".bak", |u| - 4) by {
      assert Lower(".bak"[0]) == '.';
    }
    assert !OccursAtIgnoringCase(u, ".old", |u| - 4) by {
      assert Lower(".old"[0]) == '.';
    }
  }

  /** `/db.bak?v=1` contains none of the six probe fragments. */
  lemma BackupBeforeQueryNoFragment()
    ensures var u := "/db.bak?v=1";
      && (forall i :: !OccursAtIgnoringCase(u, "nice ports", i))
      && (forall i :: !OccursAtIgnoringCase(u, "trinity", i))
      && (forall i :: !OccursAtIgnoringCase(u, "wp-admin", i))
      && (forall i :: !OccursAtIgnoringCase(u, "phpmyadmin", i))
      && (forall i :: !OccursAtIgnoringCase(u, ".git", i))
      && (forall i :: !OccursAtIgnoringCase(u, ".env", i))
  {
    var u := "/db.bak?v=1";
    OnlyCandidate(u, "nice ports", -1);
    OnlyCandidate(u, "trinity", -1);
    OnlyCandidate(u, "wp-admin", -1);
    OnlyCandidate(u, "phpmyadmin", -1);
    assert Lower(u[4]) == 'b';
    assert !OccursAtIgnoringCase(u, ".git", 3) by {
      assert Lower(".git"[1]) == 'g';
    }
    assert !OccursAtIgnoringCase(u, ".env", 3) by {
      assert Lower(".env"[1]) == 'e';
    }
    OnlyCandidate(u, ".git", 3);
    OnlyCandidate(u, ".env", 3);
  }

  /** The backup-file suffixes are matched against the whole URL, so a query string after `.bak` hides it. */
  lemma BackupSuffixBeforeQueryPasses(decode: string -> Option<string>, h: map<string, string>)
    requires decode("/db.bak?v=1") == Some("/db.bak?v=1")
    ensures PathGuard(decode, Request("/db.bak?v=1", h)) == GuardEffect(Next, [])
  {
    BackupBeforeQueryNoSuffix();
    BackupBeforeQueryNoFragment();
  }

  /** A URL `decodeURIComponent` rejects neither passes nor is refused: the guard raises. */
  lemma MalformedEncodingRaises(decode: string -> Option<string>, r: Request)
    requires decode(r.originalUrl) == None
    ensures PathGuard(decode, r).step == Raise(MalformedUri)
    ensures PathGuard(decode, r).warnings == []
  {
  }
}
