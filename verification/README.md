# Request admission chain of the content service

`index.js` builds one Express application and registers, in order, a chain
of middleware and route mounts. Every request walks the chain from the top.
Each stage either answers the request (a 403 from a guard, a refusal from
the API-key check or the rate limiter, or a router that handles it), raises
an error, or hands the request on with `next()`. A request that falls off
the end gets Express's 404.

The model covers the whole chain as registered:

1. the origin/referer blocklist guard;
2. the JSON body parser, with its exemption for `/webhook`;
3. the 25 route mounts, 14 of them behind `checkApiKey`;
4. the rate limiter;
5. the bot user-agent guard;
6. the suspicious-path guard.

The last three are registered after every mount. A request a router
answers therefore never meets them. The model keeps this order exactly
and proves its consequences.

Modules:

- `Wrappers`: `Option`.
- `Text`: ASCII case folding, plus the substring and suffix tests the
  guards use. `Contains`, `EndsWith` and their case-insensitive forms
  are each proved equal to a character-level description of an
  occurrence. `EndsWith` is also proved true exactly when the string is
  some string followed by the suffix.
- `Http`: the request, the context handed down the chain, replies, errors
  and steps.
- `Guards`: the three string guards, as pure functions.
- `Routes`: the mount table, the keyed and public prefix lists, and mount
  matching.
- `Pipeline`: one stage's effect, the short-circuiting runner, and
  composition lemmas.
- `Admission`: the chain of `index.js` and what it guarantees for every
  request.

Library behaviour the chain calls into is a parameter. The `Pipeline.Env`
record holds five functions:

| field | stands for |
|---|---|
| `decode` | `decodeURIComponent`; `None` when it throws |
| `jsonOk` | whether `express.json()` accepts the body |
| `keyOk` | the decision of `checkApiKey` |
| `underLimit` | whether the rate limiter lets the request through |
| `handles` | whether a mounted router answers instead of calling `next()` |

Every property is proved for all choices of these functions.

Mount matching belongs to Express, not to this file. It is modelled as an
assumption about Express 4: the path is the URL up to the first `?` or `#`. A
prefix matches when, after ASCII case folding, it is a prefix of that path
ending at the path's end or before a `/`.

## Behaviour as registered

Three consequences of the order and configuration in `index.js` shape
what the model proves:

- The limiter, the bot guard and the suspicious-path guard are
  registered after all 25 mounts, in that order (index.js:102-139). A
  request a router answers meets none of them
  (`Admission.RoutedSkipsTailGuards`, `Admission.RoutedBotIsServed`).
  This includes `/webhook`: its router answers before the limiter.
- The path guard calls `decodeURIComponent` without a `try`
  (index.js:120). On a URL that cannot be decoded the call throws, and
  the exception goes to Express's error handling instead of a 403. The
  model ends such a run with `Failed(MalformedUri)`
  (`Guards.MalformedEncodingRaises`).
- The limiter's options set a window, a maximum and a message, but no
  status code (index.js:102-106). The model's refusal carries the
  message alone.

## Model

| member | source | states |
|---|---|---|
| Text.Contains | index.js:25 | `includes` is true exactly when the pattern occurs at some position, character for character |
| Text.Lower | index.js:112 | an upper-case ASCII letter becomes the letter of the same rank in the lower-case alphabet, anything else is kept, and no upper-case letter is left |
| Text.Fold | index.js:112-129 | folding keeps the length, leaves no upper-case ASCII letter, and keeps a string without upper-case letters as it is |
| Text.EndsWithMeans | index.js:122-123 | the suffix test is true exactly when the string is some string followed by the pattern |
| Text.ContainsIgnoringCase | index.js:112 | a `/lit/i` test is true exactly when the literal occurs at some position with characters compared after ASCII case folding |
| Text.EndsWithIgnoringCase | index.js:122-123 | a `/lit$/i` test is true exactly when the literal occurs, ignoring ASCII case, at the last possible position |
| Guards.OriginGuard | index.js:20-30 | answers 403 `{message: 'You are blocked'}` exactly when referer or origin contains `https://bypass.city/` case-sensitively, otherwise passes on |
| Guards.MissingOriginHeadersPass | index.js:21-25 | a request with neither referer nor origin is passed on |
| Guards.OriginTestIsCaseSensitive | index.js:25 | an upper-cased `HTTPS://BYPASS.CITY/` referer is not blocked |
| Guards.BotGuard | index.js:110-116 | answers 403 `Forbidden` exactly when the user-agent contains `curl`, `wget`, `bot` or `spider` ignoring ASCII case, otherwise passes on |
| Guards.MissingUserAgentPasses | index.js:111-112 | a request without a user-agent is passed on by the bot guard |
| Guards.CrawlerRefused | index.js:112-113 | a `GoogleBot` user-agent is refused despite the capital letters |
| Guards.FirstMatch | index.js:132-137 | the loop stops at the first pattern that matches: none before it matches, the one it stops at does, and it runs to the end only if none matches |
| Guards.PatternTableIsSuspicious | index.js:121-130 | some entry of the pattern list matches exactly when the URL ends with `.bak`/`.old` or contains one of the six fragments, ignoring ASCII case |
| Guards.PathGuard | index.js:119-139 | raises on a URL that cannot be decoded; on a suspicious decoded URL answers 403 `Access denied.` and logs exactly `try suspect: <decoded url>`; otherwise passes on and logs nothing |
| Guards.NicePortsProbeRefused | index.js:120-135 | `/nice%20ports` is refused because decoding yields the space the pattern needs, and the warning carries the decoded URL |
| Guards.EnvFileRefused | index.js:127-135 | `/.ENV` is refused: the fragment test ignores case |
| Guards.BackupSuffixBeforeQueryPasses | index.js:120-123 | `/db.bak?v=1` passes: the suffix test sees the query string after `.bak` |
| Guards.MalformedEncodingRaises | index.js:120 | when decoding fails the guard neither passes on nor answers 403; it raises and logs nothing |
| Routes.KeyGuardBinding | index.js:75-99 | a mount carries `checkApiKey` exactly when its prefix is one of the 14 keyed prefixes |
| Routes.OpenBinding | index.js:75-99 | a mount lacks `checkApiKey` exactly when its prefix is one of the 9 public prefixes |
| Routes.KeyedPrefixMounted | index.js:80-98 | every keyed prefix is mounted behind `checkApiKey` |
| Routes.OpenPrefixMounted | index.js:75-99 | every public prefix is mounted without `checkApiKey` |
| Routes.PrefixListsDisjoint | index.js:75-99 | no prefix is both keyed and public |
| Routes.RouteIndex | index.js:75-99 | gives, for each router, the table position whose router it is |
| Routes.MountedOnce | index.js:75-99 | each router is mounted at exactly one position |
| Routes.AuthMountedThrice | index.js:76-78 | `/auth` is mounted at positions 1 to 3 and nowhere else, with userRouter, authRoutes and renewVipRouter in that order |
| Routes.PathOf | index.js:75-99 | the path a mount is matched against is the longest prefix of the URL without `?` or `#`: it ends at the first `?`, the first `#`, or the end of the URL |
| Routes.PathStopsAtFragment | index.js:75-99 | a path without `?` or `#` followed by `#` and any fragment is matched on the path alone |
| Routes.FragmentLeftOutOfPath | index.js:80 | `/vipcontent#x` is matched by the `/vipcontent` mount, because the fragment is not part of the path |
| Routes.MountedMeans | index.js:75-99 | a mount matches exactly when the case-folded path is the case-folded prefix followed by nothing or by a part starting with `/` |
| Routes.PrefixShapes | index.js:75-99 | every mounted prefix is `/` followed by lower-case letters and `-`, with an inner `/` only in `/api/stats` and `/admin/requests` |
| Routes.MountedUnderBoth | index.js:75-99 | when a request matches two prefixes, the shorter folded prefix is a run of whole leading segments of the longer one |
| Routes.DistinctPrefixesApart | index.js:75-99 | of two different prefixes of that shape, neither is the other or a run of its leading segments |
| Routes.MountsExclusive | index.js:75-99 | a request matched by one mounted prefix is matched by no different mounted prefix |
| Routes.PrefixPosition | index.js:75-99 | finds the first mount of a prefix: no earlier mount has that prefix, and the one found does |
| Routes.KeyedPrefixPosition | index.js:80-98 | the first mount of each keyed prefix exists and carries `checkApiKey` |
| Pipeline.Eval | index.js:20-139 | which stage can answer with which reply; only the body parser changes the context and only the path guard logs; an unmatched mount passes on; a key refusal or router answer requires a matching mount, and a router answer also requires a valid key on keyed mounts |
| Pipeline.RunChain | index.js:20-139 | the visited stages are a prefix of the chain; a run that falls off the end visited every stage and logged nothing; otherwise the last visited stage produced the final outcome and the run's warnings |
| Pipeline.PassedBeforeLast | index.js:20-139 | every stage a run went past handed the request on |
| Pipeline.RunAppend | index.js:20-139 | running two chains one after the other is running the second only when every stage of the first passed the request on |
| Pipeline.AllPass | index.js:20-139 | when every stage passes the request on, all are visited and the context is unchanged |
| Pipeline.FirstAnswerDecides | index.js:20-139 | the first stage that answers, after stages that all passed on, decides the run and is the last stage visited |
| Pipeline.PassedThenRest | index.js:20-139 | behind stages that all passed the request on, a run ends as the rest of the chain ends on its own, having visited those stages first |
| Pipeline.KeyedMountRun | index.js:80-98 | at a keyed mount the request matches, a missing or invalid key ends the run there with the key refusal, and a valid key lets the router answer if it handles the request |
| Pipeline.WebhookExemption | index.js:66-72 | the body is left unparsed and passed on exactly when `originalUrl` is `/webhook` |
| Pipeline.WebhookLookalikesParsed | index.js:67-71 | `/webhook/` and `/webhook?x=1` go through the JSON parser |
| Pipeline.PathStageRun | index.js:119-139 | the path guard's run: raise, refuse with one warning, or pass |
| Pipeline.BotThenPathRun | index.js:110-139 | the path guard runs only when the bot guard passed the request on |
| Pipeline.LateGuardsRun | index.js:102-116 | with the limiter refusing, the request gets `Ip bloqueado.` and nothing later runs |
| Pipeline.BotGuardAfterLimiter | index.js:107-116 | the bot guard is reached only after the limiter let the request through |
| Pipeline.PathGuardAfterBotGuard | index.js:110-139 | the path guard is reached only after the bot guard let the request through |
| Pipeline.LateGuardsAfter | index.js:101-139 | behind any stages, the bot guard is reached only past the limiter, and the path guard only past a non-bot user-agent |
| Admission.ChainLayout | index.js:20-139 | the chain is origin guard, body parser, the 25 mounts in table order, limiter, bot guard, path guard |
| Admission.Admit | index.js:20-139 | every request meets the origin guard first; one that nothing answered went through the whole chain and logged nothing |
| Admission.MountsAppend | index.js:75-99 | mounting two route lists in turn is mounting their concatenation |
| Admission.OriginDenial | index.js:20-30 | the chain answers `You are blocked` exactly for requests referencing the blocked domain; such a request visits no other stage and logs nothing |
| Admission.GuardThenParser | index.js:20-72 | a request gets past the first two stages exactly when the origin guard passes it and the URL is `/webhook` or its body parses; it is then marked parsed unless the URL is `/webhook` |
| Admission.ServedByMount | index.js:66-99 | a request a router answered stopped at that router's only mount, matched its prefix, carried a valid key if keyed, logged nothing, and every earlier mount passed it on |
| Admission.EarlierMountDeclined | index.js:75-99 | every mount before the answering one was visited and passed the request on |
| Admission.LaterMountUnreached | index.js:75-99 | no mount after the answering one was visited |
| Admission.AuthRoutesAfterUserRouter | index.js:76-77 | authRoutes answers only requests userRouter was offered and declined |
| Admission.RenewVipAfterOtherAuthRouters | index.js:76-78 | renewVipRouter answers only requests both earlier `/auth` routers declined |
| Admission.UserRouterFirstAtAuth | index.js:76-78 | when userRouter answers, authRoutes and renewVipRouter are never reached |
| Admission.KeyGuardedRoutes | index.js:80-98 | a router behind `checkApiKey` answers only valid keys; a key refusal happens only on a keyed prefix the request matched |
| Admission.KeyedPrefixRefusesBadKey | index.js:80-98 | past the body parser, a request under a keyed prefix without a valid key ends with the key refusal, at the first mount of that prefix |
| Admission.KeyedPrefixAdmitsGoodKey | index.js:80-98 | past the body parser, a request under a keyed prefix with a valid key reaches the first mount of that prefix and is served there when its router handles it |
| Admission.KeyedMountFirstReached | index.js:75-98 | past the body parser, a request under a keyed prefix passes every earlier mount, matching none of them, and the chain from that prefix's first mount decides its run |
| Admission.WebhookRawBody | index.js:66-75 | the webhook router sees an unparsed body exactly when the URL is `/webhook` |
| Admission.RoutedSkipsTailGuards | index.js:75-139 | a request a router answered never reaches the limiter, the bot guard or the path guard |
| Admission.TailOutcome | index.js:102-139 | a request no earlier stage answered is refused by the limiter, else by the bot guard, else raises on bad encoding, else is refused with one warning if suspicious, else gets 404 |
| Admission.TailGuardOrder | index.js:107-139 | the bot guard is reached only after the limiter let the request through, and the path guard only after the bot guard did |
| Admission.OneWarningPerDenial | index.js:132-136 | the chain logs only when the path guard refuses, exactly one warning carrying the decoded suspicious URL |
| Admission.LimiterConfig | index.js:102-106 | the limiter's window is 15 min = 900000 ms, its maximum 100 requests, its message `Ip bloqueado.` |
| Admission.PayMount | index.js:81 | the seventh mount is `/pay` with the payment router and no key guard |
| Admission.PayServedAfterParser | index.js:75-81 | past the body parser, a `/pay` request the payment router handles is answered by it |
| Admission.RoutedBotIsServed | index.js:81-116 | a `curl` client asking for `/pay` is served by the payment router; the bot guard, registered later, never sees it |

## Left out

- The rate limiter's internals belong to `express-rate-limit`, which is not part of this model. Window bookkeeping and per-client counting are out. So is the status code of its refusal: the source does not state it, so the reply carries only the configured message. The limiter is the `underLimit` parameter.
- `checkApiKey` is not part of this model. Its decision is the `keyOk` parameter.
- The routers' own handlers are not part of this model. Whether a router answers is the `handles` parameter, and a router that does not answer passes the request on.
- Errors raised inside a router or inside `checkApiKey` are not modelled. In Express such an error (a throw, or `next(err)`) skips the remaining ordinary stages, the limiter and both late guards included. In the model only the body parser and the path guard can raise, so every statement about a keyed or routed request assumes the router and the key check either answer or call `next()`.
- Routes.PathOf: takes the URL as an origin-form target (starting with the path). For an absolute-form target such as `http://host/vipcontent`, Express matches mounts against the part after the host; the model keeps the scheme and host in the path, so no mount matches such a request.
- Express mount matching is library behaviour. The segment-boundary, case-folded prefix match on the path is an assumption, as described above.
- `decodeURIComponent` is the `decode` parameter. No UTF-8 decoding is modelled.
- `express.json()` parsing is the `jsonOk` parameter. Its error becomes `Failed(MalformedJson)`, and no body contents are modelled.
- CORS (index.js:14-17) is left out. It is configuration of the `cors` library, and it answers OPTIONS preflight requests before the chain modelled here. The HTTP method is not modelled at all.
- `trust proxy`: index.js:148's `true` overrides index.js:12's `1`, so Express takes the client address, protocol and host from `X-Forwarded-*` headers. Only the limiter and the key check, both opaque here, could read them, so the setting is left out.
- The `console.log`/`console.error` overrides (index.js:33-34) are left out. Only the one `console.warn` of the path guard is modelled, as the run's warnings.
- The database pool, Sequelize start-up and `listen` (index.js:144 onward) are asynchronous I/O and are left out.
- Strings are sequences of Dafny characters rather than UTF-16 code units. For the ASCII literals of the guards, JavaScript's case-insensitive matching is exactly ASCII case folding: non-ASCII characters never fold onto ASCII ones. So the folding in `Text` is exact for these patterns.
