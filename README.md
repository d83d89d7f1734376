# Shopware storefront router and currency rule, in Dafny

This project models the request router of the Shopware platform (`src/Framework/Routing/Router.php`)
and the cart rule that matches the active currency (`src/CartBridge/Rule/CurrencyRule.php`).

The router works in two directions.

- **Inbound** (`matchRequest`, `match`):
  - It finds the shop (the tenant) for a request. A shop already stored on the master request is reused; otherwise the shop finder is asked.
  - It picks the active currency through a fixed cascade.
  - It records the shop on the master request, and the shop, currency and locale uuids as request attributes.
  - It strips the shop prefix from the request path, ignoring letter case, and normalises the path to `/x/y` form.
  - It resolves an SEO path to its technical path, flagging a redirect when the SEO record is not canonical.
  - It hands the final path to the matcher.
- **Outbound** (`generate`, `assemble`):
  - It generates a URL.
  - For an SEO-enabled route on a shop context, it looks up the SEO path of the generated path and substitutes it into the URL.
  - `assemble` joins a relative path onto the homepage URL with exactly one `/`.
- **Around both:**
  - `getRouteCollection` reads the route table from the cache or builds it, and always writes it back.
  - `loadRoutes` collects the routes of the resource and of every bundle's `Controller` directory.

Layout:

- `wrappers.dfy`: `Option` and `Result`.
- `php_strings.dfy`: the PHP string functions the router uses, each with a lemma stating what it computes:
  - `rtrim`, `ltrim` and `trim` with `'/'`;
  - the `'/' . trim($p, '/')` normal form;
  - the case-insensitive prefix removal of the `preg_replace` at line 238;
  - `str_replace`;
  - PHP truthiness of strings.
- `routes.dfy`: routes, the route collection and `addCollection`.
- `routing.dfy`: the router's decision logic as pure functions over views of its state, and the properties proved about them.
- `router.dfy`: the classes and their methods. `Router` holds:
  - the in-memory route table;
  - a ghost count of route loads;
  - the cache pool;
  - the mutable `RequestContext`.

  `Request` objects carry mutable attributes. Each method is proved against the functions of `routing.dfy`.
- `currency_rule.dfy`: the currency rule as values.
  - The datatype constructor `CurrencyRule(ids)` is PHP's `__construct`: it keeps the list as given.
  - `Match` is a pure function, so the rule is never changed by matching.

Foreign collaborators become fields of the `Collaborators` value. Each is an arbitrary function, so every property holds for every behaviour of them:

- the Symfony `UrlGenerator` and `UrlMatcher`;
- the shop finder;
- the SEO URL resolver (`getPathInfo` and `getUrl`);
- the routing loader;
- `file_exists`.

The cache pool is a class holding a map.

Choices where the source leaves room:

- **Collision policy of `addCollection`.** The chosen policy is Symfony's: a route added later replaces an earlier route of the same name and moves to the end. Collisions are decided by `Routes.AddCollection`.
- **Cache hit.** A cached `RouteCollection` is an object, so PHP treats it as true even when it holds no route. The model therefore uses a cached table whenever one is present, even an empty one. This follows the code, not a reading of the cache as "a non-empty table".
- **Null route.** In `generate`, an unknown route name on a shop context dereferences null (line 171). The model returns `Failure(NullRoute(name))`.
- **Empty request stack.** `getMasterRequest()` returns null for an empty stack (line 211), and line 213 reads its attributes before anything changes; `matchRequest` then returns `Failure(NullMasterRequest)` and changes nothing. This is checked before the context.
- **Null context.** The constructor accepts a null context (line 99). `match` dereferences it at line 200 and `matchRequest` at line 219, before any state changes; the model returns `Failure(NullContext)` and changes nothing.
- **Null redirect.** In `matchRequest`, a non-canonical record whose redirect URL the resolver cannot find dereferences null (lines 256-257). The model returns `Failure(NullRedirectUrl)`. The `seo_redirect_url` attribute is not set on that path, and the route table is not touched.
- **Unknown route off the shop branch.** Symfony's generator throws `RouteNotFoundException` for an unknown name; the model returns `Failure(RouteNotFound(name))`.
- **`Request::get`.** Symfony's precedence is modelled: attributes, then query, then body.
- **`router_shop`.** The `router_shop` attribute of the master request is a field of its own, `Request.routerShop`, since it is the only attribute that holds a shop.

Where each step of the source is defined:

- `generate` (lines 150-194): `Routing.OutboundUrl`, whose SEO branch is `Routing.SeoSubstituted` with the key `Routing.SeoLookupKeyAsWritten` (lines 176-178).
- The prefix strip of `matchRequest` (lines 237-239): `Routing.InboundPath`.
- The SEO resolution of `matchRequest` (lines 248-258): `Routing.ResolveSeo`.
- `getCurrencyUuid` (lines 276-291): `Routing.CurrencyUuid`, with `Request::get` as `Routing.Param`.
- `addCollection` (lines 298-310): `Routes.AddCollection`.
- `str_replace` (lines 177 and 190): `PhpStrings.ReplaceAll`.

The table lists the lemmas and methods that state what these functions compute.

## Model

| member | source | states |
|---|---|---|
| PhpStrings.RTrimSlashSpec | src/Framework/Routing/Router.php:320 | `rtrim($s, '/')` is the prefix of `s` that does not end in `/`; everything it drops is `/` |
| PhpStrings.LTrimSlashSpec | src/Framework/Routing/Router.php:273 | `ltrim($s, '/')` is the suffix of `s` that does not start with `/`; everything it drops is `/` |
| PhpStrings.RTrimSlashSplit | src/Framework/Routing/Router.php:320 | `s` is `rtrim($s, '/')` followed by a run of slashes |
| PhpStrings.LTrimSlashSplit | src/Framework/Routing/Router.php:273 | `s` is a run of slashes followed by `ltrim($s, '/')` |
| PhpStrings.TrimSlashSpec | src/Framework/Routing/Router.php:178 | `trim($s, '/')` is empty or neither starts nor ends with `/` |
| PhpStrings.TrimSlashOnlyRemovesSlashes | src/Framework/Routing/Router.php:178 | `s` is `trim($s, '/')` with only slashes added on either side, the trailing ones being those `rtrim` removes |
| PhpStrings.NormalizePathSpec | src/Framework/Routing/Router.php:198 | `'/' . trim($p, '/')` starts with exactly one `/` and has no trailing `/` unless it is `/`; after the `/` comes the trimmed input |
| PhpStrings.NormalizeIdempotent | src/Framework/Routing/Router.php:239 | normalising twice equals normalising once |
| PhpStrings.NormalizeFixpoints | src/Framework/Routing/Router.php:198 | a path is left unchanged by normalisation if and only if it is already in normal form |
| PhpStrings.NormalPathFixed | src/Framework/Routing/Router.php:178 | a path in normal form is left unchanged by normalisation |
| PhpStrings.NormalizeIgnoresOuterSlashes | src/Framework/Routing/Router.php:198 | any number of leading and trailing slashes does not change the normalised path |
| PhpStrings.NormalizeLeadingSlash | src/Framework/Routing/Router.php:239 | normalising `/p` gives the same as normalising `p` |
| PhpStrings.StripPrefixSpec | src/Framework/Routing/Router.php:238 | the anchored case-insensitive removal drops exactly the prefix's length when the input starts with the prefix in any ASCII case, and nothing otherwise |
| PhpStrings.StripPrefixRoundTrip | src/Framework/Routing/Router.php:238 | the prefix in any letter case followed by `p` strips to exactly `p` |
| PhpStrings.ReplaceAllAbsent | src/Framework/Routing/Router.php:190 | `str_replace` leaves a string with no occurrence of the search string unchanged |
| PhpStrings.ReplaceAllSelf | src/Framework/Routing/Router.php:190 | replacing a string by itself leaves every subject unchanged |
| PhpStrings.ReplaceAllOneCharSplit | src/Framework/Routing/Router.php:177 | replacing a one-character search distributes over concatenation |
| Routes.Get | src/Framework/Routing/Router.php:170 | `RouteCollection::get` finds a route exactly when one has the name, and the route found has that name and is in the collection |
| Routes.Without | src/Framework/Routing/Router.php:298-300 | keeps exactly the routes whose names are not removed, and keeps names unique |
| Routes.AddCollectionContents | src/Framework/Routing/Router.php:298-300 | the names after `addCollection` are the union of both collections' names; a route is kept if it is added, or was present and not overridden |
| Routes.LastWins | src/Framework/Routing/Router.php:308-310 | after `addCollection`, a name in the added collection looks up the added route, and any other name looks up as before |
| Routes.AddAllLookup | src/Framework/Routing/Router.php:303-311 | after adding several collections in order, a name looks up the route of the last collection to define it, else the starting collection's route |
| Routing.BasePrefixSpec | src/Framework/Routing/Router.php:319-320 | the shop prefix ends in exactly one `/`, and is `baseUrl` (when non-null) or `basePath` with its trailing slashes collapsed to that one |
| Routing.ContextBaseUrlDropsFinalSlash | src/Framework/Routing/Router.php:323 | the base URL stored in the context is the shop prefix without its final `/` |
| Routing.CurrencyUuidOrigin | src/Framework/Routing/Router.php:276-291 | the chosen currency is the fallback or a value the request itself carries |
| Routing.PostedCurrencyWins | src/Framework/Routing/Router.php:278-280 | on POST, a truthy `__currency` parameter wins over everything else |
| Routing.FalsyPostedCurrencyFallsThrough | src/Framework/Routing/Router.php:278 | a posted `__currency` of `""` or `"0"` is falsy and falls through to the cookie |
| Routing.CookieCurrencyWins | src/Framework/Routing/Router.php:282-284 | failing that, a present `currency` cookie wins, even an empty one |
| Routing.AttributeCurrencyWins | src/Framework/Routing/Router.php:286-288 | failing that, an existing `_currency_uuid` attribute wins |
| Routing.FallbackCurrency | src/Framework/Routing/Router.php:290 | otherwise the shop's currency is used |
| Routing.NonPostIgnoresParameters | src/Framework/Routing/Router.php:278 | on a non-POST request, the query and body parameters never affect the currency |
| Routing.StoredShopReused | src/Framework/Routing/Router.php:213-217 | a shop already on the master request is used, whatever the shop finder would answer |
| Routing.InboundPathRoundTrip | src/Framework/Routing/Router.php:237-239 | a request path made of the shop prefix, in any letter case, followed by `p` is matched as the normalised `p` |
| Routing.InboundPathOutsidePrefix | src/Framework/Routing/Router.php:238 | a request path that does not start with the shop prefix is only normalised |
| Routing.ShopRootWithoutSlashIsNotStripped | src/Framework/Routing/Router.php:237-239 | for every shop whose prefix is `q/`, a request path equal to `q` (the shop root without its trailing slash) is not stripped, only normalised |
| Routing.RedirectIffNonCanonical | src/Framework/Routing/Router.php:250-258 | a redirect is flagged if and only if an SEO record exists and is not canonical |
| Routing.MatchPathOfRecord | src/Framework/Routing/Router.php:254 | the path matched is the record's path info when a record exists, else the stripped path |
| Routing.RedirectTarget | src/Framework/Routing/Router.php:255-257 | the redirect target is the SEO path the resolver gives for the record's path info |
| Routing.ShopAttributesContents | src/Framework/Routing/Router.php:229-231 | the request gains `_shop_uuid`, `_currency_uuid` and `_locale_uuid` with the shop's uuids and the chosen currency; every other attribute keeps its value |
| Routing.SeoLookupKeyAsWritten | src/Framework/Routing/Router.php:177-178 | the key as the source computes it, with every occurrence of the prefix removed by `str_replace`, is in normal form |
| Routing.SeoLookupKey | src/Framework/Routing/Router.php:177-178 | the corrected key, with the prefix removed once at the start ignoring case as line 238 does, is in normal form |
| Routing.SeoLookupKeyAsWrittenDropsSlashes | src/Framework/Routing/Router.php:177 | for the root shop (prefix `/`), `str_replace` turns the generated path `/a/b` into the key `/ab`, while the start-only removal gives `/a/b` |
| Routing.SeoLookupKeyRoundTrip | src/Framework/Routing/Router.php:177-178 | the shop prefix followed by `p` gives the key `'/' . trim(p, '/')` |
| Routing.SeoLookupKeyAsWrittenAgrees | src/Framework/Routing/Router.php:177 | the source's key equals the corrected key, the normal path of the rest, whenever the path starts with the prefix in its own case and the prefix does not occur again after it |
| Routing.SubstituteSeoPath | src/Framework/Routing/Router.php:180-193 | the SEO branch's URL never ends in `/`, whether or not the resolver has a record for the key |
| Routing.OutboundWithoutShopIsPlain | src/Framework/Routing/Router.php:158-165 | without a context or a `shop` parameter, `generate` is the plain generator output and leaves the context alone |
| Routing.OutboundNonSeoRouteIsPlain | src/Framework/Routing/Router.php:170-173 | for a route whose `seo` option is not strictly `true`, `generate` is the plain generator output under the rewritten base URL |
| Routing.OutboundIgnoresResolverOffSeoBranch | src/Framework/Routing/Router.php:158-173 | off the SEO branch, the `getUrl` resolver cannot affect the result |
| Routing.OutboundSeoRoute | src/Framework/Routing/Router.php:175-193 | for an SEO route, the key is the generated path with every occurrence of the prefix removed and normalised; the URL has the record's SEO path substituted for that key, or is left plain without a record, and is right-trimmed of `/` either way |
| Routing.OutboundSeoRouteIntended | src/Framework/Routing/Router.php:175-193 | with the corrected key, a generated path made of the prefix in any case and `p` is looked up as the normalised `p`, the path `matchRequest` matches for the same URL |
| Routing.OutboundAgreesWithIntended | src/Framework/Routing/Router.php:175-193 | when the prefix occurs only at the start of the generated path, `generate` as written gives the corrected URL |
| Routing.OutboundAsWrittenMissesRecord | src/Framework/Routing/Router.php:176-190 | for the root shop and the generated path `/a/b`, `generate` asks the resolver for `/ab` and returns the plain URL, while the corrected key finds the record for `/a/b` and substitutes it |
| Routing.OutboundUnknownRoute | src/Framework/Routing/Router.php:170-171 | an unknown route fails: as not found without a shop, and as a null route on a shop context |
| Routing.JoinIgnoresSlashes | src/Framework/Routing/Router.php:273 | any number of slashes at the end of the base or the start of the path gives the same join |
| Routing.JoinClean | src/Framework/Routing/Router.php:273 | joining a base without a trailing `/` and a path without a leading `/` inserts one `/` |
| Routing.JoinHasOneSlash | src/Framework/Routing/Router.php:273 | the join holds exactly one `/` between the trimmed base and the trimmed path |
| Routing.LoadedRoutesResourceFirst | src/Framework/Routing/Router.php:297-301 | when the resource exists, its routes come first and the bundles' collections follow |
| Routing.LoadedRoutesMissingResource | src/Framework/Routing/Router.php:295-301 | a missing resource contributes nothing and is not an error |
| Routing.BundleWithoutControllerSkipped | src/Framework/Routing/Router.php:304-306 | a bundle without a `Controller` directory is skipped, as if it were not there |
| Routing.NothingToLoad | src/Framework/Routing/Router.php:293-314 | with no resource and no controller directory, the table is empty |
| Routing.LoadedRoutesLookup | src/Framework/Routing/Router.php:303-311 | a name looks up the route of the last source to define it |
| Router.CachePool.GetItem | src/Framework/Routing/Router.php:134-136 | a cache read gives the stored table, or null on a miss |
| Router.CachePool.Save | src/Framework/Routing/Router.php:144-145 | saving stores the table under its key and changes no other key |
| Router.Router.SetContext | src/Framework/Routing/Router.php:119-122 | the context is replaced and the route table is not touched |
| Router.Router.GetRouteCollection | src/Framework/Routing/Router.php:132-148 | the table is the cached one, else the in-memory one, else a fresh load; it is stored in memory and in the cache, and a load happens only when neither held a table |
| Router.Router.GetRouteCollectionTwice | src/Framework/Routing/Router.php:132-148 | two calls in a row return the same table and load at most once |
| Router.Router.LoadRoutes | src/Framework/Routing/Router.php:293-314 | the loop builds exactly the resource's collection followed by each bundle's controllers, in bundle order |
| Router.Router.RewriteBaseUrl | src/Framework/Routing/Router.php:316-326 | it returns the shop prefix and sets the context base URL to the prefix without its final `/`, changing nothing else in the context |
| Router.Router.GetCurrencyUuid | src/Framework/Routing/Router.php:276-291 | the currency is the one the cascade chooses for the context's method and the request |
| Router.Router.Generate | src/Framework/Routing/Router.php:150-194 | the result is `generate` as written (the `str_replace` key of line 177) for the table and context at the call; the context's base URL is rewritten exactly when there is a shop; the table is refreshed |
| Router.Router.GenerateForShop | src/Framework/Routing/Router.php:167-193 | on a shop context, the result is `generate` as written for the table; the base URL is rewritten; the second `getRouteCollection` leaves the table, the cache and the load count as they were |
| Router.Router.SeoUrlFor | src/Framework/Routing/Router.php:175-193 | the SEO branch under the rewritten context removes every occurrence of the prefix, normalises, substitutes the record's SEO path and drops trailing `/` |
| Router.Router.Match | src/Framework/Routing/Router.php:196-207 | the normalised path is stored as the context's path info and matched against the refreshed table; a null context fails with `NullContext` and reads no table |
| Router.Router.MatchRequest | src/Framework/Routing/Router.php:209-261 | without a shop, the context's normalised path is matched and no attribute changes; with a shop, the shop and the three uuids are recorded, the base URL is rewritten, `seo_redirect_url` is set exactly for a non-canonical record, and the record's path info or the stripped path is matched; an empty request stack fails with `NullMasterRequest` and a null context with `NullContext`, each changing nothing |
| Router.Router.FindShop | src/Framework/Routing/Router.php:211-217 | the shop stored on the master request, else the shop finder's answer |
| Router.Router.MatchShopRequest | src/Framework/Routing/Router.php:225-260 | once a shop is known, its effects on the master request, the request attributes, the context and the result are those of the shop branch |
| Router.Router.EnterShop | src/Framework/Routing/Router.php:225-239 | the shop is stored on the master request, the request gains the shop's attributes, the context base URL is rewritten, and the path returned is the request path with the shop prefix stripped and normalised |
| Router.Router.StripShopPrefix | src/Framework/Routing/Router.php:234-239 | the matched path is the request path with the shop prefix stripped and normalised, and the context base URL is rewritten |
| Router.Router.RecordShop | src/Framework/Routing/Router.php:226-231 | the shop is stored on the master request and the shop, currency and locale uuids on the request |
| Router.Router.MatchSeo | src/Framework/Routing/Router.php:247-260 | the record's path or the given path is matched, and `seo_redirect_url` is set exactly for a non-canonical record |
| Router.Router.Assemble | src/Framework/Routing/Router.php:263-274 | the homepage's absolute URL and the path are joined by exactly one `/` |
| CurrencyRules.InArrayStrict | src/CartBridge/Rule/CurrencyRule.php:54 | strict `in_array` holds if and only if an identical element is in the list |
| CurrencyRules.Match | src/CartBridge/Rule/CurrencyRule.php:48-57 | the rule matches if and only if the context currency's uuid is among the ids; the messages are always exactly `['Currency not matched']` |
| CurrencyRules.EmptyNeverMatches | src/CartBridge/Rule/CurrencyRule.php:54 | with no ids, the rule never matches |
| CurrencyRules.OnlyMembershipMatters | src/CartBridge/Rule/CurrencyRule.php:54 | lists with the same elements give the same verdict, whatever their order or duplicates |
| CurrencyRules.IntegerIdsNeverMatch | src/CartBridge/Rule/CurrencyRule.php:54 | the comparison is strict: integer ids never match a currency uuid, which is a string |
| CurrencyRules.AddingIdKeepsMatch | src/CartBridge/Rule/CurrencyRule.php:54 | adding an id keeps a match, and adding the context's own uuid makes one |

## Left out

- The logger, `$request->setLocale` (line 232) and the kernel's bundle discovery (the constructor receives the bundle list).
- How `TranslationContext` is built (lines 183 and 241-245): the resolver is handed a `LocaleContext` made from the shop's fields.
- The internals of Symfony's `UrlGenerator` and `UrlMatcher`. They are arbitrary functions of the table, the name or path, the parameters, the reference type and the context.
- The `TypeError` the `UrlGenerator` constructor would raise for a null context: the generator takes an optional context.
- The regular-expression meaning of the unescaped prefix in the `preg_replace` at line 238. The model removes the prefix literally, at the start only, ignoring ASCII letter case.
- Concurrent access to the cache pool: the model is sequential.
- Router.Router.FindShop: takes the master request as a non-null `Request`, as `$master` at line 211, and requires a non-null context; `Router.Router.MatchRequest` checks both, with the failures above, before calling it.
- Router.Router.GetCurrencyUuid, Router.Router.RewriteBaseUrl, Router.Router.MatchShopRequest and the methods it calls require a non-null context, and MatchShopRequest, EnterShop and RecordShop take the non-null master request: the router reaches them only after it has checked or dereferenced both.
- `CurrencyRules.Match`: the cart and the struct collection it receives are ignored by the source and are not parameters of the model.
- `src/Storefront/Navigation/NavigationLoader.php` is not part of this model: it only forwards to repository reads and a tree builder whose code is not available.

## Findings

| source | as written | input that shows it | evidently intended | confidence | as-written member | corrected member |
|---|---|---|---|---|---|---|
| src/Framework/Routing/Router.php:177 | `generate` removes the shop prefix from the generated path with `str_replace`, which removes every occurrence, not only the leading one | a shop with no base URL and an empty base path has the prefix `/`; the generated path `/product/42` then becomes the lookup key `/product42`, while `matchRequest` (line 238) strips only the leading prefix and looks up `/product/42` | remove the prefix at the start only, as `matchRequest` does, so that both directions use the same key | not executed; high for the root shop, and any prefix that recurs inside a path is affected the same way | Routing.OutboundAsWrittenMissesRecord | Routing.OutboundSeoRouteIntended |

`Router.Router.Generate` and `Routing.OutboundUrl` model the code as written, with the key `Routing.SeoLookupKeyAsWritten`; `Routing.SeoLookupKeyAsWrittenDropsSlashes` exhibits the lost slashes on the key itself. `Routing.OutboundUrlIntended` is the corrected `generate`, with the key `Routing.SeoLookupKey`. `Routing.OutboundSeoRouteIntended` and `Routing.InboundPathRoundTrip` together show that the corrected key is the path `matchRequest` matches for the same URL, and `Routing.OutboundAgreesWithIntended` shows that the two agree whenever the prefix occurs only at the start.
