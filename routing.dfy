/**
 * The decisions the router takes, as functions of its inputs: the shop prefix, the currency
 * cascade, the inbound path and SEO resolution, outbound URL generation with SEO substitution,
 * the homepage join of `assemble`, and the route table built from the route sources.
 * The classes in module Router perform these steps on mutable state and are specified by
 * these functions.
 */
module Routing {
  import opened Wrappers
  import opened PhpStrings
  import opened Routes

  type Params = map<string, string>

  /** The shop (tenant) record found for a request. */
  datatype Shop = Shop(
    uuid: string,
    baseUrl: Option<string>,
    basePath: string,
    localeUuid: string,
    localeCode: string,
    currencyUuid: string,
    isDefault: bool,
    fallbackLocaleUuid: string)

  /** The TranslationContext handed to the SEO URL resolver. */
  datatype LocaleContext = LocaleContext(shopUuid: string, isDefault: bool, fallbackLocaleUuid: string)

  function LocaleOf(shop: Shop): LocaleContext
  {
    LocaleContext(shop.uuid, shop.isDefault, shop.fallbackLocaleUuid)
  }

  /** An SEO URL record: the canonical path info, the SEO path info and the canonical flag. */
  datatype SeoUrl = SeoUrl(pathInfo: string, seoPathInfo: string, isCanonical: bool)

  /** Symfony's reference types for generated URLs. */
  datatype ReferenceType = AbsoluteUrl | AbsolutePath | RelativePath | NetworkPath

  datatype RouterError =
    | RouteNotFound(name: string)   // the URL generator does not know the route name
    | NullRoute(name: string)       // `$route->getOption` called on null for an unknown name
    | NullRedirectUrl               // `$redirectUrl->getSeoPathInfo()` called on null
    | NullContext                   // a method of the RequestContext called on null
    | NullMasterRequest             // the attributes of a null master request read
    | ResourceNotFound(path: string)
    | MethodNotAllowed(path: string)

  /** What the URL generator and matcher see of the router's RequestContext. */
  datatype ContextView = ContextView(
    baseUrl: string, pathInfo: string, httpMethod: string, host: string, shop: Option<Shop>)

  /** What the shop finder and the currency cascade see of a request. */
  datatype RequestView = RequestView(
    attributes: map<string, string>,
    query: map<string, string>,
    body: map<string, string>,
    cookies: map<string, string>,
    baseUrl: string,
    pathInfo: string,
    routerShop: Option<Shop>)

  /** A bundle of the kernel, known by its directory. */
  datatype Bundle = Bundle(path: string)

  /**
   * The collaborators the router calls but does not implement: the file system check, the
   * routing loader, the shop finder, the SEO URL resolver and Symfony's generator and matcher.
   */
  datatype Collaborators = Collaborators(
    fileExists: string -> bool,
    load: string -> RouteCollection,
    importAnnotations: string -> RouteCollection,
    findShop: (ContextView, RequestView) -> Option<Shop>,
    resolvePathInfo: (string, string, LocaleContext) -> Option<SeoUrl>,
    resolveUrl: (string, string, LocaleContext) -> Option<SeoUrl>,
    generator: (RouteCollection, string, Params, ReferenceType, Option<ContextView>) -> string,
    matcher: (RouteCollection, string, ContextView) -> Result<Params, RouterError>)

  // ---------------------------------------------------------------- shop prefix

  /** `$baseUrl ?? $basePath`: the base URL whenever it is not null, even when empty. */
  function BaseSource(baseUrl: Option<string>, basePath: string): string
  {
    if baseUrl.Some? then baseUrl.value else basePath
  }

  /** The prefix rewriteBaseUrl returns: the source with its trailing slashes collapsed to one. */
  function BasePrefix(baseUrl: Option<string>, basePath: string): string
  {
    RTrimSlash(BaseSource(baseUrl, basePath)) + "/"
  }

  /** The prefix ends in exactly one '/' and is the source up to its trailing slashes. */
  lemma BasePrefixSpec(baseUrl: Option<string>, basePath: string)
    ensures var r := BasePrefix(baseUrl, basePath);
            && |r| >= 1 && r[|r| - 1] == '/' && (|r| == 1 || r[|r| - 2] != '/')
            && exists n: nat :: BaseSource(baseUrl, basePath) == r[..|r| - 1] + Slashes(n)
  {
    var src := BaseSource(baseUrl, basePath);
    var t := RTrimSlash(src);
    RTrimSlashSpec(src);
    OnlySlashes(src[|t|..]);
    assert src == t + Slashes(|src| - |t|);
    var r := t + "/";
    assert r[..|r| - 1] == t;
  }

  /** The base URL rewriteBaseUrl stores in the context. */
  function ContextBaseUrl(baseUrl: Option<string>, basePath: string): string
  {
    RTrimSlash(BasePrefix(baseUrl, basePath))
  }

  /** The stored base URL is the returned prefix without its final '/'. */
  lemma ContextBaseUrlDropsFinalSlash(baseUrl: Option<string>, basePath: string)
    ensures var p := BasePrefix(baseUrl, basePath);
            ContextBaseUrl(baseUrl, basePath) == p[..|p| - 1]
  {
    BasePrefixSpec(baseUrl, basePath);
    var p := BasePrefix(baseUrl, basePath);
    var t := p[..|p| - 1];
    assert p == t + Slashes(1);
    RTrimSlashAppended(t, 1);
    RTrimSlashUnique(t, t);
  }

  // ---------------------------------------------------------------- currency

  /** `$request->get($key)`: request attributes first, then the query string, then the body. */
  function Param(req: RequestView, key: string): Option<string>
  {
    if key in req.attributes then Some(req.attributes[key])
    else if key in req.query then Some(req.query[key])
    else if key in req.body then Some(req.body[key])
    else None
  }

  predicate TruthyParam(v: Option<string>)
  {
    v.Some? && Truthy(v.value)
  }

  /** getCurrencyUuid: a truthy POSTed `__currency`, else the `currency` cookie, else the
      `_currency_uuid` attribute, else the fallback. */
  function CurrencyUuid(httpMethod: string, req: RequestView, fallback: string): string
  {
    var posted := Param(req, "__currency");
    if httpMethod == "POST" && TruthyParam(posted) then posted.value
    else if "currency" in req.cookies then req.cookies["currency"]
    else if "_currency_uuid" in req.attributes then req.attributes["_currency_uuid"]
    else fallback
  }

  /** The currency is the fallback or a value the request itself carries. */
  lemma CurrencyUuidOrigin(httpMethod: string, req: RequestView, fallback: string)
    ensures var r := CurrencyUuid(httpMethod, req, fallback);
            r == fallback || r in req.cookies.Values || r in req.attributes.Values
            || r in req.query.Values || r in req.body.Values
  {
  }

  /** A truthy POSTed currency outranks a cookie, an earlier attribute and the fallback. */
  lemma PostedCurrencyWins(req: RequestView, fallback: string)
    requires TruthyParam(Param(req, "__currency"))
    ensures CurrencyUuid("POST", req, fallback) == Param(req, "__currency").value
  {
  }

  /** Otherwise a present cookie wins, even an empty one. */
  lemma CookieCurrencyWins(httpMethod: string, req: RequestView, fallback: string)
    requires httpMethod != "POST" || !TruthyParam(Param(req, "__currency"))
    requires "currency" in req.cookies
    ensures CurrencyUuid(httpMethod, req, fallback) == req.cookies["currency"]
  {
  }

  /** With neither, an attribute left by an earlier dispatch wins over the fallback. */
  lemma AttributeCurrencyWins(httpMethod: string, req: RequestView, fallback: string)
    requires httpMethod != "POST" || !TruthyParam(Param(req, "__currency"))
    requires "currency" !in req.cookies && "_currency_uuid" in req.attributes
    ensures CurrencyUuid(httpMethod, req, fallback) == req.attributes["_currency_uuid"]
  {
  }

  lemma FallbackCurrency(httpMethod: string, req: RequestView, fallback: string)
    requires httpMethod != "POST" || !TruthyParam(Param(req, "__currency"))
    requires "currency" !in req.cookies && "_currency_uuid" !in req.attributes
    ensures CurrencyUuid(httpMethod, req, fallback) == fallback
  {
  }

  /** The posted values "" and "0" are falsy in PHP and fall through to the cookie. */
  lemma FalsyPostedCurrencyFallsThrough(req: RequestView, fallback: string)
    requires Param(req, "__currency") == Some("") || Param(req, "__currency") == Some("0")
    requires "currency" in req.cookies
    ensures CurrencyUuid("POST", req, fallback) == req.cookies["currency"]
  {
  }

  /** Outside POST the query string and the body are never consulted. */
  lemma NonPostIgnoresParameters(httpMethod: string, req: RequestView, query: map<string, string>,
                                 body: map<string, string>, fallback: string)
    requires httpMethod != "POST"
    ensures CurrencyUuid(httpMethod, req, fallback) ==
            CurrencyUuid(httpMethod, req.(query := query, body := body), fallback)
  {
  }

  // ---------------------------------------------------------------- inbound

  /** The shop of a request: the one stored on the master request, else the finder's. */
  function DispatchShop(env: Collaborators, stored: Option<Shop>, ctx: ContextView, req: RequestView): Option<Shop>
  {
    if stored.Some? then stored else env.findShop(ctx, req)
  }

  /** A shop already stored is reused whatever the shop finder would answer. */
  lemma StoredShopReused(env: Collaborators, finder: (ContextView, RequestView) -> Option<Shop>,
                         stored: Option<Shop>, ctx: ContextView, req: RequestView)
    requires stored.Some?
    ensures DispatchShop(env, stored, ctx, req) == stored
    ensures DispatchShop(env.(findShop := finder), stored, ctx, req) == stored
  {
  }

  /** baseUrl + pathInfo with the shop prefix removed, ignoring case, at the start only, normalised. */
  function InboundPath(shop: Shop, baseUrl: string, pathInfo: string): string
  {
    NormalizePath(StripPrefixIgnoringCase(baseUrl + pathInfo, BasePrefix(shop.baseUrl, shop.basePath)))
  }

  /** A request path under the shop prefix, in any letter case, resolves to the rest of it. */
  lemma InboundPathRoundTrip(shop: Shop, req: RequestView, cased: string, p: string)
    requires EqualIgnoringCase(cased, BasePrefix(shop.baseUrl, shop.basePath))
    requires req.baseUrl + req.pathInfo == cased + p
    ensures InboundPath(shop, req.baseUrl, req.pathInfo) == NormalizePath(p)
    ensures IsNormalPath(InboundPath(shop, req.baseUrl, req.pathInfo))
  {
    StripPrefixRoundTrip(cased, BasePrefix(shop.baseUrl, shop.basePath), p);
    NormalizePathSpec(p);
  }

  /** A request path that does not start with the prefix is only normalised. */
  lemma InboundPathOutsidePrefix(shop: Shop, req: RequestView)
    requires !StartsWithIgnoringCase(req.baseUrl + req.pathInfo, BasePrefix(shop.baseUrl, shop.basePath))
    ensures InboundPath(shop, req.baseUrl, req.pathInfo) == NormalizePath(req.baseUrl + req.pathInfo)
  {
  }

  /** The prefix ends in '/', so the shop root requested without that slash (`/en` for the
      prefix `/en/`) is shorter than the prefix and is only normalised, not stripped. */
  lemma ShopRootWithoutSlashIsNotStripped(shop: Shop, req: RequestView)
    requires req.baseUrl + req.pathInfo + "/" == BasePrefix(shop.baseUrl, shop.basePath)
    ensures InboundPath(shop, req.baseUrl, req.pathInfo) == NormalizePath(req.baseUrl + req.pathInfo)
  {
    assert !StartsWithIgnoringCase(req.baseUrl + req.pathInfo, BasePrefix(shop.baseUrl, shop.basePath));
  }

  datatype Redirect = NoRedirect | RedirectTo(url: string) | RedirectUnresolved

  /** The path handed to the matcher and the redirect recorded on the request. */
  datatype SeoResolution = SeoResolution(matchPath: string, redirect: Redirect)

  function ResolveSeo(env: Collaborators, shop: Shop, path: string): SeoResolution
  {
    var locale := LocaleOf(shop);
    match env.resolvePathInfo(shop.uuid, path, locale)
    case None => SeoResolution(path, NoRedirect)
    case Some(record) =>
      if record.isCanonical then SeoResolution(record.pathInfo, NoRedirect)
      else match env.resolveUrl(shop.uuid, record.pathInfo, locale)
        case None => SeoResolution(record.pathInfo, RedirectUnresolved)
        case Some(target) => SeoResolution(record.pathInfo, RedirectTo(target.seoPathInfo))
  }

  /** A redirect is requested exactly when a record is found and it is not canonical. */
  lemma RedirectIffNonCanonical(env: Collaborators, shop: Shop, path: string)
    ensures var record := env.resolvePathInfo(shop.uuid, path, LocaleOf(shop));
            ResolveSeo(env, shop, path).redirect != NoRedirect <==> record.Some? && !record.value.isCanonical
  {
  }

  /** The record's path info is matched whenever there is a record, the request path otherwise. */
  lemma MatchPathOfRecord(env: Collaborators, shop: Shop, path: string)
    ensures var record := env.resolvePathInfo(shop.uuid, path, LocaleOf(shop));
            ResolveSeo(env, shop, path).matchPath == if record.Some? then record.value.pathInfo else path
  {
  }

  /** The redirect target is the SEO path of the record's canonical path info. */
  lemma RedirectTarget(env: Collaborators, shop: Shop, path: string)
    requires var record := env.resolvePathInfo(shop.uuid, path, LocaleOf(shop));
             record.Some? && !record.value.isCanonical &&
             env.resolveUrl(shop.uuid, record.value.pathInfo, LocaleOf(shop)).Some?
    ensures var record := env.resolvePathInfo(shop.uuid, path, LocaleOf(shop));
            ResolveSeo(env, shop, path).redirect ==
            RedirectTo(env.resolveUrl(shop.uuid, record.value.pathInfo, LocaleOf(shop)).value.seoPathInfo)
  {
  }

  /** The request attributes set once a shop is known. */
  function ShopAttributes(attributes: map<string, string>, shop: Shop, currency: string): map<string, string>
  {
    attributes["_shop_uuid" := shop.uuid]["_currency_uuid" := currency]["_locale_uuid" := shop.localeUuid]
  }

  /** The three shop keys are added with the shop's uuids and the currency; every other
      attribute keeps its value. */
  lemma ShopAttributesContents(attributes: map<string, string>, shop: Shop, currency: string)
    ensures var r := ShopAttributes(attributes, shop, currency);
            && r.Keys == attributes.Keys + {"_shop_uuid", "_currency_uuid", "_locale_uuid"}
            && r["_shop_uuid"] == shop.uuid && r["_currency_uuid"] == currency && r["_locale_uuid"] == shop.localeUuid
            && forall k :: k in attributes && k !in {"_shop_uuid", "_currency_uuid", "_locale_uuid"} ==> r[k] == attributes[k]
  {
  }

  // ---------------------------------------------------------------- outbound

  /** Symfony's UrlGenerator: the generated URL, or RouteNotFoundException for an unknown name. */
  function RawUrl(env: Collaborators, table: RouteCollection, name: string, parameters: Params,
                  referenceType: ReferenceType, ctx: Option<ContextView>): Result<string, RouterError>
  {
    if name in Names(table) then Success(env.generator(table, name, parameters, referenceType, ctx))
    else Failure(RouteNotFound(name))
  }

  /** The context after rewriteBaseUrl for the shop. */
  function RewrittenContext(ctx: ContextView, shop: Shop): ContextView
  {
    ctx.(baseUrl := ContextBaseUrl(shop.baseUrl, shop.basePath))
  }

  /** The context generate leaves behind: rewritten when it holds a shop. */
  function ContextAfterGenerate(ctx: Option<ContextView>): Option<ContextView>
  {
    if ctx.Some? && ctx.value.shop.Some? then Some(RewrittenContext(ctx.value, ctx.value.shop.value)) else ctx
  }

  /** The SEO lookup key as the source computes it: str_replace removes EVERY occurrence of the prefix. */
  function SeoLookupKeyAsWritten(generated: string, prefix: string): (r: string)
    ensures IsNormalPath(r)
  {
    var stripped := ReplaceAll(generated, prefix, "");
    NormalizePathSpec(stripped);
    NormalizePath(stripped)
  }

  /** The SEO lookup key with the prefix removed at the start only, as the inbound direction does. */
  function SeoLookupKey(generated: string, prefix: string): (r: string)
    ensures IsNormalPath(r)
  {
    var stripped := StripPrefixIgnoringCase(generated, prefix);
    NormalizePathSpec(stripped);
    NormalizePath(stripped)
  }

  /** For the root shop (prefix "/") the source's key loses every inner slash. */
  lemma SeoLookupKeyAsWrittenDropsSlashes(a: string, b: string)
    requires '/' !in a && '/' !in b && a != [] && b != []
    ensures BasePrefix(None, "") == "/"
    ensures SeoLookupKeyAsWritten("/" + (a + "/" + b), "/") == "/" + (a + b)
    ensures SeoLookupKey("/" + (a + "/" + b), "/") == "/" + (a + "/" + b)
  {
    assert RTrimSlash("") == "";
    AsWrittenKeyOfRoot(a, b);
    KeepInnerSlash(a, b);
  }

  lemma AsWrittenKeyOfRoot(a: string, b: string)
    requires '/' !in a && '/' !in b && a != [] && b != []
    ensures SeoLookupKeyAsWritten("/" + (a + "/" + b), "/") == "/" + (a + b)
  {
    RemoveEverySlash(a, b);
    NormalizeLeadingSlash(a + b);
    SlashedIsNormal(a + b);
    NormalPathFixed("/" + (a + b));
  }

  lemma RemoveEverySlash(a: string, b: string)
    requires '/' !in a && '/' !in b
    ensures ReplaceAll("/" + (a + "/" + b), "/", "") == a + b
  {
    var x := "/" + a + "/";
    assert "/" + (a + "/" + b) == x + b;
    RemoveEnclosingSlashes(a);
    assert ReplaceAll(x + b, "/", "") == ReplaceAll(x, "/", "") + b by {
      ReplaceAllOneCharSplit(x, b, '/', "");
      ReplaceAllNoSlash(b);
    }
  }

  lemma RemoveEnclosingSlashes(a: string)
    requires '/' !in a
    ensures ReplaceAll("/" + a + "/", "/", "") == a
  {
    assert ReplaceAll("/", "/", "") == "";
    assert ReplaceAll("/" + a, "/", "") == a by {
      ReplaceAllOneCharSplit("/", a, '/', "");
      ReplaceAllNoSlash(a);
    }
    ReplaceAllOneCharSplit("/" + a, "/", '/', "");
  }

  /** A non-empty p that neither starts nor ends with '/' gives the normal path "/" + p. */
  lemma SlashedIsNormal(p: string)
    requires p != [] && p[0] != '/' && p[|p| - 1] != '/'
    ensures IsNormalPath("/" + p)
  {
    var g := "/" + p;
    assert g[1] == p[0];
    assert g[|g| - 1] == p[|p| - 1];
  }

  lemma KeepInnerSlash(a: string, b: string)
    requires '/' !in a && '/' !in b && a != [] && b != []
    ensures SeoLookupKey("/" + (a + "/" + b), "/") == "/" + (a + "/" + b)
  {
    var p := a + "/" + b;
    StripPrefixRoundTrip("/", "/", p);
    NormalizeLeadingSlash(p);
    assert p[0] == a[0] && p[|p| - 1] == b[|b| - 1];
    SlashedIsNormal(p);
    NormalPathFixed("/" + p);
  }

  /** The corrected key of a URL under the prefix is the normal path of the rest of it. */
  lemma SeoLookupKeyRoundTrip(prefix: string, p: string)
    ensures SeoLookupKey(prefix + p, prefix) == NormalizePath(p)
  {
    StripPrefixRoundTrip(prefix, prefix, p);
  }

  /** The source's key and the corrected key agree when the generated path starts with the
      prefix, in its own case, and the prefix does not occur again after it. */
  lemma SeoLookupKeyAsWrittenAgrees(prefix: string, rest: string)
    requires forall i :: 0 <= i <= |rest| ==> !OccursAt(rest, prefix, i)
    ensures SeoLookupKeyAsWritten(prefix + rest, prefix) == SeoLookupKey(prefix + rest, prefix)
    ensures SeoLookupKey(prefix + rest, prefix) == NormalizePath(rest)
  {
    var g := prefix + rest;
    SeoLookupKeyRoundTrip(prefix, rest);
    if prefix == [] {
      assert g == rest;
    } else {
      assert g[..|prefix|] == prefix && g[|prefix|..] == rest;
      assert ReplaceAll(g, prefix, "") == ReplaceAll(rest, prefix, "");
      ReplaceAllAbsent(rest, prefix, "");
    }
  }

  /** Look the key up and substitute the record's SEO path for it in the URL; either way the
      URL loses its trailing slashes. */
  function SubstituteSeoPath(env: Collaborators, shop: Shop, key: string, url: string): (r: string)
    ensures r == [] || r[|r| - 1] != '/'
  {
    match env.resolveUrl(shop.uuid, key, LocaleOf(shop))
    case None =>
      RTrimSlashSpec(url);
      RTrimSlash(url)
    case Some(seo) =>
      RTrimSlashSpec(ReplaceAll(url, key, seo.seoPathInfo));
      RTrimSlash(ReplaceAll(url, key, seo.seoPathInfo))
  }

  /** The SEO branch of generate as written: the key is the generated path with every
      occurrence of the shop prefix removed. */
  function SeoSubstituted(env: Collaborators, shop: Shop, pathUrl: string, url: string): string
  {
    SubstituteSeoPath(env, shop, SeoLookupKeyAsWritten(pathUrl, BasePrefix(shop.baseUrl, shop.basePath)), url)
  }

  /** The SEO branch with the corrected key: the prefix removed at the start only. */
  function SeoSubstitutedIntended(env: Collaborators, shop: Shop, pathUrl: string, url: string): string
  {
    SubstituteSeoPath(env, shop, SeoLookupKey(pathUrl, BasePrefix(shop.baseUrl, shop.basePath)), url)
  }

  /** generate, given the route table and the context before the call. */
  function OutboundUrl(env: Collaborators, table: RouteCollection, ctx: Option<ContextView>,
                       name: string, parameters: Params, referenceType: ReferenceType): Result<string, RouterError>
  {
    if ctx.None? || ctx.value.shop.None? then RawUrl(env, table, name, parameters, referenceType, ctx)
    else
      var shop := ctx.value.shop.value;
      var c := Some(RewrittenContext(ctx.value, shop));
      match Get(table, name)
      case None => Failure(NullRoute(name))
      case Some(route) =>
        if !SeoEnabled(route) then RawUrl(env, table, name, parameters, referenceType, c)
        else Success(SeoSubstituted(env, shop,
                                    env.generator(table, name, parameters, AbsolutePath, c),
                                    env.generator(table, name, parameters, referenceType, c)))
  }

  /** generate with the corrected lookup key; off the SEO branch it is generate itself. */
  function OutboundUrlIntended(env: Collaborators, table: RouteCollection, ctx: Option<ContextView>,
                               name: string, parameters: Params, referenceType: ReferenceType): Result<string, RouterError>
  {
    if ctx.Some? && ctx.value.shop.Some? && Get(table, name).Some? && SeoEnabled(Get(table, name).value) then
      var c := ContextAfterGenerate(ctx);
      Success(SeoSubstitutedIntended(env, ctx.value.shop.value,
                                     env.generator(table, name, parameters, AbsolutePath, c),
                                     env.generator(table, name, parameters, referenceType, c)))
    else OutboundUrl(env, table, ctx, name, parameters, referenceType)
  }

  /** Without a context or a shop, generate is the plain generator under the unchanged context. */
  lemma OutboundWithoutShopIsPlain(env: Collaborators, table: RouteCollection, ctx: Option<ContextView>,
                                   name: string, parameters: Params, referenceType: ReferenceType)
    requires ctx.None? || ctx.value.shop.None?
    ensures OutboundUrl(env, table, ctx, name, parameters, referenceType) ==
            RawUrl(env, table, name, parameters, referenceType, ctx)
    ensures ContextAfterGenerate(ctx) == ctx
  {
  }

  /** Routes whose seo option is not strictly true are plain output under the rewritten context. */
  lemma OutboundNonSeoRouteIsPlain(env: Collaborators, table: RouteCollection, ctx: Option<ContextView>,
                                   name: string, parameters: Params, referenceType: ReferenceType)
    requires ctx.Some? && ctx.value.shop.Some?
    requires Get(table, name).Some? && !SeoEnabled(Get(table, name).value)
    ensures OutboundUrl(env, table, ctx, name, parameters, referenceType) ==
            Success(env.generator(table, name, parameters, referenceType, ContextAfterGenerate(ctx)))
  {
  }

  /** Off the SEO branch the URL resolver is never consulted: swapping it changes nothing. */
  lemma OutboundIgnoresResolverOffSeoBranch(env: Collaborators, resolver: (string, string, LocaleContext) -> Option<SeoUrl>,
                                            table: RouteCollection, ctx: Option<ContextView>,
                                            name: string, parameters: Params, referenceType: ReferenceType)
    requires ctx.None? || ctx.value.shop.None? || Get(table, name).None? || !SeoEnabled(Get(table, name).value)
    ensures OutboundUrl(env, table, ctx, name, parameters, referenceType) ==
            OutboundUrl(env.(resolveUrl := resolver), table, ctx, name, parameters, referenceType)
  {
  }

  /** On the SEO branch: the record's SEO path replaces the lookup key, which is the generated
      path with every occurrence of the prefix removed, and '/' is right-trimmed. */
  lemma OutboundSeoRoute(env: Collaborators, table: RouteCollection, ctx: Option<ContextView>,
                         name: string, parameters: Params, referenceType: ReferenceType)
    requires ctx.Some? && ctx.value.shop.Some?
    requires Get(table, name).Some? && SeoEnabled(Get(table, name).value)
    ensures var shop := ctx.value.shop.value;
            var c := ContextAfterGenerate(ctx);
            var key := SeoLookupKeyAsWritten(env.generator(table, name, parameters, AbsolutePath, c),
                                             BasePrefix(shop.baseUrl, shop.basePath));
            var url := env.generator(table, name, parameters, referenceType, c);
            var record := env.resolveUrl(shop.uuid, key, LocaleOf(shop));
            OutboundUrl(env, table, ctx, name, parameters, referenceType) ==
              Success(if record.Some? then RTrimSlash(ReplaceAll(url, key, record.value.seoPathInfo))
                      else RTrimSlash(url))
  {
  }

  /** With the corrected key, a generated path made of the shop prefix, in any letter case,
      followed by p is looked up as NormalizePath(p): the path InboundPathRoundTrip shows
      matchRequest matching for the same URL. */
  lemma OutboundSeoRouteIntended(env: Collaborators, table: RouteCollection, ctx: Option<ContextView>,
                                 name: string, parameters: Params, referenceType: ReferenceType,
                                 cased: string, p: string)
    requires ctx.Some? && ctx.value.shop.Some?
    requires Get(table, name).Some? && SeoEnabled(Get(table, name).value)
    requires var shop := ctx.value.shop.value;
             && EqualIgnoringCase(cased, BasePrefix(shop.baseUrl, shop.basePath))
             && env.generator(table, name, parameters, AbsolutePath, ContextAfterGenerate(ctx)) == cased + p
    ensures var shop := ctx.value.shop.value;
            var url := env.generator(table, name, parameters, referenceType, ContextAfterGenerate(ctx));
            var record := env.resolveUrl(shop.uuid, NormalizePath(p), LocaleOf(shop));
            OutboundUrlIntended(env, table, ctx, name, parameters, referenceType) ==
              Success(if record.Some? then RTrimSlash(ReplaceAll(url, NormalizePath(p), record.value.seoPathInfo))
                      else RTrimSlash(url))
  {
    var shop := ctx.value.shop.value;
    StripPrefixRoundTrip(cased, BasePrefix(shop.baseUrl, shop.basePath), p);
  }

  /** Where the prefix occurs only at the start of the generated path, generate as written
      computes the corrected URL. */
  lemma OutboundAgreesWithIntended(env: Collaborators, table: RouteCollection, ctx: Option<ContextView>,
                                   name: string, parameters: Params, referenceType: ReferenceType, rest: string)
    requires ctx.Some? && ctx.value.shop.Some?
    requires var shop := ctx.value.shop.value;
             var prefix := BasePrefix(shop.baseUrl, shop.basePath);
             && env.generator(table, name, parameters, AbsolutePath, ContextAfterGenerate(ctx)) == prefix + rest
             && forall i :: 0 <= i <= |rest| ==> !OccursAt(rest, prefix, i)
    ensures OutboundUrl(env, table, ctx, name, parameters, referenceType) ==
            OutboundUrlIntended(env, table, ctx, name, parameters, referenceType)
  {
    var shop := ctx.value.shop.value;
    SeoLookupKeyAsWrittenAgrees(BasePrefix(shop.baseUrl, shop.basePath), rest);
  }

  /** For the root shop (prefix `/`) generate as written looks up `/ab` for the path `/a/b`:
      a record for `/a/b` is not substituted, where the corrected key finds it. */
  lemma OutboundAsWrittenMissesRecord(env: Collaborators, table: RouteCollection, ctx: Option<ContextView>,
                                      name: string, parameters: Params, referenceType: ReferenceType,
                                      a: string, b: string)
    requires ctx.Some? && ctx.value.shop.Some?
    requires ctx.value.shop.value.baseUrl == None && ctx.value.shop.value.basePath == ""
    requires Get(table, name).Some? && SeoEnabled(Get(table, name).value)
    requires '/' !in a && '/' !in b && a != [] && b != []
    requires env.generator(table, name, parameters, AbsolutePath, ContextAfterGenerate(ctx)) == "/" + (a + "/" + b)
    requires var shop := ctx.value.shop.value;
             && env.resolveUrl(shop.uuid, "/" + (a + b), LocaleOf(shop)).None?
             && env.resolveUrl(shop.uuid, "/" + (a + "/" + b), LocaleOf(shop)).Some?
    ensures var shop := ctx.value.shop.value;
            var url := env.generator(table, name, parameters, referenceType, ContextAfterGenerate(ctx));
            var seo := env.resolveUrl(shop.uuid, "/" + (a + "/" + b), LocaleOf(shop)).value;
            && OutboundUrl(env, table, ctx, name, parameters, referenceType) == Success(RTrimSlash(url))
            && OutboundUrlIntended(env, table, ctx, name, parameters, referenceType) ==
                 Success(RTrimSlash(ReplaceAll(url, "/" + (a + "/" + b), seo.seoPathInfo)))
  {
    SeoLookupKeyAsWrittenDropsSlashes(a, b);
  }

  /** An unknown route name fails in every branch. */
  lemma OutboundUnknownRoute(env: Collaborators, table: RouteCollection, ctx: Option<ContextView>,
                             name: string, parameters: Params, referenceType: ReferenceType)
    requires name !in Names(table)
    ensures OutboundUrl(env, table, ctx, name, parameters, referenceType) ==
            if ctx.None? || ctx.value.shop.None? then Failure(RouteNotFound(name)) else Failure(NullRoute(name))
  {
  }

  // ---------------------------------------------------------------- assemble

  /** rtrim(base, '/') . '/' . ltrim(url, '/') */
  function JoinUrl(base: string, url: string): string
  {
    RTrimSlash(base) + "/" + LTrimSlash(url)
  }

  /** Whatever slashes either side carries at the join, the result is the same. */
  lemma JoinIgnoresSlashes(base: string, m: nat, n: nat, url: string)
    ensures JoinUrl(base + Slashes(m), Slashes(n) + url) == JoinUrl(base, url)
  {
    RTrimSlashAppended(base, m);
    LTrimSlashPrepended(url, n);
  }

  /** A base without a trailing '/' and a path without a leading '/' are joined by one '/'. */
  lemma JoinClean(base: string, url: string)
    requires base == [] || base[|base| - 1] != '/'
    requires url == [] || url[0] != '/'
    ensures JoinUrl(base, url) == base + "/" + url
  {
    RTrimSlashUnique(base, base);
  }

  /** The join is exactly one '/', with no '/' on either side of it. */
  lemma JoinHasOneSlash(base: string, url: string)
    ensures var r := JoinUrl(base, url);
            var k := |RTrimSlash(base)|;
            k < |r| && r[k] == '/' && (k == 0 || r[k - 1] != '/') && (k + 1 == |r| || r[k + 1] != '/')
  {
    RTrimSlashSpec(base);
    LTrimSlashSpec(url);
  }

  // ---------------------------------------------------------------- route loading

  function ControllerDir(b: Bundle): string
  {
    b.path + "/Controller"
  }

  /** The annotation routes of the bundles that have a Controller directory, in bundle order. */
  function BundleSources(env: Collaborators, bundles: seq<Bundle>): seq<RouteCollection>
  {
    if bundles == [] then []
    else
      var b := bundles[|bundles| - 1];
      BundleSources(env, bundles[..|bundles| - 1]) +
        (if env.fileExists(ControllerDir(b)) then [env.importAnnotations(ControllerDir(b) + "/")] else [])
  }

  /** One more bundle adds its Controller routes, when it has them, behind the others. */
  lemma BundleSourcesStep(env: Collaborators, bundles: seq<Bundle>, i: nat)
    requires i < |bundles|
    ensures var b := bundles[i];
            BundleSources(env, bundles[..i + 1]) == BundleSources(env, bundles[..i]) +
              (if env.fileExists(ControllerDir(b)) then [env.importAnnotations(ControllerDir(b) + "/")] else [])
  {
    assert bundles[..i + 1][..i] == bundles[..i];
  }

  /** One iteration of the bundle loop of loadRoutes, in terms of the route sources. */
  lemma LoadBundleStep(env: Collaborators, first: seq<RouteCollection>, bundles: seq<Bundle>, i: nat, rc: RouteCollection)
    requires i < |bundles|
    requires rc == AddAll([], first + BundleSources(env, bundles[..i]))
    ensures var dir := ControllerDir(bundles[i]);
            AddAll([], first + BundleSources(env, bundles[..i + 1])) ==
              if env.fileExists(dir) then AddCollection(rc, env.importAnnotations(dir + "/")) else rc
  {
    var dir := ControllerDir(bundles[i]);
    BundleSourcesStep(env, bundles, i);
    if env.fileExists(dir) {
      var added := env.importAnnotations(dir + "/");
      AddAllStep([], first + BundleSources(env, bundles[..i]), added);
      assert first + BundleSources(env, bundles[..i + 1]) == first + BundleSources(env, bundles[..i]) + [added];
    } else {
      assert first + BundleSources(env, bundles[..i + 1]) == first + BundleSources(env, bundles[..i]);
    }
  }

  /** The route sources of loadRoutes: the resource if it exists, then the bundles. */
  function RouteSources(env: Collaborators, resource: string, bundles: seq<Bundle>): seq<RouteCollection>
  {
    (if env.fileExists(resource) then [env.load(resource)] else []) + BundleSources(env, bundles)
  }

  function LoadedRoutes(env: Collaborators, resource: string, bundles: seq<Bundle>): RouteCollection
  {
    AddAll([], RouteSources(env, resource, bundles))
  }

  /** An existing resource is the base of the table and the bundles are added over it. */
  lemma LoadedRoutesResourceFirst(env: Collaborators, resource: string, bundles: seq<Bundle>)
    requires env.fileExists(resource)
    ensures LoadedRoutes(env, resource, bundles) == AddAll(env.load(resource), BundleSources(env, bundles))
  {
    var first: seq<RouteCollection> := [env.load(resource)];
    assert RouteSources(env, resource, bundles) == first + BundleSources(env, bundles);
    AddAllAppend([], first, BundleSources(env, bundles));
    AddAllSingle(env.load(resource));
  }

  /** A missing resource is skipped, not an error. */
  lemma LoadedRoutesMissingResource(env: Collaborators, resource: string, bundles: seq<Bundle>)
    requires !env.fileExists(resource)
    ensures LoadedRoutes(env, resource, bundles) == AddAll([], BundleSources(env, bundles))
  {
    assert RouteSources(env, resource, bundles) == BundleSources(env, bundles);
  }

  /** A bundle without a Controller directory contributes nothing, wherever it stands. */
  lemma {:induction false} BundleWithoutControllerSkipped(env: Collaborators, before: seq<Bundle>, b: Bundle, after: seq<Bundle>)
    requires !env.fileExists(ControllerDir(b))
    ensures BundleSources(env, before + [b] + after) == BundleSources(env, before + after)
  {
    if after == [] {
      assert before + [b] + after == before + [b];
      assert (before + [b])[..|before + [b]| - 1] == before;
      assert before + after == before;
    } else {
      var init := after[..|after| - 1];
      var last := after[|after| - 1];
      BundleWithoutControllerSkipped(env, before, b, init);
      var s1 := before + [b] + after;
      var s2 := before + after;
      assert s1[..|s1| - 1] == before + [b] + init && s1[|s1| - 1] == last;
      assert s2[..|s2| - 1] == before + init && s2[|s2| - 1] == last;
    }
  }

  /** With no resource and no Controller directory the table is empty. */
  lemma {:induction false} NothingToLoad(env: Collaborators, resource: string, bundles: seq<Bundle>)
    requires !env.fileExists(resource)
    requires forall i :: 0 <= i < |bundles| ==> !env.fileExists(ControllerDir(bundles[i]))
    ensures LoadedRoutes(env, resource, bundles) == []
    decreases |bundles|
  {
    if bundles != [] {
      var init := bundles[..|bundles| - 1];
      NothingToLoad(env, resource, init);
      assert BundleSources(env, bundles) == BundleSources(env, init);
      assert RouteSources(env, resource, bundles) == RouteSources(env, resource, init);
    }
  }

  /** A name in the loaded table belongs to the last source that declares it. */
  lemma LoadedRoutesLookup(env: Collaborators, resource: string, bundles: seq<Bundle>, name: string)
    ensures Get(LoadedRoutes(env, resource, bundles), name) == LookupLast(RouteSources(env, resource, bundles), name)
  {
    AddAllLookup([], RouteSources(env, resource, bundles), name);
  }
}
