/**
 * The router object and the mutable objects around it: the Symfony RequestContext it rewrites,
 * the requests whose attributes it sets, the request stack that gives the master request and
 * the PSR-6 cache pool that holds the route table. Each method is specified by the functions
 * of module Routing.
 */
module Router {
  import opened Wrappers
  import opened PhpStrings
  import opened Routes
  import opened Routing

  /** The cache key of the route table. */
  const RoutesCacheKey := "router_routes"

  /** The request attribute that carries the URL a non-canonical SEO path should redirect to. */
  const SeoRedirectUrl := "seo_redirect_url"

  /** Symfony's RequestContext, with the `shop` parameter that generate reads. */
  class RequestContext {
    var baseUrl: string
    var pathInfo: string
    var httpMethod: string
    var host: string
    var shop: Option<Shop>

    constructor (baseUrl: string, pathInfo: string, httpMethod: string, host: string, shop: Option<Shop>)
      ensures View() == ContextView(baseUrl, pathInfo, httpMethod, host, shop)
    {
      this.baseUrl, this.pathInfo, this.httpMethod, this.host, this.shop := baseUrl, pathInfo, httpMethod, host, shop;
    }

    function View(): ContextView
      reads this
    {
      ContextView(baseUrl, pathInfo, httpMethod, host, shop)
    }
  }

  /** An HTTP request: fixed parameter bags, mutable attributes. The `router_shop` attribute,
      the only one holding a shop, is kept in a field of its own. */
  class Request {
    var attributes: map<string, string>
    var routerShop: Option<Shop>
    const query: map<string, string>
    const body: map<string, string>
    const cookies: map<string, string>
    const baseUrl: string
    const pathInfo: string

    constructor (query: map<string, string>, body: map<string, string>, cookies: map<string, string>,
                 baseUrl: string, pathInfo: string)
      ensures View() == RequestView(map[], query, body, cookies, baseUrl, pathInfo, None)
    {
      this.query, this.body, this.cookies := query, body, cookies;
      this.baseUrl, this.pathInfo := baseUrl, pathInfo;
      attributes, routerShop := map[], None;
    }

    function View(): RequestView
      reads this
    {
      RequestView(attributes, query, body, cookies, baseUrl, pathInfo, routerShop)
    }
  }

  /** The request stack, reduced to its master request, which is null for an empty stack. */
  class RequestStack {
    const master: Request?

    constructor (master: Request?)
      ensures this.master == master
    {
      this.master := master;
    }
  }

  /** A PSR-6 cache pool holding route tables by key. */
  class CachePool {
    var items: map<string, RouteCollection>

    constructor ()
      ensures items == map[]
    {
      items := map[];
    }

    /** `getItem($key)->get()`: the stored value, or null on a miss. */
    method GetItem(key: string) returns (value: Option<RouteCollection>)
      ensures value == if key in items then Some(items[key]) else None
    {
      value := if key in items then Some(items[key]) else None;
    }

    /** `$item->set($value); $pool->save($item)` */
    method Save(key: string, value: RouteCollection)
      modifies this
      ensures items == old(items)[key := value]
    {
      items := items[key := value];
    }
  }

  class Router {
    const resource: string
    const bundles: seq<Bundle>
    const env: Collaborators
    const requestStack: RequestStack
    const cache: CachePool
    var context: RequestContext?
    /** The in-memory route table, null until first built or read from the cache. */
    var routes: Option<RouteCollection>
    /** How many times the route sources have been read. */
    ghost var loads: nat

    constructor (resource: string, bundles: seq<Bundle>, context: RequestContext?, env: Collaborators,
                 requestStack: RequestStack, cache: CachePool)
      ensures this.resource == resource && this.bundles == bundles && this.context == context
      ensures this.env == env && this.requestStack == requestStack && this.cache == cache
      ensures routes == None && loads == 0
    {
      this.resource, this.bundles, this.context, this.env := resource, bundles, context, env;
      this.requestStack, this.cache := requestStack, cache;
      routes := None;
      loads := 0;
    }

    method SetContext(context: RequestContext)
      modifies this
      ensures this.context == context && routes == old(routes) && loads == old(loads)
    {
      this.context := context;
    }

    /** The context as the generator and matcher see it, or None for a null context. */
    function ContextState(): Option<ContextView>
      reads this, context
    {
      if context == null then None else Some(context.View())
    }

    /** The table the next getRouteCollection returns: the cached one, else the in-memory one,
        else a freshly loaded one. */
    ghost function NextTable(): RouteCollection
      reads this, cache
    {
      if RoutesCacheKey in cache.items then cache.items[RoutesCacheKey]
      else if routes.Some? then routes.value
      else LoadedRoutes(env, resource, bundles)
    }

    /** The effect of one getRouteCollection: the table is in memory and in the cache, and the
        sources were read only if neither held a table. */
    twostate predicate TableRefreshed()
      reads this, cache
    {
      && routes == Some(old(NextTable()))
      && cache.items == old(cache.items)[RoutesCacheKey := old(NextTable())]
      && loads == old(loads) + (if old(RoutesCacheKey !in cache.items && routes.None?) then 1 else 0)
    }

    /** The route table state when no getRouteCollection ran. */
    twostate predicate TableUntouched()
      reads this, cache
    {
      routes == old(routes) && cache.items == old(cache.items) && loads == old(loads)
    }

    method GetRouteCollection() returns (table: RouteCollection)
      modifies this, cache
      ensures table == old(NextTable())
      ensures TableRefreshed()
      ensures context == old(context)
    {
      var cached := cache.GetItem(RoutesCacheKey);
      // a cached RouteCollection is an object, hence truthy even when it holds no route
      if cached.Some? {
        routes := cached;
      }
      if routes.None? {
        var loaded := LoadRoutes();
        routes := Some(loaded);
        loads := loads + 1;
      }
      table := routes.value;
      cache.Save(RoutesCacheKey, table);
    }

    /** Two calls in a row return the same table and read the sources at most once. */
    method GetRouteCollectionTwice() returns (first: RouteCollection, second: RouteCollection)
      modifies this, cache
      ensures first == old(NextTable()) && second == first
      ensures loads <= old(loads) + 1
      ensures TableRefreshed()
    {
      first := GetRouteCollection();
      second := GetRouteCollection();
    }

    /** loadRoutes: the resource's routes if it exists, then each bundle's annotated
        controllers, skipping bundles without a Controller directory. */
    method LoadRoutes() returns (rc: RouteCollection)
      ensures rc == LoadedRoutes(env, resource, bundles)
    {
      var first: seq<RouteCollection> := if env.fileExists(resource) then [env.load(resource)] else [];
      rc := [];
      if env.fileExists(resource) {
        rc := AddCollection(rc, env.load(resource));
        assert first[..0] == [];
      }
      for i := 0 to |bundles|
        invariant rc == AddAll([], first + BundleSources(env, bundles[..i]))
      {
        LoadBundleStep(env, first, bundles, i, rc);
        var dir := ControllerDir(bundles[i]);
        if !env.fileExists(dir) {
          continue;
        }
        rc := AddCollection(rc, env.importAnnotations(dir + "/"));
      }
      assert bundles[..|bundles|] == bundles;
    }

    /** rewriteBaseUrl: returns the shop prefix and stores it, without its final '/', as the
        context's base URL; the steps of Routing.BasePrefix and Routing.ContextBaseUrl. */
    method RewriteBaseUrl(baseUrl: Option<string>, basePath: string) returns (prefix: string)
      requires context != null
      modifies context
      ensures prefix == BasePrefix(baseUrl, basePath)
      ensures context.View() == old(context.View()).(baseUrl := ContextBaseUrl(baseUrl, basePath))
    {
      var source := if baseUrl.Some? then baseUrl.value else basePath;
      prefix := RTrimSlash(source) + "/";
      context.baseUrl := RTrimSlash(prefix);
    }

    /** getCurrencyUuid, reading the method from the router's context; the cascade of
        Routing.CurrencyUuid, one test at a time. */
    method GetCurrencyUuid(request: Request, fallback: string) returns (currency: string)
      requires context != null
      ensures currency == CurrencyUuid(context.httpMethod, request.View(), fallback)
    {
      var posted := Param(request.View(), "__currency");
      if context.httpMethod == "POST" && posted.Some? && Truthy(posted.value) {
        return posted.value;
      }
      if "currency" in request.cookies {
        return request.cookies["currency"];
      }
      if "_currency_uuid" in request.attributes {
        return request.attributes["_currency_uuid"];
      }
      return fallback;
    }

    /** generate: plain generator output without a context or shop, SEO substitution for
        SEO-enabled routes of a shop. */
    method Generate(name: string, parameters: Params, referenceType: ReferenceType)
      returns (url: Result<string, RouterError>)
      modifies this, cache, context
      ensures context == old(context)
      ensures url == OutboundUrl(env, old(NextTable()), old(ContextState()), name, parameters, referenceType)
      ensures ContextState() == ContextAfterGenerate(old(ContextState()))
      ensures TableRefreshed()
    {
      var table := GetRouteCollection();
      if context == null || context.shop.None? {
        url := RawUrl(env, table, name, parameters, referenceType, ContextState());
        return;
      }
      url := GenerateForShop(table, name, parameters, referenceType);
    }

    /** generate once the context holds a shop: rewrite the base URL, look the route up in the
        table again and substitute its SEO path when the route asks for it. The table is already
        in memory and in the cache, so the second getRouteCollection changes nothing. */
    method GenerateForShop(table: RouteCollection, name: string, parameters: Params, referenceType: ReferenceType)
      returns (url: Result<string, RouterError>)
      requires context != null && context.shop.Some?
      requires routes == Some(table) && RoutesCacheKey in cache.items && cache.items[RoutesCacheKey] == table
      modifies this, cache, context
      ensures context == old(context)
      ensures url == OutboundUrl(env, table, old(ContextState()), name, parameters, referenceType)
      ensures ContextState() == ContextAfterGenerate(old(ContextState()))
      ensures TableUntouched()
    {
      var shop := context.shop.value;
      var strip := RewriteBaseUrl(shop.baseUrl, shop.basePath);
      var current := GetRouteCollection();
      var route := Get(current, name);
      if route.None? {
        url := Failure(NullRoute(name));
        return;
      }
      if !SeoEnabled(route.value) {
        url := RawUrl(env, table, name, parameters, referenceType, ContextState());
        return;
      }
      var seoUrl := SeoUrlFor(table, shop, strip, name, parameters, referenceType);
      url := Success(seoUrl);
    }

    /** The SEO branch of generate under the rewritten context; the steps of Routing.SeoSubstituted. */
    method SeoUrlFor(table: RouteCollection, shop: Shop, strip: string, name: string, parameters: Params,
                     referenceType: ReferenceType) returns (url: string)
      requires strip == BasePrefix(shop.baseUrl, shop.basePath)
      ensures url == SeoSubstituted(env, shop, env.generator(table, name, parameters, AbsolutePath, ContextState()),
                                    env.generator(table, name, parameters, referenceType, ContextState()))
      ensures url == [] || url[|url| - 1] != '/'
    {
      var pathInfo := env.generator(table, name, parameters, AbsolutePath, ContextState());
      pathInfo := ReplaceAll(pathInfo, strip, "");
      pathInfo := NormalizePath(pathInfo);
      var seoUrl := env.resolveUrl(shop.uuid, pathInfo, LocaleOf(shop));
      var generated := env.generator(table, name, parameters, referenceType, ContextState());
      if seoUrl.Some? {
        generated := ReplaceAll(generated, pathInfo, seoUrl.value.seoPathInfo);
      }
      url := RTrimSlash(generated);
    }

    /** match: normalise the path, store it as the context's path info and hand it to the matcher.
        A null context is dereferenced before the table is read. */
    method Match(pathInfo: string) returns (result: Result<Params, RouterError>)
      modifies this, cache, context
      ensures context == old(context)
      ensures context == null ==> result == Failure(NullContext) && TableUntouched()
      ensures context != null ==> context.View() == old(context.View()).(pathInfo := NormalizePath(pathInfo))
      ensures context != null ==> result == env.matcher(old(NextTable()), NormalizePath(pathInfo), context.View())
      ensures context != null ==> TableRefreshed()
    {
      if context == null {
        return Failure(NullContext);
      }
      var path := NormalizePath(pathInfo);
      context.pathInfo := path;
      var table := GetRouteCollection();
      result := env.matcher(table, path, context.View());
    }

    /** matchRequest: find the shop, record it on the requests, strip its prefix, resolve SEO
        paths and match. */
    method MatchRequest(request: Request) returns (result: Result<Params, RouterError>)
      modifies this, cache, context, request`attributes, (if requestStack.master == null then {} else {requestStack.master})`routerShop
      ensures context == old(context)
      ensures requestStack.master == null ==>
                && result == Failure(NullMasterRequest) && TableUntouched()
                && request.attributes == old(request.attributes)
                && (context != null ==> context.View() == old(context.View()))
      ensures requestStack.master != null && old(context) == null ==>
                && result == Failure(NullContext) && TableUntouched()
                && request.attributes == old(request.attributes)
                && requestStack.master.routerShop == old(requestStack.master.routerShop)
      ensures requestStack.master != null && old(context) != null ==>
              (var shop := DispatchShop(env, old(requestStack.master.routerShop), old(context.View()), old(request.View()));
              if shop.Some? && ResolveSeo(env, shop.value, InboundPath(shop.value, request.baseUrl, request.pathInfo)).redirect == RedirectUnresolved
              then TableUntouched() else TableRefreshed())
      ensures requestStack.master != null && old(context) != null ==> context.httpMethod == old(context.httpMethod) && context.host == old(context.host)
      ensures requestStack.master != null && old(context) != null ==> context.shop == old(context.shop)
      ensures requestStack.master != null && old(context) != null ==>
              (var shop := DispatchShop(env, old(requestStack.master.routerShop), old(context.View()), old(request.View()));
              shop.None? ==>
                && request.attributes == old(request.attributes)
                && requestStack.master.routerShop == old(requestStack.master.routerShop)
                && context.baseUrl == old(context.baseUrl)
                && context.pathInfo == NormalizePath(old(context.pathInfo))
                && result == env.matcher(old(NextTable()), context.pathInfo, context.View()))
      ensures requestStack.master != null && old(context) != null ==>
              (var shop := DispatchShop(env, old(requestStack.master.routerShop), old(context.View()), old(request.View()));
              shop.Some? ==>
                var s := shop.value;
                var currency := CurrencyUuid(old(context.httpMethod), old(request.View()), s.currencyUuid);
                var attributes := ShopAttributes(old(request.attributes), s, currency);
                var seo := ResolveSeo(env, s, InboundPath(s, request.baseUrl, request.pathInfo));
                && requestStack.master.routerShop == shop
                && context.baseUrl == ContextBaseUrl(s.baseUrl, s.basePath)
                && (seo.redirect == RedirectUnresolved ==>
                      && result == Failure(NullRedirectUrl)
                      && request.attributes == attributes
                      && context.pathInfo == old(context.pathInfo))
                && (seo.redirect != RedirectUnresolved ==>
                      && request.attributes ==
                           (if seo.redirect.RedirectTo? then attributes[SeoRedirectUrl := seo.redirect.url] else attributes)
                      && context.pathInfo == NormalizePath(seo.matchPath)
                      && result == env.matcher(old(NextTable()), context.pathInfo, context.View())))
    {
      var master := requestStack.master;
      if master == null {
        return Failure(NullMasterRequest);
      }
      if context == null {
        return Failure(NullContext);
      }
      var shop := FindShop(master, request);
      if shop.None? {
        result := Match(context.pathInfo);
        return;
      }
      result := MatchShopRequest(master, request, shop.value);
    }

    /** The shop stored on the master request, else the shop finder's answer. */
    method FindShop(master: Request, request: Request) returns (shop: Option<Shop>)
      requires context != null
      ensures shop == DispatchShop(env, master.routerShop, context.View(), request.View())
      ensures master.routerShop.Some? ==> shop == master.routerShop
    {
      if master.routerShop.Some? {
        shop := master.routerShop;
      } else {
        shop := env.findShop(context.View(), request.View());
      }
    }

    /** matchRequest once a shop is known. */
    method MatchShopRequest(master: Request, request: Request, s: Shop) returns (result: Result<Params, RouterError>)
      requires context != null
      modifies this, cache, context, request`attributes, master`routerShop
      ensures context == old(context)
      ensures var seo := ResolveSeo(env, s, InboundPath(s, request.baseUrl, request.pathInfo));
              if seo.redirect == RedirectUnresolved then TableUntouched() else TableRefreshed()
      ensures context.httpMethod == old(context.httpMethod) && context.host == old(context.host)
      ensures context.shop == old(context.shop)
      ensures master.routerShop == Some(s)
      ensures context.baseUrl == ContextBaseUrl(s.baseUrl, s.basePath)
      ensures var attributes := ShopAttributes(old(request.attributes), s,
                                               CurrencyUuid(old(context.httpMethod), old(request.View()), s.currencyUuid));
              var seo := ResolveSeo(env, s, InboundPath(s, request.baseUrl, request.pathInfo));
              seo.redirect == RedirectUnresolved ==>
                && result == Failure(NullRedirectUrl)
                && request.attributes == attributes
                && context.pathInfo == old(context.pathInfo)
      ensures var attributes := ShopAttributes(old(request.attributes), s,
                                               CurrencyUuid(old(context.httpMethod), old(request.View()), s.currencyUuid));
              var seo := ResolveSeo(env, s, InboundPath(s, request.baseUrl, request.pathInfo));
              seo.redirect != RedirectUnresolved ==>
                && request.attributes ==
                     (if seo.redirect.RedirectTo? then attributes[SeoRedirectUrl := seo.redirect.url] else attributes)
                && context.pathInfo == NormalizePath(seo.matchPath)
                && result == env.matcher(old(NextTable()), context.pathInfo, context.View())
    {
      var pathInfo := EnterShop(master, request, s);
      result := MatchSeo(request, s, pathInfo);
    }

    /** The shop branch up to the SEO lookup: record the shop, rewrite the base URL and strip
        the shop prefix from the request path. */
    method EnterShop(master: Request, request: Request, s: Shop) returns (pathInfo: string)
      requires context != null
      modifies context, request`attributes, master`routerShop
      ensures master.routerShop == Some(s)
      ensures request.attributes ==
              ShopAttributes(old(request.attributes), s, CurrencyUuid(old(context.httpMethod), old(request.View()), s.currencyUuid))
      ensures context.View() == old(context.View()).(baseUrl := ContextBaseUrl(s.baseUrl, s.basePath))
      ensures pathInfo == InboundPath(s, request.baseUrl, request.pathInfo)
    {
      RecordShop(master, request, s);
      pathInfo := StripShopPrefix(request, s);
    }

    /** Set the shop's base URL on the context and strip the shop prefix from the request path;
        the steps of Routing.InboundPath. */
    method StripShopPrefix(request: Request, s: Shop) returns (pathInfo: string)
      requires context != null
      modifies context
      ensures pathInfo == InboundPath(s, request.baseUrl, request.pathInfo)
      ensures context.View() == old(context.View()).(baseUrl := ContextBaseUrl(s.baseUrl, s.basePath))
    {
      var strip := RewriteBaseUrl(s.baseUrl, s.basePath);
      pathInfo := request.baseUrl + request.pathInfo;
      pathInfo := StripPrefixIgnoringCase(pathInfo, strip);
      pathInfo := NormalizePath(pathInfo);
    }

    /** Store the shop on the master request and its uuids and the currency on the request. */
    method RecordShop(master: Request, request: Request, s: Shop)
      requires context != null
      modifies request`attributes, master`routerShop
      ensures master.routerShop == Some(s)
      ensures request.attributes ==
              ShopAttributes(old(request.attributes), s, CurrencyUuid(context.httpMethod, old(request.View()), s.currencyUuid))
    {
      var currency := GetCurrencyUuid(request, s.currencyUuid);
      master.routerShop := Some(s);
      request.attributes := request.attributes["_shop_uuid" := s.uuid];
      request.attributes := request.attributes["_currency_uuid" := currency];
      request.attributes := request.attributes["_locale_uuid" := s.localeUuid];
    }

    /** The SEO step of matchRequest: match the record's path info, flag a non-canonical one. */
    method MatchSeo(request: Request, s: Shop, pathInfo: string) returns (result: Result<Params, RouterError>)
      requires context != null
      modifies this, cache, context, request`attributes
      ensures context == old(context)
      ensures var seo := ResolveSeo(env, s, pathInfo);
              if seo.redirect == RedirectUnresolved then TableUntouched() else TableRefreshed()
      ensures var seo := ResolveSeo(env, s, pathInfo);
              && context.View() == old(context.View()).(pathInfo := context.pathInfo)
              && (seo.redirect == RedirectUnresolved ==>
                    && result == Failure(NullRedirectUrl)
                    && request.attributes == old(request.attributes)
                    && context.pathInfo == old(context.pathInfo))
              && (seo.redirect != RedirectUnresolved ==>
                    && request.attributes ==
                         (if seo.redirect.RedirectTo? then old(request.attributes)[SeoRedirectUrl := seo.redirect.url]
                          else old(request.attributes))
                    && context.pathInfo == NormalizePath(seo.matchPath)
                    && result == env.matcher(old(NextTable()), context.pathInfo, context.View()))
    {
      var locale := LocaleOf(s);
      var seoUrl := env.resolvePathInfo(s.uuid, pathInfo, locale);
      if seoUrl.None? {
        result := Match(pathInfo);
        return;
      }
      var path := seoUrl.value.pathInfo;
      if !seoUrl.value.isCanonical {
        var redirectUrl := env.resolveUrl(s.uuid, seoUrl.value.pathInfo, locale);
        if redirectUrl.None? {
          result := Failure(NullRedirectUrl);
          return;
        }
        request.attributes := request.attributes[SeoRedirectUrl := redirectUrl.value.seoPathInfo];
      }
      result := Match(path);
    }

    /** assemble: the homepage's absolute URL joined to a relative path by exactly one '/'. */
    method Assemble(url: string) returns (result: Result<string, RouterError>)
      modifies this, cache
      ensures context == old(context)
      ensures TableRefreshed()
      ensures result == match RawUrl(env, old(NextTable()), "homepage", map[], AbsoluteUrl, ContextState())
                        case Success(base) => Success(JoinUrl(base, url))
                        case Failure(e) => Failure(e)
    {
      var table := GetRouteCollection();
      var base := RawUrl(env, table, "homepage", map[], AbsoluteUrl, ContextState());
      if base.Failure? {
        return Failure(base.error);
      }
      result := Success(RTrimSlash(base.value) + "/" + LTrimSlash(url));
    }
  }
}
