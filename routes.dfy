/**
 * Route definitions and Symfony's RouteCollection, as the router builds and reads them:
 * named routes in declaration order, name lookup, and `addCollection`, which the router uses
 * to concatenate the route sources it loads.
 */
module Routes {
  import opened Wrappers

  /** The value of a route option; only a boolean true counts as `true` under `===`. */
  datatype OptionValue = Unset | BoolOption(b: bool) | IntOption(i: int) | TextOption(s: string)

  /** A route: its name, its path pattern, its handler and its `seo` option. */
  datatype Route = Route(name: string, path: string, controller: string, seo: OptionValue)

  /** `$route->getOption('seo') === true` */
  predicate SeoEnabled(r: Route)
  {
    r.seo == BoolOption(true)
  }

  predicate UniqueNames(rs: seq<Route>)
  {
    forall i, j :: 0 <= i < j < |rs| ==> rs[i].name != rs[j].name
  }

  /** A RouteCollection maps each name to at most one route and keeps insertion order. */
  type RouteCollection = rs: seq<Route> | UniqueNames(rs) witness []

  function Names(rs: seq<Route>): set<string>
  {
    set r | r in rs :: r.name
  }

  /** `$collection->get($name)`: the route of that name, or null. */
  function Get(rs: seq<Route>, name: string): (r: Option<Route>)
    ensures r.Some? <==> name in Names(rs)
    ensures r.Some? ==> r.value in rs && r.value.name == name
  {
    if rs == [] then None
    else if rs[0].name == name then Some(rs[0])
    else
      assert forall x :: x in rs[1..] ==> x in rs;
      assert forall x :: x in rs && x != rs[0] ==> x in rs[1..];
      Get(rs[1..], name)
  }

  /** The routes of rs whose names are not in `names`, in their original order. */
  function Without(rs: seq<Route>, names: set<string>): (r: seq<Route>)
    ensures forall x :: x in r <==> x in rs && x.name !in names
    ensures UniqueNames(rs) ==> UniqueNames(r)
  {
    if rs == [] then []
    else
      var rest := Without(rs[1..], names);
      assert forall x :: x in rs <==> x == rs[0] || x in rs[1..];
      if rs[0].name in names then rest
      else
        assert UniqueNames(rs) ==> forall x :: x in rest ==> x.name != rs[0].name;
        [rs[0]] + rest
  }

  /**
   * `$collection->addCollection($other)`. Chosen policy, Symfony's own: a route of `other`
   * replaces the same-named route of `rc`, which leaves its position; the routes of `other`
   * follow the remaining routes of `rc` in their own order.
   */
  function AddCollection(rc: RouteCollection, other: RouteCollection): RouteCollection
  {
    var kept := Without(rc, Names(other));
    var r := kept + other;
    assert forall i, j :: 0 <= i < |kept| <= j < |r| ==> r[i] in kept && r[j] in other;
    r
  }

  /** After `addCollection` the names are those of both collections, and a route is kept
      exactly when it is added or was present under a name that is not added. */
  lemma AddCollectionContents(rc: RouteCollection, other: RouteCollection)
    ensures Names(AddCollection(rc, other)) == Names(rc) + Names(other)
    ensures forall x :: x in AddCollection(rc, other) <==> x in other || (x in rc && x.name !in Names(other))
  {
  }

  /** Lookup distributes over concatenation: the left part is searched first. */
  lemma {:induction false} GetAppend(a: seq<Route>, b: seq<Route>, name: string)
    ensures Get(a + b, name) == if name in Names(a) then Get(a, name) else Get(b, name)
  {
    if a == [] {
      assert a + b == b;
    } else {
      assert (a + b)[1..] == a[1..] + b;
      assert forall x :: x in a <==> x == a[0] || x in a[1..];
      GetAppend(a[1..], b, name);
    }
  }

  /** Dropping other names does not change the lookup of a name that is kept. */
  lemma {:induction false} GetWithout(rs: seq<Route>, names: set<string>, name: string)
    requires name !in names
    ensures Get(Without(rs, names), name) == Get(rs, name)
  {
    if rs != [] {
      GetWithout(rs[1..], names, name);
    }
  }

  /** After addCollection a name resolves to the added collection's route if it has one. */
  lemma LastWins(rc: RouteCollection, other: RouteCollection, name: string)
    ensures Get(AddCollection(rc, other), name) ==
            if name in Names(other) then Get(other, name) else Get(rc, name)
  {
    var kept := Without(rc, Names(other));
    GetAppend(kept, other, name);
    if name !in Names(other) {
      GetWithout(rc, Names(other), name);
    }
  }

  /** Adding every source in turn to rc, the first source first. */
  function AddAll(rc: RouteCollection, sources: seq<RouteCollection>): RouteCollection
  {
    if sources == [] then rc
    else AddCollection(AddAll(rc, sources[..|sources| - 1]), sources[|sources| - 1])
  }

  lemma AddAllStep(rc: RouteCollection, sources: seq<RouteCollection>, next: RouteCollection)
    ensures AddAll(rc, sources + [next]) == AddCollection(AddAll(rc, sources), next)
  {
    assert (sources + [next])[..|sources|] == sources;
  }

  /** Adding one collection to the empty one gives that collection. */
  lemma AddAllSingle(rc: RouteCollection)
    ensures AddAll([], [rc]) == rc
  {
    assert [rc][..0] == [];
    assert Without([], Names(rc)) == [];
  }

  /** Reference lookup over a list of sources: the last source that declares a name owns it. */
  function LookupLast(sources: seq<RouteCollection>, name: string): Option<Route>
  {
    if sources == [] then None
    else if name in Names(sources[|sources| - 1]) then Get(sources[|sources| - 1], name)
    else LookupLast(sources[..|sources| - 1], name)
  }

  /** Looking a name up in a table built with AddAll agrees with the reference lookup. */
  lemma {:induction false} AddAllLookup(rc: RouteCollection, sources: seq<RouteCollection>, name: string)
    ensures Get(AddAll(rc, sources), name) ==
            match LookupLast(sources, name)
            case Some(r) => Some(r)
            case None => Get(rc, name)
  {
    if sources != [] {
      var init := sources[..|sources| - 1];
      AddAllLookup(rc, init, name);
      LastWins(AddAll(rc, init), sources[|sources| - 1], name);
    }
  }

  /** AddAll over two consecutive runs of sources is AddAll of the first then of the second. */
  lemma {:induction false} AddAllAppend(rc: RouteCollection, a: seq<RouteCollection>, b: seq<RouteCollection>)
    ensures AddAll(rc, a + b) == AddAll(AddAll(rc, a), b)
  {
    if b == [] {
      assert a + b == a;
    } else {
      assert (a + b)[..|a + b| - 1] == a + b[..|b| - 1];
      AddAllAppend(rc, a, b[..|b| - 1]);
    }
  }
}
