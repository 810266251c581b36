/**
 * `Swagger::Docs::AppRoute`: one routing entry paired with the application
 * (the base Rails application or a mounted engine) whose route table holds it,
 * and the resolution of the prefix under which that application is mounted
 * into the base application.
 *
 * The global `Config.base_application` is passed in explicitly as a `Host`.
 */
module AppRoutes {
  import opened Optional

  /** Identity of a Rack application: the base application or an engine class. */
  datatype AppId = AppId(name: string)

  /**
   * What a routing entry dispatches to (a route's `app`).
   * `Wrapper(inner)` is a constraints wrapper whose own `app` is `inner`.
   * The model assumes that the `app` of any other target is never an
   * application, and that every target answers `app` at all.
   */
  datatype Target =
    | App(id: AppId)
    | Wrapper(inner: Target)
    | Endpoint(controller: string, action: string)

  /**
   * A route's path: either a structured pattern that carries a `spec`,
   * or a plain path string.
   */
  datatype Path = Structured(spec: string) | Plain(value: string)

  /** One routing entry of an application's route table. */
  datatype Route = Route(app: Target, path: Path, verb: string, defaults: map<string, string>)

  /** An application together with its ordered route table (`routes.routes`). */
  datatype Host = Host(id: AppId, routes: seq<Route>)

  /** The text of a path: its `spec` when it has one, otherwise the path itself. */
  function PathText(p: Path): string
  {
    match p
    case Structured(s) => s
    case Plain(s) => s
  }

  /**
   * `r.app == application || r.app.app == application`: the route targets the
   * application directly, or through exactly one wrapper.
   */
  predicate Mounts(r: Route, a: AppId)
  {
    r.app == App(a) || r.app == Wrapper(App(a))
  }

  /** `i` is the position of the first route of `routes` that mounts `a`. */
  ghost predicate IsFirstMount(routes: seq<Route>, a: AppId, i: int)
  {
    && 0 <= i < |routes|
    && Mounts(routes[i], a)
    && forall j :: 0 <= j < i ==> !Mounts(routes[j], a)
  }

  /** `detect` over a route table: the position of the first route that mounts `a`. */
  function DetectMount(routes: seq<Route>, a: AppId): (r: Option<nat>)
    ensures r.Some? ==> IsFirstMount(routes, a, r.value)
    ensures r.None? ==> forall j :: 0 <= j < |routes| ==> !Mounts(routes[j], a)
    decreases |routes|
  {
    if |routes| == 0 then None
    else if Mounts(routes[0], a) then Some(0)
    else
      match DetectMount(routes[1..], a)
      case None => None
      case Some(i) => Some(i + 1)
  }

  /** An `AppRoute`: `application` and `route`, stored once by the constructor. */
  datatype AppRoute = AppRoute(application: AppId, route: Route)
  {
    /** `defaults`, delegated to the route. */
    function DelegatedDefaults(): map<string, string> { route.defaults }

    /** `path`, delegated to the route. */
    function DelegatedPath(): Path { route.path }

    /** `verb`, delegated to the route. */
    function DelegatedVerb(): string { route.verb }

    /** The route's path: its structured spec when it has one, else the plain path. */
    function RoutePath(): (r: string)
      ensures route.path.Structured? ==> r == route.path.spec
      ensures route.path.Plain? ==> r == route.path.value
    {
      PathText(route.path)
    }

    /**
     * The prefix under which `application` is mounted into `base`: none for
     * the base application itself; otherwise the path of the first route of
     * `base` that targets the application directly or one wrapper deep; none
     * when no route does.
     */
    function MountPath(base: Host): (r: Option<string>)
      ensures application == base.id ==> r.None?
      ensures application != base.id ==>
        (r.Some? <==> exists i :: 0 <= i < |base.routes| && Mounts(base.routes[i], application))
      ensures r.Some? ==>
        exists i :: IsFirstMount(base.routes, application, i) && r.value == PathText(base.routes[i].path)
    {
      if application == base.id then None
      else
        match DetectMount(base.routes, application)
        case None => None
        case Some(i) => Some(PathText(base.routes[i].path))
    }
  }

  /**
   * The constructor keeps both arguments as given, and the delegated readers
   * answer the route's own fields.
   */
  lemma ConstructorStoresArguments(application: AppId, route: Route)
    ensures AppRoute(application, route).application == application
    ensures AppRoute(application, route).route == route
    ensures AppRoute(application, route).DelegatedDefaults() == route.defaults
    ensures AppRoute(application, route).DelegatedPath() == route.path
    ensures AppRoute(application, route).DelegatedVerb() == route.verb
  {
  }

  /** At most one position is the first mount. */
  lemma FirstMountUnique(routes: seq<Route>, a: AppId, i: int, j: int)
    requires IsFirstMount(routes, a, i) && IsFirstMount(routes, a, j)
    ensures i == j
  {
  }

  /**
   * Whatever route the application is mounted by, the prefix is that of the
   * first one in route-table order: later mounting routes are never used.
   */
  lemma FirstMountDeterminesPath(ar: AppRoute, base: Host, i: int)
    requires ar.application != base.id
    requires IsFirstMount(base.routes, ar.application, i)
    ensures ar.MountPath(base) == Some(PathText(base.routes[i].path))
  {
    var r := ar.MountPath(base);
    assert r.Some?;
    var k :| IsFirstMount(base.routes, ar.application, k) && r.value == PathText(base.routes[k].path);
    FirstMountUnique(base.routes, ar.application, i, k);
  }

  /**
   * The mount prefix follows the same spec-or-plain rule as `route_path`,
   * applied to the matching route of the base application.
   */
  lemma MountPrefixIsRoutePathOfMount(ar: AppRoute, base: Host)
    requires ar.MountPath(base).Some?
    ensures exists i ::
      && IsFirstMount(base.routes, ar.application, i)
      && ar.MountPath(base).value == AppRoute(base.id, base.routes[i]).RoutePath()
  {
    var i :| IsFirstMount(base.routes, ar.application, i)
      && ar.MountPath(base).value == PathText(base.routes[i].path);
    assert ar.MountPath(base).value == AppRoute(base.id, base.routes[i]).RoutePath();
  }

  /** Routes appended after a mounting route never change what `detect` finds. */
  lemma {:induction false} DetectIgnoresAppendedRoutes(routes: seq<Route>, extra: seq<Route>, a: AppId)
    requires DetectMount(routes, a).Some?
    ensures DetectMount(routes + extra, a) == DetectMount(routes, a)
    decreases |routes|
  {
    assert (routes + extra)[0] == routes[0];
    if !Mounts(routes[0], a) {
      assert (routes + extra)[1..] == routes[1..] + extra;
      DetectIgnoresAppendedRoutes(routes[1..], extra, a);
    }
  }

  /**
   * Routes placed before the table that do not target the application only
   * shift the position `detect` finds; they never hide or replace the match.
   */
  lemma {:induction false} DetectSkipsUnrelatedPrefix(prefix: seq<Route>, routes: seq<Route>, a: AppId)
    requires forall j :: 0 <= j < |prefix| ==> !Mounts(prefix[j], a)
    ensures DetectMount(prefix + routes, a) ==
      match DetectMount(routes, a)
      case None => None
      case Some(i) => Some(i + |prefix|)
    decreases |prefix|
  {
    if |prefix| == 0 {
      assert prefix + routes == routes;
    } else {
      var rest := prefix[1..] + routes;
      assert (prefix + routes)[0] == prefix[0];
      assert (prefix + routes)[1..] == rest;
      assert !Mounts(prefix[0], a);
      assert DetectMount(prefix + routes, a) ==
        match DetectMount(rest, a)
        case None => None
        case Some(i) => Some(i + 1);
      DetectSkipsUnrelatedPrefix(prefix[1..], routes, a);
    }
  }

  /**
   * Adding routes at the end of the base application's table never changes a
   * mount prefix that was already found.
   */
  lemma MountPathStableUnderAppend(ar: AppRoute, base: Host, extra: seq<Route>)
    requires ar.MountPath(base).Some?
    ensures ar.MountPath(Host(base.id, base.routes + extra)) == ar.MountPath(base)
  {
    DetectIgnoresAppendedRoutes(base.routes, extra, ar.application);
  }

  /**
   * A route that does not mount the application, inserted anywhere in the
   * table, never changes what `detect` finds; positions past it move by one.
   */
  lemma {:induction false} DetectSkipsNonMount(pre: seq<Route>, r: Route, post: seq<Route>, a: AppId)
    requires !Mounts(r, a)
    ensures DetectMount(pre + [r] + post, a) ==
      match DetectMount(pre + post, a)
      case None => None
      case Some(i) => Some(if i < |pre| then i else i + 1)
    decreases |pre|
  {
    if |pre| == 0 {
      assert pre + [r] + post == [r] + post;
      assert ([r] + post)[1..] == post;
      assert pre + post == post;
    } else {
      assert (pre + [r] + post)[0] == pre[0];
      assert (pre + [r] + post)[1..] == pre[1..] + [r] + post;
      assert (pre + post)[0] == pre[0];
      assert (pre + post)[1..] == pre[1..] + post;
      DetectSkipsNonMount(pre[1..], r, post, a);
    }
  }

  /**
   * Indirection is followed one level only: a route that reaches its target
   * through two or more wrappers, wherever it stands in the base table, has
   * no effect on the mount prefix.
   */
  lemma DeepMountIgnored(ar: AppRoute, id: AppId, pre: seq<Route>, deep: Route, post: seq<Route>)
    requires deep.app.Wrapper? && deep.app.inner.Wrapper?
    ensures ar.MountPath(Host(id, pre + [deep] + post)) == ar.MountPath(Host(id, pre + post))
  {
    DetectSkipsNonMount(pre, deep, post, ar.application);
    match DetectMount(pre + post, ar.application)
    case None =>
    case Some(i) =>
      if i < |pre| {
        assert (pre + [deep] + post)[i] == (pre + post)[i];
      } else {
        assert (pre + [deep] + post)[i + 1] == (pre + post)[i];
      }
  }

  /**
   * `mount_path` reads only the application and the base application:
   * two AppRoutes of the same application resolve to the same prefix
   * whatever their own routes.
   */
  lemma MountPathIndependentOfOwnRoute(ar1: AppRoute, ar2: AppRoute, base: Host)
    requires ar1.application == ar2.application
    ensures ar1.MountPath(base) == ar2.MountPath(base)
  {
  }
}
