/**
 * The test application topology: `Blog::Engine` routes `/articles` to
 * `articles#index`, and `Main::Application` mounts the engine at `/blog`
 * ahead of its own `api/v1` routes. Route patterns are written without the
 * `(.:format)` suffix Rails adds, whose removal belongs to the generator.
 */
module BlogFixture {
  import opened Optional
  import opened AppRoutes

  const MainId := AppId("Main::Application")
  const BlogId := AppId("Blog::Engine")

  /** `get "/articles", to: "articles#index"` inside the engine. */
  const ArticlesRoute := Route(
    Endpoint("blog/articles", "index"), Structured("/articles"), "GET",
    map["controller" := "blog/articles", "action" := "index"])

  /** `mount Blog::Engine, at: '/blog'`: a wrapper around the engine. */
  const BlogMount := Route(Wrapper(App(BlogId)), Structured("/blog"), "", map[])

  /** `get 'ignored', to: 'ignored#index'` in the `api/v1` namespace. */
  const IgnoredRoute := Route(
    Endpoint("api/v1/ignored", "index"), Structured("/api/v1/ignored"), "GET",
    map["controller" := "api/v1/ignored", "action" := "index"])

  /** `patch 'sample', to: 'sample#create'` in the `api/v1` namespace. */
  const SampleCreateRoute := Route(
    Endpoint("api/v1/sample", "create"), Structured("/api/v1/sample"), "PATCH",
    map["controller" := "api/v1/sample", "action" := "create"])

  const MainApp := Host(MainId, [BlogMount, IgnoredRoute, SampleCreateRoute])

  /**
   * The engine's articles route resolves to prefix `/blog` and route path
   * `/articles`. Joining the two into the documented path `/blog/articles`
   * is the generator's work: the last clause only shows that plain
   * concatenation of the two yields the path the tests expect; the join
   * itself is assumed, not modelled.
   */
  lemma BlogArticlesUnderBlog()
    ensures AppRoute(BlogId, ArticlesRoute).MountPath(MainApp) == Some("/blog")
    ensures AppRoute(BlogId, ArticlesRoute).RoutePath() == "/articles"
    ensures AppRoute(BlogId, ArticlesRoute).MountPath(MainApp).value
      + AppRoute(BlogId, ArticlesRoute).RoutePath() == "/blog/articles"
  {
    FirstMountDeterminesPath(AppRoute(BlogId, ArticlesRoute), MainApp, 0);
  }

  /** The base application's own routes carry no prefix. */
  lemma MainRoutesHaveNoPrefix()
    ensures AppRoute(MainId, SampleCreateRoute).MountPath(MainApp) == None
  {
  }

  /** Mounting the engine directly (`r.app` is the engine) resolves the same prefix. */
  lemma DirectMountResolvesSamePrefix()
    ensures AppRoute(BlogId, ArticlesRoute).MountPath(
      Host(MainId, [IgnoredRoute, Route(App(BlogId), Plain("/blog"), "", map[])])) == Some("/blog")
  {
    var base := Host(MainId, [IgnoredRoute, Route(App(BlogId), Plain("/blog"), "", map[])]);
    FirstMountDeterminesPath(AppRoute(BlogId, ArticlesRoute), base, 1);
  }

  /** Mounted twice, the engine takes the prefix of the earlier mount. */
  lemma EarlierOfTwoMountsWins()
    ensures AppRoute(BlogId, ArticlesRoute).MountPath(
      Host(MainId, [BlogMount, Route(Wrapper(App(BlogId)), Structured("/journal"), "", map[])])) == Some("/blog")
  {
    var base := Host(MainId, [BlogMount, Route(Wrapper(App(BlogId)), Structured("/journal"), "", map[])]);
    FirstMountDeterminesPath(AppRoute(BlogId, ArticlesRoute), base, 0);
  }

  /** An engine wrapped two levels deep is not found: no prefix. */
  lemma DoublyWrappedEngineNotFound()
    ensures AppRoute(BlogId, ArticlesRoute).MountPath(
      Host(MainId, [Route(Wrapper(Wrapper(App(BlogId))), Structured("/blog"), "", map[]), IgnoredRoute])) == None
  {
  }
}

/**
 * A document built so that two entries share the path `/sample` (one holding
 * an index operation, one a PATCH create operation) and a third sits at
 * `/sample/{id}`: it exercises the flattening of several entries at one path.
 * The operations echo those the tests look up; how the generator groups them
 * into entries is not modelled.
 */
module SampleFixture {
  import opened Optional
  import opened SpecHelper

  const PageParam := Parameter("query", "page", "integer", "Page number", false)
  const BodyParam := Parameter("body", "body", "json", "JSON formatted body", true)

  const IndexOp := Operation("get", "Api::V1::Sample#index", "Fetches all User items", [PageParam])
  const CreateOp := Operation("patch", "Api::V1::Sample#create", "Creates a new User", [BodyParam])
  const UpdateOp := Operation("put", "Api::V1::Sample#update", "Updates an existing User", [])

  const SampleApis := [
    Api("/sample", [IndexOp]),
    Api("/sample", [CreateOp]),
    Api("/sample/{id}", [UpdateOp])]

  /** The operations at `/sample`, in document order. */
  lemma SampleOperations()
    ensures ApiOperations(SampleApis, "/sample") == [IndexOp, CreateOp]
  {
    var a0, a1, a2 := SampleApis[0], SampleApis[1], SampleApis[2];
    assert SampleApis[1..] == [a1, a2];
    assert SampleApis[1..][1..] == [a2];
    assert [a2][1..] == [];
    assert ApiPaths([a2], "/sample") == [];
    assert ApiPaths([a1, a2], "/sample") == [a1];
    assert ApiPaths(SampleApis, "/sample") == [a0, a1];
    assert [a0, a1][1..] == [a1];
    assert [a1][1..] == [];
    assert Flatten([a1]) == [CreateOp];
    assert Flatten([a0, a1]) == [IndexOp, CreateOp];
  }

  /** The PATCH lookup at `/sample` finds the create operation. */
  method PatchSampleIsCreate() returns (r: Option<Operation>)
    ensures r == Some(CreateOp)
  {
    SampleOperations();
    r := GetApiOperation(SampleApis, "/sample", "patch");
    ghost var ops := ApiOperations(SampleApis, "/sample");
    assert ops[1].httpMethod == "patch";
    ghost var i :| IsFirstWithMethod(ops, "patch", i) && r.value == ops[i];
    assert ops[0].httpMethod != "patch";
  }

  /** The body parameter of the create operation is found by name. */
  method BodyParameterOfCreate() returns (r: Option<Parameter>)
    ensures r == Some(BodyParam)
  {
    r := GetApiParameter(CreateOp, "body");
    assert CreateOp.parameters[0].name == "body";
  }

  /**
   * A path written without its leading slash names no entry of a document
   * whose paths all start with `/`, so every method lookup there is `None`.
   */
  method UnslashedPathFindsNothing(apis: seq<Api>, m: string) returns (r: Option<Operation>)
    requires forall a :: a in apis ==> |a.path| > 0 && a.path[0] == '/'
    ensures r == None
  {
    r := GetApiOperation(apis, "sample", m);
    assert forall a :: a in apis ==> a.path != "sample" by {
      forall a | a in apis ensures a.path != "sample" {
        assert a.path[0] == '/';
      }
    }
  }
}
