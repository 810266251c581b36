# swagger-docs: route mount resolution and document queries

This project models two parts of the swagger-docs Ruby gem.

- `Swagger::Docs::AppRoute` pairs one Rails routing entry with the application that owns it. The application is either the base Rails application or a mounted engine. `AppRoute` resolves the entry's path and the prefix under which its application is mounted into the base application. `AppRoute` is pure, so the model is a datatype with member functions.
- The spec helpers are the query functions through which the generator's tests read a generated resource document: `get_api_paths`, `get_api_operations`, `get_api_operation` and `get_api_parameter`. The document follows the shape of the API Declaration object (Swagger 1.2, section 5.2). The filters are recursive functions. The two `each` loops with an early `return` are methods with `while` loops. Each loop is proved against a first-match specification.

Modules:

- `Optional` (`optional.dfy`): `Option`. Its `None` stands for Ruby's `nil`.
- `AppRoutes` (`app_route.dfy`): application identities, route targets, paths, routes, the base application (`Host`), `AppRoute`, and the lemmas about mount resolution.
- `SpecHelper` (`spec_helper.dfy`): parameters, operations, API entries, and the four query helpers.
- `BlogFixture` and `SampleFixture` (`fixtures.dfy`): the test topology and a document built so that two entries share one path, with the expectations the tests state about them.

Modelling choices:

- The global `Config.base_application` becomes an explicit `Host` argument. A `Host` is an application id plus its ordered route table.
- The duck-typed `defined?(path.spec)` check becomes a tagged path, `Structured(spec) | Plain(value)`.
- A route's `app` becomes `Target = App(id) | Wrapper(inner) | Endpoint(controller, action)`. The model assumes that only a `Wrapper` has an `app` that can be an application. Under that assumption the test `r.app == application || r.app.app == application` becomes "the target is `App(a)` or `Wrapper(App(a))`".
- `method.to_s` in `get_api_operation` is applied by the caller. The model receives the method's string form.
- `mount_path` consults only `Config.base_application` (lib/swagger/docs/app_route.rb:23-24). `MountPath` takes that one host as `base`.

## Model

| member | source | states |
|---|---|---|
| `AppRoutes.ConstructorStoresArguments` | lib/swagger/docs/app_route.rb:5-12 | the constructor keeps `application` and `route` as given; `defaults`, `path` and `verb` answer the route's own fields |
| `AppRoutes.AppRoute.RoutePath` | lib/swagger/docs/app_route.rb:14-20 | a structured path yields its spec, a plain path yields the path itself |
| `AppRoutes.DetectMount` | lib/swagger/docs/app_route.rb:24-26 | `detect` returns the position of the first route that targets the application directly or one wrapper deep; it returns none exactly when no route does |
| `AppRoutes.AppRoute.MountPath` | lib/swagger/docs/app_route.rb:22-34 | nil for the base application whatever its routes; otherwise non-nil iff some base route targets the application directly or one wrapper deep; the value is the spec-or-plain path of the first such route |
| `AppRoutes.FirstMountUnique` | lib/swagger/docs/app_route.rb:24-26 | at most one position is the first mounting route |
| `AppRoutes.FirstMountDeterminesPath` | lib/swagger/docs/app_route.rb:24-33 | for any application other than the base, the prefix is the path of the first mounting route; later mounting routes are never used |
| `AppRoutes.MountPrefixIsRoutePathOfMount` | lib/swagger/docs/app_route.rb:14-33 | a found prefix equals `route_path` of the matching base route, so both use the same spec-or-plain rule |
| `AppRoutes.DetectIgnoresAppendedRoutes` | lib/swagger/docs/app_route.rb:24-26 | appending routes after a match does not change what `detect` finds |
| `AppRoutes.DetectSkipsUnrelatedPrefix` | lib/swagger/docs/app_route.rb:24-26 | routes placed in front that do not target the application only shift the found position by their count |
| `AppRoutes.MountPathStableUnderAppend` | lib/swagger/docs/app_route.rb:22-34 | appending routes to the base application's table keeps a found mount prefix |
| `AppRoutes.DetectSkipsNonMount` | lib/swagger/docs/app_route.rb:24-26 | a non-mounting route inserted anywhere in the table never changes what `detect` finds; positions after it move by one |
| `AppRoutes.DeepMountIgnored` | lib/swagger/docs/app_route.rb:25-27 | a route two or more wrappers deep, placed anywhere in the base table, leaves the mount prefix unchanged |
| `AppRoutes.MountPathIndependentOfOwnRoute` | lib/swagger/docs/app_route.rb:22-34 | `mount_path` depends on the application and the base application only, never on the `AppRoute`'s own route |
| `SpecHelper.ApiPaths` | spec/spec_helper.rb:27-29 | each entry occurs in the result as often as in the input when its path matches, and never otherwise |
| `SpecHelper.ApiPathsAppend` | spec/spec_helper.rb:27-29 | selecting from a concatenation concatenates the selections, so document order is kept |
| `SpecHelper.ApiPathsIdempotent` | spec/spec_helper.rb:27-29 | selecting again by the same path changes nothing |
| `SpecHelper.Flatten` | spec/spec_helper.rb:33 | an operation is in the flattened list iff some entry lists it (order and repeats: `FlattenAppend`, `FlattenOne`) |
| `SpecHelper.FlattenAppend` | spec/spec_helper.rb:33 | flattening a concatenation concatenates the flattened lists |
| `SpecHelper.FlattenOne` | spec/spec_helper.rb:33 | a single entry flattens to exactly its own operations, in order and with repeats; with `FlattenAppend` this fixes the result as the in-order concatenation |
| `SpecHelper.ApiOperations` | spec/spec_helper.rb:31-34 | an operation is returned iff some entry with that path lists it; the result is empty when no entry has that path (order and repeats: `ApiOperationsAppend`, `ApiOperationsOne`) |
| `SpecHelper.ApiOperationsAppend` | spec/spec_helper.rb:31-34 | the operations of two concatenated documents are those of the first followed by those of the second |
| `SpecHelper.ApiOperationsOne` | spec/spec_helper.rb:31-34 | a one-entry document yields that entry's operations in order when its path matches, and nothing otherwise; with `ApiOperationsAppend` this fixes the result as the in-order concatenation of the matching entries' operations |
| `SpecHelper.GetApiOperation` | spec/spec_helper.rb:36-40 | returns the first operation at the path with the requested method; that operation is in `get_api_operations` and in an entry with that path; nil iff no operation at the path has the method |
| `SpecHelper.GetApiParameter` | spec/spec_helper.rb:42-45 | returns the first parameter with the requested name; it is one of the operation's parameters; nil iff no parameter has the name |
| `BlogFixture.BlogArticlesUnderBlog` | spec/lib/swagger/docs/generator_spec.rb:111-141 | the engine mounted at `/blog` resolves to prefix `/blog`; its route path is `/articles`; plain concatenation of the two gives the expected `/blog/articles` (the generator's join is assumed, not modelled) |
| `BlogFixture.MainRoutesHaveNoPrefix` | lib/swagger/docs/app_route.rb:23 | a route of the base application itself has no mount prefix |
| `BlogFixture.DirectMountResolvesSamePrefix` | lib/swagger/docs/app_route.rb:25 | an engine that is the route's `app` directly, with a plain path, resolves to the same prefix |
| `BlogFixture.EarlierOfTwoMountsWins` | lib/swagger/docs/app_route.rb:24-26 | an engine mounted at `/blog` and again at `/journal` resolves to `/blog` |
| `BlogFixture.DoublyWrappedEngineNotFound` | lib/swagger/docs/app_route.rb:25-27 | an engine wrapped two levels deep gets no prefix |
| `SampleFixture.SampleOperations` | spec/lib/swagger/docs/generator_spec.rb:331-332 | the operations at `/sample` are the index and the create operation, in that order |
| `SampleFixture.PatchSampleIsCreate` | spec/lib/swagger/docs/generator_spec.rb:407-408 | the PATCH lookup at `/sample` returns the create operation |
| `SampleFixture.BodyParameterOfCreate` | spec/lib/swagger/docs/generator_spec.rb:411-414 | the create operation's `body` parameter is found by name |
| `SampleFixture.UnslashedPathFindsNothing` | spec/lib/swagger/docs/generator_spec.rb:418-420 | when every path starts with `/`, a lookup at `sample` is nil for any method |

## Left out

- `generate` and `Generator.write_docs` (spec/spec_helper.rb:23-25): these write files. The generator's source is not part of this model, so its route matching, parameter and response shaping, parent-controller filtering and processed/skipped counts are not modelled.
- The RSpec configuration and the reset of `Config.base_api_controller` (spec/spec_helper.rb:11-21) are test-framework wiring.
- The global `Config.base_application` is not modelled as global state. `MountPath` takes the base application as an argument.
- Rails routing (spec/apps.rb) is reduced to the concrete route tables in `BlogFixture`. Those patterns omit Rails' `(.:format)` suffix. Removing that suffix is generator logic.
- The declaration DSL (spec/fixtures/controllers/blog/articles_controller.rb) is not part of this model. Its declarations appear only as the literal operations of `SampleFixture`.
- Immutability: `route` and `application` are set once and never reassigned, and `route_path`/`mount_path` only read. In a model built from values and functions nothing can be modified, so there is no separate "nothing changes" statement. `MountPathIndependentOfOwnRoute` states what `mount_path` reads.
- Document entries are typed records rather than Ruby hashes. A missing `"path"`, `"operations"`, `"method"`, `"parameters"` or `"name"` key, which Ruby would read as `nil`, cannot occur. `get_api_parameter` on a `nil` operation, which raises in Ruby, is excluded by its `Operation` argument.
- `GetApiOperation`: the requested method is passed as a string. Ruby's `to_s` conversion of the symbol is not modelled.
- MountPath: assumes every route target answers `app`. When `r.app` is not the application and has no `app` method, `detect` raises NoMethodError (lib/swagger/docs/app_route.rb:25). That error path is not modelled.
