# Router factory of hypermedia-server, modelled in Dafny

The router factory of hypermedia-server (`src/server/router/index.js`) turns an
in-memory JSON document into an Express router. It defaults its options, then
registers fixed stages: method override, body parsing, `GET /db` and the
nested-resource resolver. Next it walks the document's top-level entries once.
A plain object is mounted as a singular resource at `/key`. An array is mounted
as a plural resource at `/key`. Any other value aborts construction with an
error naming the key and its `typeof`. A fallback stage and an error handler
close the table. The fallback gives a request without a result status 404 and
the result `{}`. The exposed `render` function sends the result as JSON(P).
In hypermedia mode it instead renders a template, chosen by the first path
segment and by a method key derived from the HTTP verb and the number of path
components.

Modules, one per file:

- `Wrappers` (`wrappers.dfy`): `Option` and `Result`.
- `JsValues` (`js_values.dfy`): JavaScript values as a closed datatype, with
  truthiness, `typeof`, `_.isPlainObject` and `_.isArray`.
- `RouterOptions` (`options.dfy`): the option defaulting.
- `Paths` (`paths.dfy`): `endsWith('/')`/`slice(0, -1)` and `split('/')`, with
  `join` as the inverse of `split`.
- `Renderer` (`render.dfy`): the template name and template method derivation,
  and what `render` sends.
- `Routes` (`routes.dfy`): the route table as a specification. Stage tags,
  per-entry classification, the error and its message, and the `/db` dump.
- `RouterFactory` (`router.dfy`): the imperative part. A `Router` class whose
  `stages` grow one `Use` at a time, the `Build` loop with its early error
  return, and a `Response` class that the fallback, `render` and the error
  handler update in place.

Four behaviours of the code are easy to misread. The model keeps them as the
code has them:

- An empty template method (`PUT /posts`, `PATCH /posts/1`) is not turned into a
  distinct fault. The code looks up the property `""` of `templates[name]`, and
  this succeeds when that property holds a string.
- The classification accepts any array, not only arrays of objects.
- The fallback tests the attached result for falsiness (`!res.locals.data`).
  So a result of `0`, `""`, `false`, `null` or `NaN` is also replaced by `{}`
  with status 404, not only a missing one.
- When the path has a single component, the template name is `undefined`. It
  is then looked up under the property key `"undefined"`.

## Model

| member | source | states |
|---|---|---|
| RouterOptions.WithDefaults | src/server/router/index.js:17 | the result holds the caller's keys plus `foreignKeySuffix` and `_isFake`; every caller value wins (even `undefined`); the defaults `"Id"` and `false` appear only for keys the caller left out |
| RouterOptions.WithDefaultsIdempotent | src/server/router/index.js:17 | defaulting twice is the same as defaulting once |
| JsValues.Truthy | src/server/router/index.js:110-113 | the falsy values (which fail `if (opts.hypermedia)` and pass `!res.locals.data`) are exactly `undefined`, `null`, `false`, `0`, `NaN`, `0n` and `""`; every object and array, `{}` included, is truthy |
| JsValues.TypeOf | src/server/router/index.js:104 | `typeof` is `"object"` exactly for null, arrays and objects, and `"number"` exactly for numbers and NaN |
| Paths.TrimTrailingSlash | src/server/router/index.js:47-49 | a path ending in `/` loses exactly that one character (the result plus `/` is the path); any other path is unchanged; the result is a prefix at most one shorter |
| Paths.Split | src/server/router/index.js:50 | `split('/')` always yields at least one component |
| Paths.SplitLength | src/server/router/index.js:50 | there is one more component than there are slashes, so the leading empty component counts |
| Paths.SplitPiecesFree | src/server/router/index.js:50 | no component contains a slash |
| Paths.SplitWithoutSeparator | src/server/router/index.js:50 | a string without a slash is a single component |
| Paths.SplitAround | src/server/router/index.js:50 | splitting `a + "/" + b` gives the components of `a` followed by those of `b` |
| Paths.JoinSplit | src/server/router/index.js:50 | joining the components with `/` gives back the path |
| Paths.SplitJoin | src/server/router/index.js:50 | splitting joined slash-free components gives back the components |
| Renderer.Components | src/server/router/index.js:47-50 | the component count is the number of slashes in the trimmed path plus one |
| Renderer.TemplateName | src/server/router/index.js:50-51 | the template name is `components[1]`: defined exactly when there are at least two components, and then a segment without a slash |
| Renderer.TemplateKey | src/server/router/index.js:52-68 | the template method is one of `""`, `POST`, `GET-ALL`, `GET`, `PUT`, `DELETE`; each is chosen exactly when its row holds (POST with ≥2 components, GET with exactly 2, GET with ≥3, PUT or DELETE with ≥3), and `""` exactly when no row holds |
| Renderer.DeriveTemplate | src/server/router/index.js:47-68 | the source's trim, split and five guarded reassignments compute component 1 as the template name and the table's template method |
| Renderer.ReassignSingleMatch | src/server/router/index.js:52-68 | when at most one guarded assignment fires, the sequence ends with that assignment's value, or with the initial `""` if none fires |
| Renderer.RulesExclusive | src/server/router/index.js:54-68 | no two of the five guards hold for the same verb and count |
| Renderer.RuleAgreesWithTable | src/server/router/index.js:54-68 | a guard that fires assigns the table's entry |
| Renderer.TableEntryHasRule | src/server/router/index.js:54-68 | every non-empty table entry comes from a guard that fires |
| Renderer.AssignmentOrderIrrelevant | src/server/router/index.js:52-68 | running the five guarded assignments in any order, each once, yields the table's entry |
| Renderer.SourceOrderIsTable | src/server/router/index.js:52-68 | the source's order of assignments yields the table's entry |
| Renderer.TemplateNameIsFirstSegment | src/server/router/index.js:47-51 | for `/name` followed by nothing or by `/…`, with or without a trailing slash, the template name is `name`, the first segment after the leading slash |
| Renderer.TemplateNameDefined | src/server/router/index.js:47-51 | the template name is defined exactly when the trimmed path contains a slash |
| Renderer.CollectionPathComponents | src/server/router/index.js:47-50 | `/name` and `/name/` both split into `["", name]` |
| Renderer.ItemPathComponents | src/server/router/index.js:47-50 | `/name/id` splits into `["", name, id]` |
| Renderer.TemplatePath | src/server/router/index.js:70 | `opts.templates[name][templateMethod]` yields a template path exactly when both property reads go through plain objects and the second yields a string, and the path is that string |
| Renderer.Rendering | src/server/router/index.js:44-76 | without hypermedia the result is sent as JSON(P) unchanged; a successful render sends the result or binds it to `top`; rendering fails exactly when hypermedia is on and `templates[name][method]` is not a template path |
| Renderer.CollectionRequestRendersTemplate | src/server/router/index.js:46-72 | in hypermedia mode `GET /name` renders `templates[name]["GET-ALL"]` and `POST /name` renders `templates[name]["POST"]` (trailing slash or not), with `top` bound to the result; each fails when its entry is missing |
| Renderer.ItemRequestRendersVerb | src/server/router/index.js:46-72 | in hypermedia mode `GET`, `PUT`, `DELETE` or `POST /name/id` renders `templates[name][verb]`, and fails when that entry is missing |
| Renderer.UnlistedRequestLooksUpEmptyKey | src/server/router/index.js:46-72 | in hypermedia mode a verb/depth pair outside the table (`PUT /name`, `PATCH /name/id`) looks up the template under the empty key |
| Routes.Classify | src/server/router/index.js:88-96 | a value is a singleton exactly when it is a plain object, a collection exactly when it is an array, and unsupported exactly when it is neither |
| Routes.Message | src/server/router/index.js:98-105 | the error message contains the key and the value's `typeof` |
| Routes.Mount | src/server/router/index.js:87-107 | an entry mounts `Singular(key)` exactly when its value is a plain object and `Plural(key)` exactly when it is an array, at path `/key`; otherwise it fails with the key and its `typeof` |
| Routes.Mounts | src/server/router/index.js:87-108 | the per-key stages exist exactly when every entry is supported, and then there is one per entry, in document order; otherwise the error is that of an entry that is the first unsupported one |
| Routes.RouteTable | src/server/router/index.js:29-122 | the table exists exactly when every entry is supported, and then it is the four leading stages, one stage per entry, and the two closing stages; otherwise its error names the first unsupported entry's key and `typeof` |
| Routes.RouteTableError | src/server/router/index.js:98-107 | construction fails with the error of the first unsupported entry, and its message names that key and its `typeof` |
| Routes.RouteTableOrder | src/server/router/index.js:29-122 | on success the table is method override, body parser, `GET /db`, nested resolver, then one singular or plural stage per key in document order, then fallback and error handler last |
| Routes.RouteTableMountsEachKey | src/server/router/index.js:87-96 | the keys served by the per-key stages are the document's keys, in document order |
| Routes.MountsKeys | src/server/router/index.js:87-96 | the per-key stages alone serve the document's keys in order |
| Routes.OneMountPerKey | src/server/router/index.js:87-96 | with distinct keys, each document key is mounted exactly once and no other key is mounted |
| Routes.DbDumpFirst | src/server/router/index.js:79-94 | `GET /db` is registered before every per-key stage, so a document key named `db` cannot shadow it |
| Routes.DocumentObject | src/server/router/index.js:79-81 | the dumped document is a plain object |
| Routes.DocumentObjectFields | src/server/router/index.js:79-81 | the dumped object has exactly the document's keys, each with its own value |
| RouterFactory.Router.constructor | src/server/router/index.js:26 | a fresh router has no stages and holds the database and the options |
| RouterFactory.Router.Use | src/server/router/index.js:29-30 | registering a stage appends it after all earlier ones and leaves the store alone |
| RouterFactory.Router.DumpDb | src/server/router/index.js:79-81 | `GET /db` sends the store's current state (the router's `db` at the time of the request) as JSON, and changes neither the status nor the result |
| RouterFactory.Router.Render | src/server/router/index.js:44-76 | sends what `Rendering` prescribes for the attached result, and leaves status and result unchanged; a failed lookup sends nothing and returns the error |
| RouterFactory.Router.Fallback | src/server/router/index.js:110-117 | a falsy result becomes `{}` with status 404; a truthy result keeps both result and status; the response is then rendered in both cases |
| RouterFactory.Router.HandleError | src/server/router/index.js:119-122 | the error handler sets status 500 and sends the trace |
| RouterFactory.Router.Finish | src/server/router/index.js:110-122 | a request reaching the fallback is always answered: by the render of the (possibly defaulted) result, or with status 500 and the trace when the render throws |
| RouterFactory.AnswerUnmatched | src/server/router/index.js:110-122 | a request nothing handled, on a fresh response, gets status 404 and whatever rendering `{}` prescribes (JSON `{}` when hypermedia is off, the looked-up view with `top` bound to `{}` when it is on); when that template lookup fails it gets status 500 and the trace |
| RouterFactory.Build | src/server/router/index.js:16-124 | the factory returns a fresh router exactly when the route table exists, and its stages are that table; otherwise it returns the first unsupported key's error and no router; the router holds the document and the defaulted options |

## Left out

- Loading the document from a file path (`FileSync`) and wrapping a plain
  object in an in-memory lowdb instance (lines 19-23): persistence. The model
  takes the document's top-level entries directly.
- Routes.RouteTable: a document is the sequence of (key, value) pairs that
  the store's walk (lodash `forEach`, line 87) visits, not the object's own
  properties. The walk itself is not modelled. lodash walks an object with a
  non-negative integer `length` property as array-like. It then visits indices
  0 to length-1 instead of the object's keys. So `{"length": 0, "posts": []}`
  mounts nothing and succeeds. Applied to the object's own entries, the model
  would fail that document on `length`. JavaScript's rule that integer-like
  keys come first is not modelled either.
- RouterFactory.Router.DumpDb: sends whatever the router's `db` holds when the
  request arrives. The writes of the singular and plural routers, which change
  that state after construction, are not modelled. `Build` stores the document
  as given, and no modelled operation changes it.
- `validate-data` (line 32) is not part of this model. Neither are
  `lodash-id` and the project's mixins (lines 35-38).
- Method override, body parsing, the nested resolver, and the singular and
  plural routers are opaque. They appear only as stage tags.
- Requests are not dispatched through the stage table. Only the end of the
  chain is modelled (fallback, render, error handler).
- `path.join(process.cwd(), …)` (line 71) depends on the environment. A view
  carries the template path as it appears in the options.
- `res.jsonp` callback handling, the view engine and `console.error` (line 120)
  are framework calls and logging.
- Renderer.TemplatePath: looks through plain objects only, and needs a string
  at the leaf. A `templates` value (or `templates[name]`) that is an array, a
  function or another object carrying the property counts as a miss, and so
  do inherited properties.
- JsValues.JsValue: numbers are finite reals plus NaN. ±Infinity is not
  represented; it would behave like any non-zero number here.
- RouterOptions.WithDefaults: the caller's options are a map of own
  properties. `undefined` or `null` options are the empty map, as
  `Object.assign` skips them. A non-object options argument (a string, say) is
  not modelled.
