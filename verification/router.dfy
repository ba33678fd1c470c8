/**
 * The router factory itself: it defaults the options, registers the stages on
 * a fresh router one `use` at a time (walking the document once, and throwing
 * at the first unsupported value), and exposes the render function, the
 * fallback and the error handler that act on a response.
 */
module RouterFactory {
  import opened Wrappers
  import opened JsValues
  import opened RouterOptions
  import opened Renderer
  import opened Routes

  /** The part of an Express response the router touches. */
  class Response {
    var status: int           // `res.statusCode`
    var data: JsValue         // `res.locals.data`, the result a handler attaches
    var reply: Option<Reply>  // what has been sent, if anything

    constructor ()
      ensures status == 200 && data == Undefined && reply == None
    {
      status := 200;
      data := Undefined;
      reply := None;
    }
  }

  /**
   * An Express router: its stages in registration order, the exposed store and
   * the options it closes over. `db` is the store's current state: the mounted
   * resource routers write to it after construction, so it is a variable.
   */
  class Router {
    var stages: seq<Stage>
    var db: Document
    const opts: Options

    constructor (db: Document, opts: Options)
      ensures stages == [] && this.db == db && this.opts == opts
    {
      stages := [];
      this.db := db;
      this.opts := opts;
    }

    /** `router.use(...)` / `router.get(...)`: registers one more stage after the others. */
    method Use(s: Stage)
      modifies this
      ensures stages == old(stages) + [s]
      ensures db == old(db)
    {
      stages := stages + [s];
    }

    /** The `GET /db` handler: the store's state at the time of the request, as JSON. */
    method DumpDb(res: Response)
      modifies res
      ensures res.reply == Some(Jsonp(DocumentObject(db)))
      ensures res.status == old(res.status) && res.data == old(res.data)
    {
      res.reply := Some(Jsonp(DocumentObject(db)));
    }

    /**
     * `router.render(req, res)`: sends the attached result as JSON(P) or, in
     * hypermedia mode, renders the template derived from the request. A failed
     * template lookup sends nothing and returns the error it throws.
     */
    method Render(req: Request, res: Response) returns (err: Option<RenderError>)
      modifies res
      ensures res.status == old(res.status) && res.data == old(res.data)
      ensures match Rendering(opts, req, res.data)
        case Success(r) => err == None && res.reply == Some(r)
        case Failure(e) => err == Some(e) && res.reply == old(res.reply)
    {
      if Truthy(Property(opts, HypermediaKey)) {
        var templateName, templateMethod := DeriveTemplate(req);
        var name := PropertyKey(templateName);
        match TemplatePath(Property(opts, TemplatesKey), name, templateMethod)
        case Some(p) =>
          res.reply := Some(View(p, res.data));
          err := None;
        case None =>
          err := Some(TemplateNotFound(name, templateMethod));
      } else {
        res.reply := Some(Jsonp(res.data));
        err := None;
      }
    }

    /**
     * The fallback stage: a response without a (truthy) result gets status 404
     * and the result `{}`; one with a result keeps both. Either way it is then
     * rendered.
     */
    method Fallback(req: Request, res: Response) returns (err: Option<RenderError>)
      modifies res
      ensures !Truthy(old(res.data)) ==> res.status == 404 && res.data == EmptyObject
      ensures Truthy(old(res.data)) ==> res.status == old(res.status) && res.data == old(res.data)
      ensures Truthy(res.data)
      ensures match Rendering(opts, req, res.data)
        case Success(r) => err == None && res.reply == Some(r)
        case Failure(e) => err == Some(e) && res.reply == old(res.reply)
    {
      if !Truthy(res.data) {
        res.status := 404;
        res.data := EmptyObject;
      }
      err := Render(req, res);
    }

    /** The error handler: status 500 and the error's stack trace as the body. */
    method HandleError(trace: string, res: Response)
      modifies res
      ensures res.status == 500 && res.reply == Some(Trace(trace))
      ensures res.data == old(res.data)
    {
      res.status := 500;
      res.reply := Some(Trace(trace));
    }

    /**
     * The end of the chain for a request that reaches the fallback: the
     * fallback runs, and an error it throws goes to the error handler, so the
     * request is always answered.
     */
    method Finish(req: Request, res: Response, trace: string)
      modifies res
      ensures res.reply.Some?
      ensures res.data == if Truthy(old(res.data)) then old(res.data) else EmptyObject
      ensures Rendering(opts, req, res.data).Success? ==>
        res.reply == Some(Rendering(opts, req, res.data).value) &&
        res.status == if Truthy(old(res.data)) then old(res.status) else 404
      ensures Rendering(opts, req, res.data).Failure? ==> res.status == 500 && res.reply == Some(Trace(trace))
    {
      var err := Fallback(req, res);
      if err.Some? {
        HandleError(trace, res);
      }
    }
  }

  /**
   * A request that no resource router answered, on a fresh response: it gets
   * status 404 and `{}` rendered, or, when the template lookup fails, status
   * 500 and the trace.
   */
  method AnswerUnmatched(router: Router, req: Request, trace: string) returns (status: int, reply: Reply)
    ensures !Truthy(Property(router.opts, HypermediaKey)) ==> status == 404 && reply == Jsonp(EmptyObject)
    ensures Rendering(router.opts, req, EmptyObject).Success? ==>
      status == 404 && reply == Rendering(router.opts, req, EmptyObject).value
    ensures Rendering(router.opts, req, EmptyObject).Failure? ==> status == 500 && reply == Trace(trace)
    ensures (status == 404 && (reply == Jsonp(EmptyObject) || (reply.View? && reply.top == EmptyObject)))
         || (status == 500 && reply == Trace(trace))
  {
    var res := new Response();
    router.Finish(req, res, trace);
    status, reply := res.status, res.reply.value;
  }

  /**
   * The exported factory: defaults the options, then registers method
   * override, body parsing, `GET /db` and the nested resolver, one router per
   * top-level key in document order, the fallback and the error handler. The
   * first key whose value is neither a plain object nor an array aborts
   * construction, and no router is returned.
   */
  method Build(db: Document, callerOpts: Options) returns (r: Result<Router, ConfigError>)
    ensures r.Success? <==> RouteTable(db).Success?
    ensures r.Success? ==> fresh(r.value) && r.value.stages == RouteTable(db).value
    ensures r.Success? ==> r.value.db == db && r.value.opts == WithDefaults(callerOpts)
    ensures r.Failure? ==> r.error == RouteTable(db).error
  {
    var opts := WithDefaults(callerOpts);
    var router := new Router(db, opts);
    router.Use(MethodOverride);
    router.Use(BodyParser);
    router.Use(DbDump);
    router.Use(Nested);
    var i := 0;
    while i < |db|
      invariant 0 <= i <= |db|
      invariant router.db == db
      invariant |router.stages| == 4 + i && router.stages[..4] == Head
      invariant forall j :: 0 <= j < i ==> Mount(db[j]) == Success(router.stages[4 + j])
    {
      var entry := db[i];
      if IsPlainObject(entry.value) {
        router.Use(Singular(entry.key));
      } else if IsArray(entry.value) {
        router.Use(Plural(entry.key));
      } else {
        assert FirstUnsupported(db, i) by {
          assert forall j :: 0 <= j < i ==> db[..i][j] == db[j];
        }
        RouteTableError(db, i);
        return Failure(UnsupportedType(entry.key, TypeOf(entry.value)));
      }
      i := i + 1;
    }
    router.Use(Fallback);
    router.Use(ErrorHandler);
    var ms := Mounts(db).value;
    assert router.stages[4..4 + |db|] == ms;
    assert router.stages == Head + ms + Tail;
    return Success(router);
  }
}
