/** The view decorators that restrict the accepted request methods
    (django/views/decorators/http.py).

    `require_http_methods(list)` returns a decorator; the decorator wraps a
    view in `inner`, which answers a request whose method is not in the list
    by raising an HttpResponseForbidden instead of calling the view. A view
    takes the request and its remaining arguments (`A`) and returns a
    response (`R`). */
module HttpDecorators {
  import opened Wrappers

  /** A request, as far as the decorators read it: its META dictionary. */
  datatype Request = Request(meta: map<string, string>)

  /** What calling a decorated view does: the view's response, or the
      HttpResponseForbidden raised in its place, with its content. */
  datatype Outcome<R> = Returned(response: R) | Forbidden(content: string)

  /** `request.META.get("REQUEST_METHOD", None)`. */
  function RequestMethod(request: Request): (m: Option<string>)
    ensures m.None? <==> "REQUEST_METHOD" !in request.meta
    ensures m.Some? ==> m.value == request.meta["REQUEST_METHOD"]
  {
    if "REQUEST_METHOD" in request.meta then Some(request.meta["REQUEST_METHOD"]) else None
  }

  /** `'%s' % method`: the text of a method, `None` for a missing one. */
  function MethodText(m: Option<string>): string
  {
    match m
    case None => "None"
    case Some(s) => s
  }

  /** `method in request_method_list`: exact membership, so None is in no
      list of strings. */
  predicate Allowed(allowed: seq<string>, m: Option<string>)
  {
    m.Some? && m.value in allowed
  }

  /** `inner`: the view's answer when the method is allowed, the forbidden
      response naming the method otherwise. */
  function Inner<A, R>(allowed: seq<string>, view: (Request, A) -> R, request: Request, args: A)
    : Outcome<R>
  {
    var m := RequestMethod(request);
    if !Allowed(allowed, m) then
      Forbidden("REQUEST_METHOD '" + MethodText(m) + "' not allowed")
    else Returned(view(request, args))
  }

  /** `require_http_methods(request_method_list)`: the decorator. */
  function RequireHttpMethods<A, R>(allowed: seq<string>): ((Request, A) -> R) -> ((Request, A) -> Outcome<R>)
  {
    (view: (Request, A) -> R) => (request: Request, args: A) => Inner(allowed, view, request, args)
  }

  /** `require_GET`. */
  function RequireGet<A, R>(): ((Request, A) -> R) -> ((Request, A) -> Outcome<R>)
  {
    RequireHttpMethods(["GET"])
  }

  /** `require_POST`. */
  function RequirePost<A, R>(): ((Request, A) -> R) -> ((Request, A) -> Outcome<R>)
  {
    RequireHttpMethods(["POST"])
  }

  /** A request whose META holds the given method. */
  function WithMethod(name: string): (request: Request)
    ensures RequestMethod(request) == Some(name)
  {
    Request(map["REQUEST_METHOD" := name])
  }

  // ---------------------------------------------------------------------------
  // Properties
  // ---------------------------------------------------------------------------

  /** The decorated view answers with the view's own response, for the same
      request and arguments, exactly when the request's method is in the
      list; otherwise it raises the forbidden response naming the method,
      and its answer does not depend on the view at all. */
  lemma Acceptance<A, R>(allowed: seq<string>, view: (Request, A) -> R, view': (Request, A) -> R,
                         request: Request, args: A)
    ensures var o := RequireHttpMethods(allowed)(view)(request, args);
      && (o == Returned(view(request, args)) <==>
            "REQUEST_METHOD" in request.meta && request.meta["REQUEST_METHOD"] in allowed)
      && (o.Forbidden? <==> !Allowed(allowed, RequestMethod(request)))
      && (o.Forbidden? ==>
            o.content == "REQUEST_METHOD '" + MethodText(RequestMethod(request)) + "' not allowed" &&
            RequireHttpMethods(allowed)(view')(request, args) == o)
  {
  }

  /** A request without a method is refused by every list, and the message
      shows `None`. */
  lemma MissingMethodRejected<A, R>(allowed: seq<string>, view: (Request, A) -> R,
                                    request: Request, args: A)
    requires "REQUEST_METHOD" !in request.meta
    ensures RequireHttpMethods(allowed)(view)(request, args) ==
            Forbidden("REQUEST_METHOD 'None' not allowed")
  {
  }

  /** Methods are compared exactly: a list holding only `GET` refuses `get`. */
  lemma CaseSensitive<A, R>(view: (Request, A) -> R, args: A)
    ensures RequireHttpMethods(["GET"])(view)(WithMethod("get"), args).Forbidden?
    ensures RequireHttpMethods(["GET"])(view)(WithMethod("GET"), args) ==
            Returned(view(WithMethod("GET"), args))
  {
    assert "get" != "GET" by {
      assert "get"[0] != "GET"[0];
    }
  }

  /** `require_GET` lets through exactly the GET requests and `require_POST`
      exactly the POST requests. */
  lemma FixedDecorators<A, R>(view: (Request, A) -> R, request: Request, args: A)
    ensures RequireGet()(view)(request, args).Returned? <==> RequestMethod(request) == Some("GET")
    ensures RequirePost()(view)(request, args).Returned? <==> RequestMethod(request) == Some("POST")
  {
  }
}
