/*
 * `RestDispatcher.__call__` (gearshift/dispatch/restful.py): the Allow
 * header of a REST resource (section 7.4.1 of RFC 7231), the POST method
 * override, the choice among GET, GET_ONE and GET_ALL, the HEAD fallback,
 * and 405 (section 6.5.5 of RFC 7231) or 404 when nothing handles the
 * request, and the handler's own `_cp_config` merged into the request
 * config.
 *
 * A resource is the set of HTTP-method attributes it has, with the
 * `_cp_config` of those that carry one; CherryPy's
 * standard dispatch for callable resources, `find_handler` and the query
 * string parser are outside the model.
 */
module Restful {
  import opened Common

  /**
   * What `find_handler` found for the path: for a REST resource, the names
   * of its HTTP-method attributes and the `_cp_config` of the methods that
   * carry one.
   */
  datatype Resource = NoResource | CallableResource | Methods(names: set<Str>, configs: map<Str, map<Str, Value>>)

  /** The handler the dispatcher installs on the request. */
  datatype Handler =
    | StandardDispatch                     // CherryPy's ordinary dispatch
    | Page(name: Str, args: seq<Str>)      // the resource's method, with the virtual path
    | MethodNotAllowed                     // HTTPError(405)
    | NotFoundHandler                      // NotFound()

  /** Some GET handler exists. */
  predicate HasGet(names: set<Str>)
  {
    "GET" in names || "GET_ONE" in names || "GET_ALL" in names
  }

  /** A method name appears in the Allow header. */
  predicate Listed(names: set<Str>, m: Str)
  {
    ((m == "PUT" || m == "POST" || m == "DELETE") && m in names) || ((m == "GET" || m == "HEAD") && HasGet(names))
  }

  /** The Allow list in sorted order. */
  function Allowed(names: set<Str>): (r: seq<Str>)
    ensures forall m :: m in r <==> Listed(names, m)
    ensures forall i, j :: 0 <= i < j < |r| ==> r[i] != r[j]
  {
    (if "DELETE" in names then ["DELETE"] else []) +
    (if HasGet(names) then ["GET", "HEAD"] else []) +
    (if "POST" in names then ["POST"] else []) +
    (if "PUT" in names then ["PUT"] else [])
  }

  /** The five method names in their sorted order. */
  lemma CanonicalOrder()
    ensures LexLess("DELETE", "GET") && LexLess("GET", "HEAD") && LexLess("HEAD", "POST") && LexLess("POST", "PUT")
  {
    assert LexLess("DELETE", "GET");
    assert LexLess("GET", "HEAD");
    assert LexLess("HEAD", "POST");
    assert LexLess("POST", "PUT") by {
      assert "POST"[1..] == "OST" && "PUT"[1..] == "UT";
    }
  }

  /** `LexLess` is transitive. */
  lemma {:induction false} LexLessTrans(a: Str, b: Str, c: Str)
    requires LexLess(a, b) && LexLess(b, c)
    ensures LexLess(a, c)
    decreases |a|
  {
    if a != [] && b != [] && c != [] && a[0] == b[0] && b[0] == c[0] {
      LexLessTrans(a[1..], b[1..], c[1..]);
    }
  }

  /** The Allow list is strictly increasing, as `avail.sort()` leaves it. */
  lemma AllowedSorted(names: set<Str>)
    ensures forall i, j :: 0 <= i < j < |Allowed(names)| ==> LexLess(Allowed(names)[i], Allowed(names)[j])
  {
    CanonicalOrder();
    LexLessTrans("DELETE", "GET", "HEAD");
    LexLessTrans("DELETE", "HEAD", "POST");
    LexLessTrans("DELETE", "POST", "PUT");
    LexLessTrans("GET", "HEAD", "POST");
    LexLessTrans("GET", "POST", "PUT");
    LexLessTrans("HEAD", "POST", "PUT");
  }

  /**
   * The `avail` list before sorting: PUT, POST and DELETE where present,
   * then GET once if any GET handler exists, then HEAD whenever GET is
   * listed. It holds exactly the sorted list's elements.
   */
  method AvailableMethods(names: set<Str>) returns (avail: seq<Str>)
    ensures multiset(avail) == multiset(Allowed(names))
  {
    avail := Present(["PUT", "POST", "DELETE"], names);   // the list comprehension
    ghost var base := avail;
    var gets := ["GET", "GET_ONE", "GET_ALL"];
    var i := 0;
    ghost var found := false;
    while i < 3
      invariant 0 <= i <= 3
      invariant avail == base && forall j :: 0 <= j < i ==> gets[j] !in names
    {
      if gets[i] in names {
        avail := avail + ["GET"];
        found := true;
        break;                          // only one GET in the Allow header
      }
      i := i + 1;
    }
    assert avail == base + (if found then ["GET"] else []);
    assert found <==> HasGet(names) by {
      assert gets[0] == "GET" && gets[1] == "GET_ONE" && gets[2] == "GET_ALL";
    }
    HeadAppended(names, found, avail);
    if "GET" in avail && "HEAD" !in avail {
      avail := avail + ["HEAD"];
    }
  }

  /** The candidates of `xs` that have a handler, in order. */
  function Present(xs: seq<Str>, names: set<Str>): (r: seq<Str>)
  {
    if xs == [] then []
    else Present(xs[..|xs| - 1], names) + (if xs[|xs| - 1] in names then [xs[|xs| - 1]] else [])
  }

  /** Appending GET to a list without GET or HEAD gives one with GET and still without HEAD. */
  lemma AppendedGet(base: seq<Str>)
    requires "GET" !in base && "HEAD" !in base
    ensures "GET" in base + ["GET"] && "HEAD" !in base + ["GET"]
  {
    assert (base + ["GET"])[|base|] == "GET";
    assert forall m :: m in base + ["GET"] ==> m in base || m == "GET";
  }

  /** Neither GET nor HEAD is among the candidates. */
  lemma BaseLacksGet(names: set<Str>)
    ensures "GET" !in Present(["PUT", "POST", "DELETE"], names)
    ensures "HEAD" !in Present(["PUT", "POST", "DELETE"], names)
  {
    PresentOfCandidates(names);
  }

  /**
   * After the GET loop, HEAD is added exactly when GET was, and the list
   * is then a permutation of the Allow list.
   */
  lemma HeadAppended(names: set<Str>, found: bool, avail: seq<Str>)
    requires found <==> HasGet(names)
    requires avail == Present(["PUT", "POST", "DELETE"], names) + (if found then ["GET"] else [])
    ensures ("GET" in avail && "HEAD" !in avail) <==> found
    ensures multiset(avail + (if found then ["HEAD"] else [])) == multiset(Allowed(names))
  {
    var base := Present(["PUT", "POST", "DELETE"], names);
    BaseLacksGet(names);
    AppendedGet(base);
    PresentOfCandidates(names);
    var put: seq<Str> := if "PUT" in names then ["PUT"] else [];
    var post: seq<Str> := if "POST" in names then ["POST"] else [];
    var delete: seq<Str> := if "DELETE" in names then ["DELETE"] else [];
    var get: seq<Str> := if found then ["GET", "HEAD"] else [];
    assert avail + (if found then ["HEAD"] else []) == put + post + delete + get;
    assert Allowed(names) == delete + get + post + put;
    SumOfFour(put, post, delete, get);
  }

  /** Four pieces in either order make the same multiset. */
  lemma SumOfFour(a: seq<Str>, b: seq<Str>, c: seq<Str>, d: seq<Str>)
    ensures multiset(a + b + c + d) == multiset(c + d + b + a)
  {
    calc {
      multiset(a + b + c + d);
      multiset(a) + multiset(b) + multiset(c) + multiset(d);
      multiset(c) + multiset(d) + multiset(b) + multiset(a);
      multiset(c + d + b + a);
    }
  }

  /** PUT, POST and DELETE where present; they hold the non-GET part of the Allow list. */
  lemma PresentOfCandidates(names: set<Str>)
    ensures Present(["PUT", "POST", "DELETE"], names) ==
            (if "PUT" in names then ["PUT"] else []) + (if "POST" in names then ["POST"] else []) +
            (if "DELETE" in names then ["DELETE"] else [])
  {
    var xs := ["PUT", "POST", "DELETE"];
    var two: seq<Str> := ["PUT", "POST"];
    var one: seq<Str> := ["PUT"];
    assert xs[..|xs| - 1] == two && two[..|two| - 1] == one && one[..|one| - 1] == [];
    assert Present(one, names) == (if "PUT" in names then ["PUT"] else []);
    assert Present(two, names) == Present(one, names) + (if "POST" in names then ["POST"] else []);
    assert Present(xs, names) == Present(two, names) + (if "DELETE" in names then ["DELETE"] else []);
  }

  /** The Allow header: the sorted list joined with ", ". */
  function AllowHeader(names: set<Str>): (r: Str)
  {
    Join(Allowed(names), ", ")
  }

  /**
   * The handler name as written: GET becomes GET_ONE for a single-item
   * request when that exists and GET_ALL for another request when that
   * exists; a method without its handler is missing, except that HEAD
   * falls back to GET_ONE or GET_ALL (not to GET).
   */
  function HandlerNameAsWritten(meth: Str, getOne: bool, names: set<Str>): (r: Option<Str>)
    ensures r.Some? ==> r.value in names
    ensures meth == "HEAD" && meth !in names ==>
              r == (if getOne && "GET_ONE" in names then Some("GET_ONE")
                    else if !getOne && "GET_ALL" in names then Some("GET_ALL")
                    else None)
  {
    var m := if meth == "GET" && getOne && "GET_ONE" in names then "GET_ONE"
             else if meth == "GET" && !getOne && "GET_ALL" in names then "GET_ALL"
             else meth;
    if m in names then Some(m)
    else if m == "HEAD" then
      var fallback := if getOne then "GET_ONE" else "GET_ALL";
      if fallback in names then Some(fallback) else None
    else None
  }

  /**
   * The Allow header of a resource with only a GET method lists HEAD, yet
   * a HEAD request to it is answered with 405.
   */
  lemma HeadAdvertisedButRejected(getOne: bool)
    ensures Listed({"GET"}, "HEAD")
    ensures HandlerNameAsWritten("GET", getOne, {"GET"}) == Some("GET")
    ensures HandlerNameAsWritten("HEAD", getOne, {"GET"}).None?
  {
  }

  /** The handler GET selects for the request. */
  function GetHandler(getOne: bool, names: set<Str>): (r: Option<Str>)
    ensures r.Some? ==> r.value in names && (r.value == "GET" || r.value == "GET_ONE" || r.value == "GET_ALL")
    ensures r.None? <==> ((getOne && "GET_ONE" !in names) || (!getOne && "GET_ALL" !in names)) && "GET" !in names
  {
    if getOne && "GET_ONE" in names then Some("GET_ONE")
    else if !getOne && "GET_ALL" in names then Some("GET_ALL")
    else if "GET" in names then Some("GET")
    else None
  }

  /** The handler name, with HEAD falling back to whatever GET selects. */
  function HandlerName(meth: Str, getOne: bool, names: set<Str>): (r: Option<Str>)
    ensures r.Some? ==> r.value in names
    ensures meth == "GET" ==> r == GetHandler(getOne, names)
    ensures meth != "GET" && meth in names ==> r == Some(meth)
    ensures meth == "HEAD" && meth !in names ==> r == GetHandler(getOne, names)
    ensures meth != "GET" && meth != "HEAD" && meth !in names ==> r.None?
  {
    if meth == "GET" then GetHandler(getOne, names)
    else if meth in names then Some(meth)
    else if meth == "HEAD" then GetHandler(getOne, names)
    else None
  }

  /**
   * HEAD is served whenever GET is, and it differs from the code as
   * written only where that answered 405.
   */
  lemma HeadServedLikeGet(getOne: bool, names: set<Str>)
    ensures HandlerName("HEAD", getOne, names).Some? <==>
              "HEAD" in names || HandlerName("GET", getOne, names).Some?
    ensures HandlerNameAsWritten("HEAD", getOne, names).Some? ==>
              HandlerName("HEAD", getOne, names) == HandlerNameAsWritten("HEAD", getOne, names)
  {
  }

  /** Every method other than HEAD selects the same handler as the code as written. */
  lemma HandlerNameAgrees(meth: Str, getOne: bool, names: set<Str>)
    requires meth != "HEAD"
    ensures HandlerName(meth, getOne, names) == HandlerNameAsWritten(meth, getOne, names)
  {
  }

  /** "%2F" in the virtual-path atoms decoded to "/". */
  function DecodeSlashes(vpath: seq<Str>): (r: seq<Str>)
    ensures |r| == |vpath|
    ensures forall i :: 0 <= i < |vpath| ==> r[i] == Replace(vpath[i], "%2F", "/")
  {
    seq(|vpath|, i requires 0 <= i < |vpath| => Replace(vpath[i], "%2F", "/"))
  }

  /** The request and response attributes the dispatcher reads and writes. */
  class RestRequest {
    const httpMethod: Str
    const queryString: Str
    const restGetOne: bool          // set by `RestController._cp_dispatch`
    var params: map<Str, Value>
    var handler: Option<Handler>
    var allow: Option<Str>          // the response's Allow header
    var config: map<Str, Value>     // `request.config`

    constructor (httpMethod: Str, queryString: Str, restGetOne: bool, params: map<Str, Value>, config: map<Str, Value>)
      ensures this.httpMethod == httpMethod && this.queryString == queryString && this.restGetOne == restGetOne
      ensures this.params == params && handler.None? && allow.None? && this.config == config
    {
      this.httpMethod := httpMethod;
      this.queryString := queryString;
      this.restGetOne := restGetOne;
      this.params := params;
      handler := None;
      allow := None;
      this.config := config;
    }
  }

  /**
   * The parameters after the POST override is read: the query string is
   * merged in when it mentions `_method` and the parameters do not.
   */
  function OverrideParams(params: map<Str, Value>, queryString: Str, parseQuery: Str -> map<Str, Value>)
    : (r: map<Str, Value>)
    ensures Contains(queryString, "_method") && "_method" !in params ==> r == params + parseQuery(queryString)
    ensures !(Contains(queryString, "_method") && "_method" !in params) ==> r == params
  {
    if Contains(queryString, "_method") && "_method" !in params then params + parseQuery(queryString) else params
  }

  /** The handler bound for a selected handler name: its page with the decoded path, or 405. */
  function Target(name: Option<Str>, vpath: seq<Str>): (r: Handler)
    ensures r.Page? <==> name.Some?
    ensures name.Some? ==> r == Page(name.value, DecodeSlashes(vpath))
  {
    match name
    case Some(n) => Page(n, DecodeSlashes(vpath))
    case None => MethodNotAllowed
  }

  /**
   * The request config once the handler is installed: a page whose method
   * carries `_cp_config` has it merged in, its entries winning; a 405
   * handler or a method without one leaves the config as it was.
   */
  function HandlerConfig(config: map<Str, Value>, handler: Handler, configs: map<Str, map<Str, Value>>): (r: map<Str, Value>)
    ensures handler.Page? && handler.name in configs ==>
              r.Keys == config.Keys + configs[handler.name].Keys &&
              (forall k :: k in configs[handler.name] ==> r[k] == configs[handler.name][k]) &&
              (forall k :: k in config && k !in configs[handler.name] ==> r[k] == config[k])
    ensures !(handler.Page? && handler.name in configs) ==> r == config
  {
    if handler.Page? && handler.name in configs then config + configs[handler.name] else config
  }

  /**
   * `__call__`. A callable resource goes to standard dispatch and a missing
   * one to NotFound. Otherwise the Allow header is set; the method is the
   * request's, upper-cased, overridden for POST by a popped `_method`
   * parameter (a non-string one raises TypeError); its handler gets the
   * decoded virtual path, and a method without a handler gets 405; the
   * handler's `_cp_config` is then merged into the request config.
   */
  method Dispatch(req: RestRequest, resource: Resource, vpath: seq<Str>, parseQuery: Str -> map<Str, Value>)
    returns (r: Result<()>)
    modifies req
    ensures resource.NoResource? ==> r.Ok? && req.handler == Some(NotFoundHandler) &&
                                     req.params == old(req.params) && req.allow == old(req.allow) &&
                                     req.config == old(req.config)
    ensures resource.CallableResource? ==> r.Ok? && req.handler == Some(StandardDispatch) &&
                                           req.params == old(req.params) && req.allow == old(req.allow) &&
                                           req.config == old(req.config)
    ensures resource.Methods? && r.Ok? ==>
              req.handler.Some? && req.config == HandlerConfig(old(req.config), req.handler.value, resource.configs)
    ensures r.Err? ==> req.config == old(req.config)
    ensures resource.Methods? ==>
              var names := resource.names;
              req.allow == Some(AllowHeader(names)) &&
              (Upper(req.httpMethod) != "POST" ==>
                 r.Ok? && req.params == old(req.params) &&
                 req.handler == Some(Target(HandlerNameAsWritten(Upper(req.httpMethod), req.restGetOne, names), vpath))) &&
              (Upper(req.httpMethod) == "POST" ==>
                 var ps := OverrideParams(old(req.params), req.queryString, parseQuery);
                 req.params == ps - {"_method"} &&
                 ("_method" in ps && !ps["_method"].VStr? ==> r.Err? && r.exc.TypeError? && req.handler == old(req.handler)) &&
                 ("_method" in ps && ps["_method"].VStr? ==>
                    r.Ok? &&
                    req.handler == Some(Target(HandlerNameAsWritten(ps["_method"].s, req.restGetOne, names), vpath))) &&
                 ("_method" !in ps ==>
                    r.Ok? &&
                    req.handler == Some(Target(HandlerNameAsWritten("POST", req.restGetOne, names), vpath))))
  {
    match resource {
      case NoResource =>
        req.handler := Some(NotFoundHandler);
        return Ok(());
      case CallableResource =>
        req.handler := Some(StandardDispatch);
        return Ok(());
      case Methods(names, configs) =>
        var avail := AvailableMethods(names);
        req.allow := Some(AllowHeader(names));   // `avail.sort()`: the sorted arrangement of `avail`
        var meth := Upper(req.httpMethod);
        if meth == "POST" {
          req.params := OverrideParams(req.params, req.queryString, parseQuery);
          if "_method" in req.params {
            var v := req.params["_method"];
            req.params := req.params - {"_method"};
            if !v.VStr? {
              return Err(TypeError("getattr(): attribute name must be string"));
            }
            meth := v.s;
          }
        }
        var target := Target(HandlerNameAsWritten(meth, req.restGetOne, names), vpath);
        req.handler := Some(target);
        req.config := HandlerConfig(req.config, target, configs);
        return Ok(());
    }
  }
}
