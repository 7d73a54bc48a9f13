/*
 * `VisitTool.before_handler` (gearshift/visit/api.py), run with the
 * SQLObject manager: every request ends up with a current visit, taken from
 * the request's visit key when that names a live visit and created under a
 * fresh key otherwise, and the visit cookie is sent for it.
 *
 * The key generator (`_generate_key`), the clock and `strftime` are
 * parameters; the visit plugins (the identity visitor, modelled in
 * `IdentityVisitor.RecordRequest`) are represented by what their loop
 * raised, if anything.
 */
module VisitTool {
  import opened Common
  import opened VisitApi
  import opened SoVisit

  /** The request attributes the tool reads and writes. */
  class VisitRequest {
    var visit: Option<Visit>         // `cherrypy.request.tg_visit`
    const cookies: map<Str, Str>     // the request cookie values, by name
    var params: map<Str, Str>
    var pathInfo: Str

    constructor (visit: Option<Visit>, cookies: map<Str, Str>, params: map<Str, Str>, pathInfo: Str)
      ensures this.visit == visit && this.cookies == cookies && this.params == params && this.pathInfo == pathInfo
    {
      this.visit := visit;
      this.cookies := cookies;
      this.params := params;
      this.pathInfo := pathInfo;
    }
  }

  /**
   * The end of `before_handler`: the plugins' loop. An InternalRedirect is
   * turned into a new path; anything else it raised propagates.
   */
  method AfterPlugins(req: VisitRequest, pluginRaised: Option<Exc>) returns (r: Result<()>)
    modifies req`pathInfo
    ensures pluginRaised.None? ==> r.Ok? && req.pathInfo == old(req.pathInfo)
    ensures pluginRaised.Some? && pluginRaised.value.InternalRedirect? ==>
              r.Ok? && req.pathInfo == pluginRaised.value.path
    ensures pluginRaised.Some? && !pluginRaised.value.InternalRedirect? ==>
              r == Err(pluginRaised.value) && req.pathInfo == old(req.pathInfo)
  {
    if pluginRaised.None? {
      return Ok(());
    }
    if pluginRaised.value.InternalRedirect? {
      req.pathInfo := pluginRaised.value.path;
      return Ok(());
    }
    return Err(pluginRaised.value);
  }

  /** A key found in the request that names a live visit. */
  predicate LiveKey(found: KeySearch, expiries: map<Str, int>, now: int)
  {
    found.key.Some? && Live(expiries, found.key.value, now)
  }

  /**
   * The middle of `before_handler` for a request without a visit: the
   * visit key is looked for in the configured sources; a key naming a live
   * visit gives that visit (its extension queued), any other outcome
   * creates a visit under `freshKey`; the cookie is sent for the visit's
   * key and the visit becomes current.
   */
  method EstablishVisit(cfg: VisitConfig, mgr: SoVisitManager, req: VisitRequest, resp: ResponseCookies,
                        now: int, freshKey: Str, strftime: int -> Str)
    returns (r: Result<()>)
    requires req.visit.None?
    modifies mgr`expiries, mgr.queue, req`visit, req`params, resp
    ensures var found := FindVisitKey(cfg.sources, req.cookies, old(req.params), cfg);
            req.params == found.params &&
            (LiveKey(found, old(mgr.expiries), now) ==>
               r.Ok? && req.visit == Some(Visit(found.key.value, false)) && mgr.expiries == old(mgr.expiries) &&
               mgr.queue.queue == old(mgr.queue.queue)[found.key.value := now + mgr.timeout]) &&
            (!LiveKey(found, old(mgr.expiries), now) ==>
               mgr.queue.queue == old(mgr.queue.queue) &&
               (freshKey in old(mgr.expiries) ==>
                  r == Err(IntegrityError) && req.visit.None? && resp.jar == old(resp.jar) &&
                  mgr.expiries == old(mgr.expiries)) &&
               (freshKey !in old(mgr.expiries) ==>
                  r.Ok? && req.visit == Some(Visit(freshKey, true)) &&
                  mgr.expiries == old(mgr.expiries)[freshKey := now + mgr.timeout]))
    ensures r.Ok? ==> req.visit.Some? && resp.jar.Keys == old(resp.jar).Keys + {cfg.cookieName} &&
                      resp.jar[cfg.cookieName].value == req.visit.value.key
  {
    var found := FindVisitKey(cfg.sources, req.cookies, req.params, cfg);
    req.params := found.params;
    var visit: Option<Visit> := None;
    if found.key.Some? {
      visit := mgr.VisitForKey(found.key.value, now);
    }
    if visit.None? {
      var created := mgr.NewVisitWithKey(freshKey, now);
      if created.Err? {
        return Err(created.exc);
      }
      visit := Some(created.value);
    }
    resp.SendCookie(cfg, visit.value.key, now, strftime);
    req.visit := visit;
    return Ok(());
  }

  /**
   * `before_handler`. The options are read first (a 'localhost' cookie
   * domain or a bad timeout fails before anything else). A request that
   * already has a visit keeps it, and nothing is looked up or sent;
   * otherwise a visit is established: the live visit its key names, or a
   * new one under `freshKey`. Then the plugins run: an InternalRedirect
   * changes the path and anything else they raise is returned.
   */
  method BeforeHandler(opts: ToolOptions, mgr: SoVisitManager, req: VisitRequest, resp: ResponseCookies,
                       now: int, freshKey: Str, strftime: int -> Str, pluginRaised: Option<Exc>)
    returns (r: Result<()>)
    modifies mgr`expiries, mgr.queue, req`visit, req`params, req`pathInfo, resp
    ensures Configure(opts).Err? ==>
              r == Err(Configure(opts).exc) && req.visit == old(req.visit) && req.params == old(req.params) &&
              mgr.expiries == old(mgr.expiries) && mgr.queue.queue == old(mgr.queue.queue) && resp.jar == old(resp.jar)
    ensures Configure(opts).Ok? && old(req.visit).Some? ==>
              req.visit == old(req.visit) && req.params == old(req.params) && mgr.expiries == old(mgr.expiries) &&
              mgr.queue.queue == old(mgr.queue.queue) && resp.jar == old(resp.jar)
    ensures Configure(opts).Ok? && old(req.visit).None? ==>
              req.params == FindVisitKey(Configure(opts).value.sources, req.cookies, old(req.params),
                                         Configure(opts).value).params
    ensures Configure(opts).Ok? && old(req.visit).None? ==>
              var cfg := Configure(opts).value;
              var found := FindVisitKey(cfg.sources, req.cookies, old(req.params), cfg);
              (LiveKey(found, old(mgr.expiries), now) ==>
                 req.visit == Some(Visit(found.key.value, false)) && mgr.expiries == old(mgr.expiries) &&
                 mgr.queue.queue == old(mgr.queue.queue)[found.key.value := now + mgr.timeout]) &&
              (!LiveKey(found, old(mgr.expiries), now) && freshKey in old(mgr.expiries) ==>
                 r == Err(IntegrityError) && req.visit.None? && resp.jar == old(resp.jar) &&
                 mgr.expiries == old(mgr.expiries) && mgr.queue.queue == old(mgr.queue.queue)) &&
              (!LiveKey(found, old(mgr.expiries), now) && freshKey !in old(mgr.expiries) ==>
                 req.visit == Some(Visit(freshKey, true)) && mgr.queue.queue == old(mgr.queue.queue) &&
                 mgr.expiries == old(mgr.expiries)[freshKey := now + mgr.timeout])
    ensures Configure(opts).Ok? && req.visit.Some? ==>
              (pluginRaised.Some? && !pluginRaised.value.InternalRedirect? ==> r == Err(pluginRaised.value)) &&
              (pluginRaised.None? || pluginRaised.value.InternalRedirect? ==> r.Ok?)
    ensures r.Ok? ==> Configure(opts).Ok? && req.visit.Some?
    ensures r.Ok? && old(req.visit).None? ==>
              Configure(opts).Ok? && req.visit.Some? && Configure(opts).value.cookieName in resp.jar &&
              resp.jar[Configure(opts).value.cookieName].value == req.visit.value.key
    ensures r.Ok? && (pluginRaised.None? || !pluginRaised.value.InternalRedirect?) ==>
              req.pathInfo == old(req.pathInfo)
    ensures r.Ok? && pluginRaised.Some? && pluginRaised.value.InternalRedirect? ==>
              req.pathInfo == pluginRaised.value.path
  {
    var conf := Configure(opts);
    if conf.Err? {
      return Err(conf.exc);
    }
    if req.visit.None? {
      r := EstablishVisit(conf.value, mgr, req, resp, now, freshKey, strftime);
      if r.Err? {
        return;
      }
    }
    r := AfterPlugins(req, pluginRaised);
  }
}
