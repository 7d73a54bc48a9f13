/*
 * The visit-tracking framework (gearshift/visit/api.py): the visit record,
 * the manager slot started and shut down with the application, the queue of
 * pending expiry updates a manager drains in the background, the tool's
 * options, the search for a visit key in the request and the visit cookie.
 *
 * Times are whole seconds; the clock, the key generator and
 * `time.strftime` are parameters.
 */
module VisitApi {
  import opened Common

  /** `Visit(key, is_new)` */
  datatype Visit = Visit(key: Str, isNew: bool)

  const DefaultManager: Str := "gearshift.visit.sovisit.SqlObjectVisitManager"

  /**
   * `_create_visit_manager`: the configured manager class (default the
   * SQLObject one) instantiated with the timeout. `load_class` answers None
   * when the module or the class is missing, and calling that None raises
   * TypeError; any exception `load_class` itself raises becomes RuntimeError.
   */
  function CreateVisitManager<M>(pluginName: Option<Str>, load: Str -> Result<Option<int -> M>>, timeout: int)
    : (r: Result<M>)
    ensures var path := pluginName.GetOr(DefaultManager);
            (r.Ok? <==> load(path).Ok? && load(path).value.Some?) &&
            (r.Ok? ==> r.value == load(path).value.value(timeout)) &&
            (load(path).Err? ==> r == Err(RuntimeError("VisitManager plugin missing: " + path))) &&
            (load(path) == Ok(None) ==> r.Err? && r.exc.TypeError?)
  {
    var path := pluginName.GetOr(DefaultManager);
    match load(path)
    case Err(_) => Err(RuntimeError("VisitManager plugin missing: " + path))
    case Ok(None) => Err(TypeError("'NoneType' object is not callable"))
    case Ok(Some(ctor)) => Ok(ctor(timeout))
  }

  /** The module-global `_manager`. */
  class ManagerSlot<M> {
    var manager: Option<M>

    constructor ()
      ensures manager.None?
    {
      manager := None;
    }

    /**
     * `VisitTool.start_extension`: nothing when visit tracking is off or a
     * manager is running; otherwise a manager is created with the timeout
     * (`tools.visit.timeout` minutes, default 20).
     */
    method StartExtension(visitOn: bool, timeoutMinutes: Option<int>, pluginName: Option<Str>,
                          load: Str -> Result<Option<int -> M>>)
      returns (r: Result<()>)
      modifies this`manager
      ensures !visitOn || old(manager).Some? ==> r.Ok? && manager == old(manager)
      ensures visitOn && old(manager).None? ==>
                var c := CreateVisitManager(pluginName, load, timeoutMinutes.GetOr(20) * 60);
                (c.Ok? ==> r.Ok? && manager == Some(c.value)) &&
                (c.Err? ==> r == Err(c.exc) && manager.None?)
    {
      if !visitOn || manager.Some? {
        return Ok(());
      }
      var c := CreateVisitManager(pluginName, load, timeoutMinutes.GetOr(20) * 60);
      if c.Err? {
        return Err(c.exc);
      }
      manager := Some(c.value);
      return Ok(());
    }

    /**
     * `shutdown_extension`: nothing without a manager; otherwise the
     * manager (returned, to be shut down) is removed from the slot.
     */
    method ShutdownExtension() returns (stopped: Option<M>)
      modifies this`manager
      ensures stopped == old(manager)
      ensures manager.None?
    {
      stopped := manager;
      manager := None;
    }
  }

  // ---------------------------------------------------------------------
  // Pending expiry updates

  /** The queue after a series of `update_visit` calls on an empty one. */
  function Pending(updates: seq<(Str, int)>): (q: map<Str, int>)
    decreases |updates|
  {
    if updates == [] then map[]
    else
      var last := updates[|updates| - 1];
      Pending(updates[..|updates| - 1])[last.0 := last.1]
  }

  /**
   * A key is pending iff some update named it, and it holds the expiry of
   * the latest such update.
   */
  lemma {:induction false} PendingLastWriteWins(updates: seq<(Str, int)>, k: Str)
    ensures k in Pending(updates) <==> exists i :: 0 <= i < |updates| && updates[i].0 == k
    ensures k in Pending(updates) ==>
              exists i :: 0 <= i < |updates| && updates[i].0 == k && Pending(updates)[k] == updates[i].1 &&
                          forall j :: i < j < |updates| ==> updates[j].0 != k
    decreases |updates|
  {
    if updates != [] {
      var n := |updates| - 1;
      var init := updates[..n];
      PendingLastWriteWins(init, k);
      if updates[n].0 != k {
        if k in Pending(init) {
          var i :| 0 <= i < |init| && init[i].0 == k && Pending(init)[k] == init[i].1 &&
                   forall j :: i < j < |init| ==> init[j].0 != k;
          assert updates[i] == init[i];
        }
        if exists i :: 0 <= i < |updates| && updates[i].0 == k {
          var i :| 0 <= i < |updates| && updates[i].0 == k;
          assert init[i] == updates[i];
        }
      }
    }
  }

  /** The pending queue of `BaseVisitManager`, guarded by its lock. */
  class VisitQueue {
    var queue: map<Str, int>

    constructor ()
      ensures queue == map[]
    {
      queue := map[];
    }

    /** `update_visit`: the latest expiry for a key replaces any earlier one. */
    method UpdateVisit(visitKey: Str, expiry: int)
      modifies this
      ensures queue == old(queue)[visitKey := expiry]
    {
      queue := queue[visitKey := expiry];
    }

    /**
     * One turn of `run`: a non-empty queue is handed over as a copy and
     * emptied; an empty one gives nothing to flush.
     */
    method Drain() returns (batch: Option<map<Str, int>>)
      modifies this
      ensures old(queue) == map[] ==> batch.None?
      ensures old(queue) != map[] ==> batch == Some(old(queue))
      ensures queue == map[]
    {
      if queue == map[] {
        return None;
      }
      batch := Some(queue);
      queue := map[];
    }
  }

  /** Updating one at a time builds exactly the queue `Pending` describes. */
  method ReplayUpdates(q: VisitQueue, updates: seq<(Str, int)>)
    modifies q
    requires q.queue == map[]
    ensures q.queue == Pending(updates)
  {
    var i := 0;
    while i < |updates|
      invariant 0 <= i <= |updates|
      invariant q.queue == Pending(updates[..i])
    {
      q.UpdateVisit(updates[i].0, updates[i].1);
      assert updates[..i + 1][..i] == updates[..i];
      i := i + 1;
    }
    assert updates[..i] == updates;
  }

  // ---------------------------------------------------------------------
  // The tool's options

  /** The keyword options of the visit tool (`tools.visit.*`), None where not given. */
  datatype ToolOptions = ToolOptions(
    source: Option<Str>,
    cookieName: Option<Str>,
    formName: Option<Str>,
    cookiePath: Option<Str>,
    cookieSecure: Option<bool>,
    cookieDomain: Option<Str>,
    cookiePermanent: Option<bool>,
    timeout: Option<Value>)

  /** The settings `before_handler` derives from the options. */
  datatype VisitConfig = VisitConfig(
    sources: seq<Str>, cookieName: Str, formName: Str, cookiePath: Str,
    cookieSecure: bool, cookieDomain: Option<Str>, maxAge: Option<int>)

  /** The source names: split on ',', each stripped and lower-cased. */
  function SourceNames(source: Str): (r: seq<Str>)
    ensures |r| == |Split(source, ',')|
    ensures forall i :: 0 <= i < |r| ==> r[i] == Lower(Strip(Split(source, ',')[i]))
  {
    var parts := Split(source, ',');
    seq(|parts|, i requires 0 <= i < |parts| => Lower(Strip(parts[i])))
  }

  /** `int(v)` for the timeout option; `bool` is an `int` subclass in Python. */
  function IntOf(v: Value): (r: Result<int>)
    ensures v.VInt? ==> r == Ok(v.i)
    ensures v.VBool? ==> r == Ok(if v.b then 1 else 0)
    ensures v.VStr? ==> r == ParseInt(v.s)
    ensures !v.VInt? && !v.VBool? && !v.VStr? ==> r.Err? && r.exc.TypeError?
  {
    match v
    case VInt(i) => Ok(i)
    case VBool(b) => Ok(if b then 1 else 0)
    case VStr(s) => ParseInt(s)
    case _ => Err(TypeError("int() argument must be a string or a number"))
  }

  /**
   * The cookie max-age: `timeout` minutes in seconds when the cookie is to
   * be permanent and that is non-zero, else none.
   */
  function MaxAge(permanent: bool, timeout: Value): (r: Result<Option<int>>)
    ensures !permanent ==> r == Ok(None)
    ensures permanent && IntOf(timeout).Err? ==> r == Err(IntOf(timeout).exc)
    ensures permanent && IntOf(timeout).Ok? ==>
              r == Ok(if IntOf(timeout).value == 0 then None else Some(IntOf(timeout).value * 60))
  {
    if !permanent then Ok(None)
    else match IntOf(timeout)
      case Err(e) => Err(e)
      case Ok(minutes) => if minutes * 60 == 0 then Ok(None) else Ok(Some(minutes * 60))
  }

  const LocalhostMessage: Str := "localhost is not a valid value for visit.cookie.domain. Try None instead."

  /**
   * The settings at the start of `before_handler`, with their defaults:
   * sources 'cookie', cookie 'tg-visit', form parameter 'tg_visit', path
   * '/', not secure, no domain (the domain 'localhost' fails an assertion)
   * and no max-age unless the cookie is permanent.
   */
  function Configure(opts: ToolOptions): (r: Result<VisitConfig>)
    ensures opts.cookieDomain == Some("localhost") ==> r == Err(AssertionError)
    ensures r.Ok? ==>
              r.value.sources == SourceNames(opts.source.GetOr("cookie")) &&
              r.value.cookieName == opts.cookieName.GetOr("tg-visit") &&
              r.value.formName == opts.formName.GetOr("tg_visit") &&
              r.value.cookiePath == opts.cookiePath.GetOr("/") &&
              r.value.cookieSecure == opts.cookieSecure.GetOr(false) &&
              r.value.cookieDomain == opts.cookieDomain &&
              Ok(r.value.maxAge) == MaxAge(opts.cookiePermanent.GetOr(false), opts.timeout.GetOr(VStr("20")))
    ensures r.Err? ==> opts.cookieDomain == Some("localhost") ||
                       MaxAge(opts.cookiePermanent.GetOr(false), opts.timeout.GetOr(VStr("20"))).Err?
  {
    if opts.cookieDomain == Some("localhost") then Err(AssertionError)
    else match MaxAge(opts.cookiePermanent.GetOr(false), opts.timeout.GetOr(VStr("20")))
      case Err(e) => Err(e)
      case Ok(maxAge) =>
        Ok(VisitConfig(SourceNames(opts.source.GetOr("cookie")), opts.cookieName.GetOr("tg-visit"),
                       opts.formName.GetOr("tg_visit"), opts.cookiePath.GetOr("/"),
                       opts.cookieSecure.GetOr(false), opts.cookieDomain, maxAge))
  }

  // ---------------------------------------------------------------------
  // Finding the visit key

  /** The key a source yields, and the params after asking it. */
  datatype KeySearch = KeySearch(key: Option<Str>, params: map<Str, Str>)

  /**
   * The source loop of `before_handler`: 'cookie' reads the request cookie,
   * 'form' pops the parameter (whatever it holds), other names yield
   * nothing; the first non-empty key ends the search.
   */
  function FindVisitKey(sources: seq<Str>, cookies: map<Str, Str>, params: map<Str, Str>, cfg: VisitConfig)
    : (r: KeySearch)
    ensures r.key.Some? ==> r.key.value != []
    ensures r.params.Keys <= params.Keys
    ensures forall k :: k in r.params ==> r.params[k] == params[k]
    ensures forall k :: k in params && k != cfg.formName ==> k in r.params
    ensures "form" !in sources ==> r.params == params
    decreases |sources|
  {
    if sources == [] then KeySearch(None, params)
    else if sources[0] == "cookie" && cfg.cookieName in cookies && cookies[cfg.cookieName] != [] then
      KeySearch(Some(cookies[cfg.cookieName]), params)
    else if sources[0] == "form" && cfg.formName in params && params[cfg.formName] != [] then
      KeySearch(Some(params[cfg.formName]), params - {cfg.formName})
    else
      var rest := if sources[0] == "form" then params - {cfg.formName} else params;
      assert "form" !in sources ==> "form" !in sources[1..];
      FindVisitKey(sources[1..], cookies, rest, cfg)
  }

  /** Only the cookie and form sources can yield a key; the first that does wins. */
  lemma {:induction false} FindVisitKeyFirst(sources: seq<Str>, cookies: map<Str, Str>, params: map<Str, Str>,
                                             cfg: VisitConfig)
    requires sources != []
    ensures sources[0] == "cookie" && cfg.cookieName in cookies && cookies[cfg.cookieName] != [] ==>
              FindVisitKey(sources, cookies, params, cfg).key == Some(cookies[cfg.cookieName])
    ensures sources[0] == "form" && cfg.formName in params && params[cfg.formName] != [] ==>
              FindVisitKey(sources, cookies, params, cfg) == KeySearch(Some(params[cfg.formName]), params - {cfg.formName})
    ensures sources[0] != "cookie" && sources[0] != "form" ==>
              FindVisitKey(sources, cookies, params, cfg) == FindVisitKey(sources[1..], cookies, params, cfg)
  {
  }

  /** Without cookie and form sources there is never a key. */
  lemma {:induction false} NoKnownSourceNoKey(sources: seq<Str>, cookies: map<Str, Str>, params: map<Str, Str>,
                                              cfg: VisitConfig)
    requires forall i :: 0 <= i < |sources| ==> sources[i] != "cookie" && sources[i] != "form"
    ensures FindVisitKey(sources, cookies, params, cfg) == KeySearch(None, params)
    decreases |sources|
  {
    if sources != [] {
      NoKnownSourceNoKey(sources[1..], cookies, params, cfg);
    }
  }

  // ---------------------------------------------------------------------
  // The visit cookie

  /**
   * A response cookie morsel; a fresh one has every attribute empty.
   * Assigning a value to a cookie name keeps the attributes of the morsel
   * already under that name.
   */
  datatype Cookie = Cookie(value: Str, path: Str, secure: bool, domain: Option<Str>,
                           expires: Str, maxAge: Option<int>)

  const FreshMorsel: Cookie := Cookie([], [], false, None, [], None)

  /** The response cookies, by name. */
  class ResponseCookies {
    var jar: map<Str, Cookie>

    constructor ()
      ensures jar == map[]
    {
      jar := map[];
    }

    /** The morsel a new value under `name` starts from. */
    function Morsel(name: Str): (c: Cookie)
      reads this
      ensures name in jar ==> c == jar[name]
      ensures name !in jar ==> c == FreshMorsel
    {
      if name in jar then jar[name] else FreshMorsel
    }

    /**
     * `send_cookie`: the key under the cookie name with the configured
     * path; 'secure' set only when configured and 'domain' only when
     * non-empty; with a max-age also that max-age and an 'expires' date
     * (rendered by `strftime` from now plus max-age, in double quotes).
     * Attributes not set keep their earlier value.
     */
    method SendCookie(cfg: VisitConfig, visitKey: Str, now: int, strftime: int -> Str)
      modifies this
      ensures jar.Keys == old(jar).Keys + {cfg.cookieName}
      ensures forall k :: k in old(jar) && k != cfg.cookieName ==> jar[k] == old(jar)[k]
      ensures var c := jar[cfg.cookieName];
              var before := old(Morsel(cfg.cookieName));
              c.value == visitKey && c.path == cfg.cookiePath &&
              c.secure == (cfg.cookieSecure || before.secure) &&
              c.domain == (if cfg.cookieDomain.Some? && cfg.cookieDomain.value != [] then cfg.cookieDomain
                           else before.domain) &&
              c.maxAge == (if cfg.maxAge.Some? then cfg.maxAge else before.maxAge) &&
              c.expires == (if cfg.maxAge.Some? then "\"" + strftime(now + cfg.maxAge.value) + "\""
                            else before.expires)
    {
      var c := Morsel(cfg.cookieName).(value := visitKey, path := cfg.cookiePath);
      if cfg.cookieSecure {
        c := c.(secure := true);
      }
      if cfg.cookieDomain.Some? && cfg.cookieDomain.value != [] {
        c := c.(domain := cfg.cookieDomain);
      }
      if cfg.maxAge.Some? {
        c := c.(expires := "\"" + strftime(now + cfg.maxAge.value) + "\"", maxAge := cfg.maxAge);
      }
      jar := jar[cfg.cookieName := c];
    }

    /**
     * `clear_cookie`: an empty value with the configured path, an empty
     * expiry and max-age 0; 'secure' and 'domain' keep their earlier value.
     */
    method ClearCookie(cfg: VisitConfig)
      modifies this
      ensures jar == old(jar)[cfg.cookieName :=
                old(Morsel(cfg.cookieName)).(value := [], path := cfg.cookiePath, expires := [], maxAge := Some(0))]
    {
      jar := jar[cfg.cookieName := Morsel(cfg.cookieName).(value := [], path := cfg.cookiePath, expires := [],
                                                           maxAge := Some(0))];
    }
  }
}
