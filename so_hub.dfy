/*
 * SQLObject connection hubs (gearshift/database/so/so.py): a package's hub
 * is found from "<package>.dburi" or "sqlobject.dburi", hubs are shared by
 * URI, and an `AutoConnectHub` wraps the thread's connection in a
 * transaction that is committed, rolled back or ended.
 *
 * Connections and transactions are identities; what the hub asks of them
 * (commit, rollback, expire, reopen) is recorded as events. The hub's state
 * is the current thread's: other threads are not modelled.
 */
module SoHub {
  import opened Common
  import Config

  /** A connection the thread holds: a plain connection or a transaction on one. */
  datatype Conn = Plain(id: nat) | Trans(id: nat)

  /** What the hub asked of a connection. */
  datatype HubEvent =
    | Opened(conn: Conn, trans: Conn)
    | Reopened(trans: Conn)
    | Committed(trans: Conn)
    | RolledBack(trans: Conn)
    | Expired(conn: Conn)

  /**
   * The thread-local state: `connection` and `old_conn` (None when the
   * attribute is unset), the transactions that are obsolete, and the events
   * so far.
   */
  datatype HubState = HubState(connection: Option<Conn>, oldConn: Option<Conn>, obsolete: set<nat>, events: seq<HubEvent>)

  /** The current connection is a live transaction. */
  predicate LiveTransaction(st: HubState)
  {
    st.connection.Some? && st.connection.value.Trans? && st.connection.value.id !in st.obsolete
  }

  /**
   * `begin(conn)`: without transaction support the connection is returned
   * as it is; an obsolete transaction is reopened; a plain connection is
   * remembered as `old_conn` and replaced by a new transaction `Trans(newId)`.
   */
  function BeginSpec(supportsTransactions: bool, st: HubState, conn: Conn, newId: nat): (r: (HubState, Conn))
    ensures !supportsTransactions ==> r == (st, conn)
    ensures supportsTransactions && conn.Plain? ==>
              r.1 == Trans(newId) && r.0.connection == Some(Trans(newId)) && r.0.oldConn == Some(conn) &&
              r.0.events == st.events + [Opened(conn, Trans(newId))]
    ensures supportsTransactions && conn.Trans? ==> r.1 == conn && r.0.connection == st.connection && r.0.oldConn == st.oldConn
    ensures supportsTransactions && conn.Trans? ==> conn.id !in r.0.obsolete
  {
    if !supportsTransactions then (st, conn)
    else if conn.Trans? then
      if conn.id in st.obsolete then (st.(obsolete := st.obsolete - {conn.id}, events := st.events + [Reopened(conn)]), conn)
      else (st, conn)
    else
      (st.(oldConn := Some(conn), connection := Some(Trans(newId)), events := st.events + [Opened(conn, Trans(newId))]), Trans(newId))
  }

  /** `commit`: a current transaction is committed; otherwise nothing happens. */
  function CommitSpec(supportsTransactions: bool, st: HubState): (r: HubState)
    ensures r.connection == st.connection && r.oldConn == st.oldConn && r.obsolete == st.obsolete
    ensures supportsTransactions && st.connection.Some? && st.connection.value.Trans? ==>
              r.events == st.events + [Committed(st.connection.value)]
    ensures !(supportsTransactions && st.connection.Some? && st.connection.value.Trans?) ==> r == st
  {
    if supportsTransactions && st.connection.Some? && st.connection.value.Trans? then
      st.(events := st.events + [Committed(st.connection.value)])
    else st
  }

  /** `rollback`: a current transaction that is not obsolete is rolled back; otherwise nothing happens. */
  function RollbackSpec(supportsTransactions: bool, st: HubState): (r: HubState)
    ensures r.connection == st.connection && r.oldConn == st.oldConn && r.obsolete == st.obsolete
    ensures supportsTransactions && LiveTransaction(st) ==> r.events == st.events + [RolledBack(st.connection.value)]
    ensures !(supportsTransactions && LiveTransaction(st)) ==> r == st
  {
    if supportsTransactions && LiveTransaction(st) then st.(events := st.events + [RolledBack(st.connection.value)])
    else st
  }

  /**
   * `end`: a current transaction is rolled back unless obsolete, and the
   * connection it was opened on becomes current again and is expired. With
   * no `old_conn` the restore raises AttributeError after the rollback.
   */
  function EndSpec(supportsTransactions: bool, st: HubState): (r: (HubState, Option<Exc>))
    ensures !(supportsTransactions && st.connection.Some? && st.connection.value.Trans?) ==> r == (st, None)
    ensures supportsTransactions && st.connection.Some? && st.connection.value.Trans? && st.oldConn.Some? ==>
              r.1.None? && r.0.connection == st.oldConn && r.0.oldConn.None? &&
              r.0.events == RollbackSpec(supportsTransactions, st).events + [Expired(st.oldConn.value)]
    ensures supportsTransactions && st.connection.Some? && st.connection.value.Trans? && st.oldConn.None? ==>
              r == (RollbackSpec(supportsTransactions, st), Some(AttributeError("old_conn")))
  {
    if !(supportsTransactions && st.connection.Some? && st.connection.value.Trans?) then (st, None)
    else
      var rolled := RollbackSpec(supportsTransactions, st);
      if rolled.oldConn.None? then (rolled, Some(AttributeError("old_conn")))
      else
        var old_ := rolled.oldConn.value;
        (rolled.(connection := Some(old_), oldConn := None, events := rolled.events + [Expired(old_)]), None)
  }

  /** Without transaction support, `commit`, `rollback` and `end` change nothing. */
  lemma NoTransactionsNoEffect(st: HubState)
    ensures CommitSpec(false, st) == st && RollbackSpec(false, st) == st && EndSpec(false, st) == (st, None)
  {
  }

  /**
   * A transaction begun on a plain connection and ended without commit is
   * rolled back, and the plain connection is current again, expired.
   */
  lemma BeginEndRestores(st: HubState, conn: Conn, newId: nat)
    requires conn.Plain? && newId !in st.obsolete
    ensures var (begun, t) := BeginSpec(true, st, conn, newId);
            var (ended, err) := EndSpec(true, begun);
            err.None? && ended.connection == Some(conn) && ended.oldConn.None? &&
            ended.events == st.events + [Opened(conn, t), RolledBack(t), Expired(conn)]
  {
  }

  /** A committed transaction that is ended is rolled back after the commit, then the connection restored. */
  lemma BeginCommitEnd(st: HubState, conn: Conn, newId: nat)
    requires conn.Plain? && newId !in st.obsolete
    ensures var (begun, t) := BeginSpec(true, st, conn, newId);
            var (ended, err) := EndSpec(true, CommitSpec(true, begun));
            err.None? && ended.connection == Some(conn) &&
            ended.events == st.events + [Opened(conn, t), Committed(t), RolledBack(t), Expired(conn)]
  {
  }

  /** An obsolete transaction is not rolled back by `end`, only replaced by its connection. */
  lemma EndObsoleteSkipsRollback(st: HubState)
    requires st.connection.Some? && st.connection.value.Trans? && st.connection.value.id in st.obsolete && st.oldConn.Some?
    ensures EndSpec(true, st).0.events == st.events + [Expired(st.oldConn.value)]
  {
  }

  /** `AutoConnectHub`: one database URI and the current thread's connection. */
  class AutoConnectHub {
    const uri: Str
    const supportsTransactions: bool
    var connection: Option<Conn>
    var oldConn: Option<Conn>
    var obsolete: set<nat>
    var events: seq<HubEvent>

    constructor (uri: Str, supportsTransactions: bool)
      ensures this.uri == uri && this.supportsTransactions == supportsTransactions
      ensures connection.None? && oldConn.None? && obsolete == {} && events == []
    {
      this.uri := uri;
      this.supportsTransactions := supportsTransactions;
      connection := None;
      oldConn := None;
      obsolete := {};
      events := [];
    }

    function State(): (r: HubState)
      reads this
      ensures r.connection == connection && r.oldConn == oldConn && r.obsolete == obsolete && r.events == events
    {
      HubState(connection, oldConn, obsolete, events)
    }

    /** `begin(conn)` with a connection given; `newId` names the transaction a plain connection opens. */
    method Begin(conn: Conn, newId: nat) returns (r: Conn)
      modifies this
      ensures (State(), r) == BeginSpec(supportsTransactions, old(State()), conn, newId)
    {
      if !supportsTransactions {
        return conn;
      }
      if conn.Trans? {
        if conn.id in obsolete {
          obsolete := obsolete - {conn.id};
          events := events + [Reopened(conn)];
        }
        return conn;
      }
      oldConn := Some(conn);
      r := Trans(newId);
      connection := Some(r);
      events := events + [Opened(conn, r)];
    }

    method Commit()
      modifies this
      ensures State() == CommitSpec(supportsTransactions, old(State()))
    {
      if !supportsTransactions {
        return;
      }
      if connection.None? {
        return;
      }
      if connection.value.Trans? {
        events := events + [Committed(connection.value)];
      }
    }

    method Rollback()
      modifies this
      ensures State() == RollbackSpec(supportsTransactions, old(State()))
    {
      if !supportsTransactions {
        return;
      }
      if connection.None? {
        return;
      }
      if connection.value.Trans? && connection.value.id !in obsolete {
        events := events + [RolledBack(connection.value)];
      }
    }

    /** `end`; the result is the exception raised, if any. */
    method End() returns (err: Option<Exc>)
      modifies this
      ensures (State(), err) == EndSpec(supportsTransactions, old(State()))
    {
      if !supportsTransactions {
        return None;
      }
      if connection.None? {
        return None;
      }
      var conn := connection.value;
      if !conn.Trans? {
        return None;
      }
      if conn.id !in obsolete {
        events := events + [RolledBack(conn)];
      }
      if oldConn.None? {
        return Some(AttributeError("old_conn"));
      }
      connection := oldConn;
      oldConn := None;
      events := events + [Expired(connection.value)];
      return None;
    }
  }

  /** The URI a package's hub uses, and whether its hub has transactions. */
  datatype DbUri = DbUri(uri: Str, transactions: bool)

  const NoTransPrefix: Str := "notrans_"

  /**
   * The URI lookup of `set_hub`: "<package>.dburi" if set, else
   * "sqlobject.dburi", else KeyError; a "notrans_" prefix is removed and
   * turns transactions off.
   */
  function ResolveDbUri(packagename: Str, settings: map<Str, Value>): (r: Result<DbUri>)
    ensures var own := DictGet(settings, packagename + ".dburi", VNone);
            var fallback := DictGet(settings, "sqlobject.dburi", VNone);
            var chosen := if Truthy(own) then own else fallback;
            (!Truthy(own) && !Truthy(fallback) ==> r == Err(KeyError("No database configuration found!"))) &&
            (Truthy(chosen) && !chosen.VStr? ==> r.Err?) &&
            (chosen.VStr? && chosen.s != [] && StartsWith(chosen.s, NoTransPrefix) ==>
               r == Ok(DbUri(chosen.s[|NoTransPrefix|..], false))) &&
            (chosen.VStr? && chosen.s != [] && !StartsWith(chosen.s, NoTransPrefix) ==> r == Ok(DbUri(chosen.s, true)))
  {
    var own := DictGet(settings, packagename + ".dburi", VNone);
    var dburi := if Truthy(own) then own else DictGet(settings, "sqlobject.dburi", VNone);
    if !Truthy(dburi) then Err(KeyError("No database configuration found!"))
    else if !dburi.VStr? then Err(AttributeError("startswith"))
    else if StartsWith(dburi.s, NoTransPrefix) then Ok(DbUri(dburi.s[|NoTransPrefix|..], false))
    else Ok(DbUri(dburi.s, true))
  }

  /**
   * The hub cache is keyed by the URI after the prefix is removed, so a
   * "notrans_" URI and the same URI without it share one hub, whichever
   * was asked for first.
   */
  lemma NoTransSharesCacheKey(p: Str, q: Str, settingsP: map<Str, Value>, settingsQ: map<Str, Value>, uri: Str)
    requires uri != []
    requires settingsP == map[p + ".dburi" := VStr(NoTransPrefix + uri)]
    requires settingsQ == map[q + ".dburi" := VStr(uri)]
    requires !StartsWith(uri, NoTransPrefix)
    ensures ResolveDbUri(p, settingsP) == Ok(DbUri(uri, false))
    ensures ResolveDbUri(q, settingsQ) == Ok(DbUri(uri, true))
  {
    assert (NoTransPrefix + uri)[..|NoTransPrefix|] == NoTransPrefix;
    assert (NoTransPrefix + uri)[|NoTransPrefix|..] == uri;
  }

  /** The hubs created so far, by URI (`_hubs`). */
  class HubCache {
    var hubs: map<Str, AutoConnectHub>

    constructor ()
      ensures hubs == map[]
    {
      hubs := map[];
    }
  }

  /** `PackageHub`: a package's hub, found on first use. */
  class PackageHub {
    const packagename: Str
    var hub: Option<AutoConnectHub>

    constructor (packagename: Str)
      ensures this.packagename == packagename && hub.None?
    {
      this.packagename := packagename;
      hub := None;
    }

    /**
     * `set_hub`: the hub for the package's URI, the cached one when the
     * URI already has a hub, otherwise a new hub, which is cached.
     */
    method SetHub(settings: map<Str, Value>, cache: HubCache) returns (r: Result<()>)
      modifies this, cache
      ensures ResolveDbUri(packagename, settings).Err? ==>
                r == Err(ResolveDbUri(packagename, settings).exc) && hub == old(hub) && cache.hubs == old(cache.hubs)
      ensures ResolveDbUri(packagename, settings).Ok? ==>
                var d := ResolveDbUri(packagename, settings).value;
                r.Ok? && hub.Some? &&
                (d.uri in old(cache.hubs) ==> hub.value == old(cache.hubs)[d.uri] && cache.hubs == old(cache.hubs)) &&
                (d.uri !in old(cache.hubs) ==>
                   fresh(hub.value) && hub.value.uri == d.uri && hub.value.supportsTransactions == d.transactions &&
                   cache.hubs == old(cache.hubs)[d.uri := hub.value])
    {
      var resolved := ResolveDbUri(packagename, settings);
      if resolved.Err? {
        return Err(resolved.exc);
      }
      var d := resolved.value;
      if d.uri in cache.hubs {
        hub := Some(cache.hubs[d.uri]);
      } else {
        var h := new AutoConnectHub(d.uri, d.transactions);
        cache.hubs := cache.hubs[d.uri := h];
        hub := Some(h);
      }
      return Ok(());
    }
  }

  /** The config key `set_db_uri` writes: the package's when a package is named, else the default. */
  function DbUriKey(package: Option<Str>): (r: Str)
    ensures package.Some? && package.value != [] ==> r == package.value + ".dburi"
    ensures !(package.Some? && package.value != []) ==> r == "sqlobject.dburi"
  {
    if package.Some? && package.value != [] then package.value + ".dburi" else "sqlobject.dburi"
  }

  /** `set_db_uri`: the URI is given to `config.update` under its key. */
  method SetDbUri(store: Config.ConfigStore, dburi: Value, package: Option<Str>, configureLoggers: Config.LoggerSetup)
    returns (err: Option<Exc>)
    modifies store
    ensures Config.Applied(store.State(), err) ==
            Config.UpdateFold(old(store.State()), map[DbUriKey(package) := dburi], [DbUriKey(package)], configureLoggers)
  {
    var key := DbUriKey(package);
    err := store.Update(map[key := dburi], [key], configureLoggers);
  }

  /** ".dburi" keys are never application sections, the logging key or 'visit.on'. */
  lemma DbUriKeyIsPlain(package: Option<Str>)
    ensures !StartsWith(DbUriKey(package), "/") || (package.Some? && package.value != [] && package.value[0] == '/')
    ensures DbUriKey(package) != "logging" && DbUriKey(package) != "visit.on"
  {
    var k := DbUriKey(package);
    assert k[|k| - 1] == 'i';
    assert "logging"[6] != 'i' && "visit.on"[7] != 'i';
    if package.Some? && package.value != [] {
      assert k[0] == package.value[0];
    } else {
      assert k[0] != '/';
    }
  }

  /**
   * A URI set with `set_db_uri` is what the package's hub then uses outside a
   * request: under the package's own key, or under the default key when no
   * package is named and the package has no key of its own.
   */
  lemma SetDbUriThenResolve(st: Config.ConfigState, uri: Str, package: Option<Str>, packagename: Str,
                            configureLoggers: Config.LoggerSetup)
    requires uri != [] && !StartsWith(uri, NoTransPrefix)
    requires package.Some? && package.value != [] ==> package.value[0] != '/' && package.value == packagename
    requires !(package.Some? && package.value != []) ==>
               !Truthy(DictGet(st.server, packagename + ".dburi", VNone)) && packagename + ".dburi" != "sqlobject.dburi"
    ensures var r := Config.UpdateFold(st, map[DbUriKey(package) := VStr(uri)], [DbUriKey(package)], configureLoggers);
            r.exc.None? && ResolveDbUri(packagename, r.state.server) == Ok(DbUri(uri, true))
  {
    var key := DbUriKey(package);
    DbUriKeyIsPlain(package);
    var r := Config.ApplyItem(st, key, VStr(uri), configureLoggers);
    assert Config.UpdateFold(st, map[key := VStr(uri)], [key], configureLoggers) ==
           Config.UpdateFold(r.state, map[key := VStr(uri)], [], configureLoggers);
    assert r.state.server == st.server[key := VStr(uri)];
  }

  /** `_is_interesting_version`: MySQLdb older than 1.2. */
  function IsInterestingVersion(major: int, minor: int): (r: bool)
  {
    major < 1 || (major == 1 && minor < 2)
  }

  /** Version tuples compared as Python compares them. */
  predicate VersionLess(a: (int, int), b: (int, int))
  {
    a.0 < b.0 || (a.0 == b.0 && a.1 < b.1)
  }

  /** The version test is exactly "(major, minor) < (1, 2)", so it holds for every earlier version too. */
  lemma InterestingVersionOrder(major: int, minor: int, major2: int, minor2: int)
    ensures IsInterestingVersion(major, minor) <==> VersionLess((major, minor), (1, 2))
    ensures VersionLess((major2, minor2), (major, minor)) && IsInterestingVersion(major, minor) ==>
              IsInterestingVersion(major2, minor2)
  {
  }
}
