/*
 * The identity CherryPy tool (gearshift/tools/identity.py): start-up checks,
 * the access-control enforcement loop run before each handler, and the
 * decorator that records tool options in a handler's `_cp_config`.
 */
module IdentityTool {
  import opened Common
  import opened Conditions

  const VisitRequiredMessage: Str := "Visit tracking must be enabled (tools.visit.on)"

  /** What `start_extension` does. */
  datatype Startup = Disabled | Started

  /**
   * `start_extension`: nothing when identity is off; a configuration error
   * when visit tracking is off; otherwise the identity model is created and
   * the visit plugin registered.
   */
  function StartExtension(identityOn: bool, visitOn: bool): (r: Result<Startup>)
    ensures !identityOn <==> r == Ok(Disabled)
    ensures identityOn && !visitOn <==> r == Err(IdentityConfigurationException(VisitRequiredMessage))
    ensures r == Ok(Started) <==> identityOn && visitOn
  {
    if !identityOn then Ok(Disabled)
    else if !visitOn then Err(IdentityConfigurationException(VisitRequiredMessage))
    else Ok(Started)
  }

  /** The predicates `before_handler` checks: the decorator's first, then the queued ones. */
  function PredicatesToCheck(require: Option<Pred>, queued: Option<seq<Pred>>): (r: seq<Pred>)
    ensures require.Some? ==> |r| >= 1 && r[0] == require.value
    ensures |r| == (if require.Some? then 1 else 0) + |queued.GetOr([])|
    ensures r[|r| - |queued.GetOr([])|..] == queued.GetOr([])
  {
    (if require.Some? then [require.value] else []) + queued.GetOr([])
  }

  /**
   * The checking loop of `before_handler`: each predicate is evaluated with a
   * fresh error list; the first failure ends the loop with that predicate's
   * messages (raised as IdentityFailure), later predicates are not evaluated.
   */
  method CheckPredicates(ps: seq<Pred>, env: Env) returns (failure: Option<seq<Str>>)
    ensures failure.None? <==> forall i :: 0 <= i < |ps| ==> Granted(ps[i], env)
    ensures failure.Some? ==>
              exists k :: 0 <= k < |ps| && !Granted(ps[k], env) &&
                (forall j :: 0 <= j < k ==> Granted(ps[j], env)) &&
                failure.value == Messages(ps[k], env)
  {
    var i := 0;
    while i < |ps|
      invariant 0 <= i <= |ps|
      invariant forall j :: 0 <= j < i ==> Granted(ps[j], env)
    {
      var outcome := Eval(ps[i], env, Some([]));
      EvalThreadsErrors(ps[i], env, Some([]));
      if !outcome.granted {
        return Some(outcome.errors.value);
      }
      i := i + 1;
    }
    return None;
  }

  /**
   * `before_handler`: checks the decorator's predicate and the queued
   * `tg_predicates`; on success the queue is reset to [], on failure it is
   * left as it was and the messages of the first predicate that fails, in
   * that order, are returned (to be raised as IdentityFailure).
   */
  method BeforeHandler(request: PredicateQueue, require: Option<Pred>, env: Env)
    returns (failure: Option<seq<Str>>)
    modifies request
    ensures failure.None? <==>
              forall p :: p in PredicatesToCheck(require, old(request.tgPredicates)) ==> Granted(p, env)
    ensures failure.None? ==> request.tgPredicates == Some([])
    ensures failure.Some? ==> request.tgPredicates == old(request.tgPredicates)
    ensures failure.Some? ==>
              var ps := PredicatesToCheck(require, old(request.tgPredicates));
              exists k :: 0 <= k < |ps| && !Granted(ps[k], env) &&
                (forall j :: 0 <= j < k ==> Granted(ps[j], env)) &&
                failure.value == Messages(ps[k], env)
    ensures require.Some? && !Granted(require.value, env) ==> failure == Some(Messages(require.value, env))
  {
    var ps := PredicatesToCheck(require, request.tgPredicates);
    failure := CheckPredicates(ps, env);
    if failure.None? {
      request.tgPredicates := Some([]);
    } else if require.Some? && !Granted(require.value, env) {
      var k :| 0 <= k < |ps| && !Granted(ps[k], env) &&
                (forall j :: 0 <= j < k ==> Granted(ps[j], env)) && failure.value == Messages(ps[k], env);
      assert k == 0;
    }
    assert forall p :: p in ps ==> exists i :: 0 <= i < |ps| && ps[i] == p;
  }

  const Namespace: Str := "tools.identity."

  /**
   * The `_cp_config` a handler gets from `identity.require(require, **kw)`:
   * `tools.identity.on` is True, then every keyword (with `require` added)
   * is recorded under `tools.identity.<key>`; positional arguments beyond
   * `require` raise TypeError.
   */
  function Decorate(existing: map<Str, Value>, require: Value, args: seq<Value>, kwargs: map<Str, Value>)
    : (r: Result<map<Str, Value>>)
    ensures r.Err? <==> args != []
    ensures r.Err? ==> r.exc.TypeError?
    ensures r.Ok? ==> Namespace + "require" in r.value && r.value[Namespace + "require"] == require
    ensures r.Ok? ==> forall k :: k in kwargs && k != "require" ==>
              Namespace + k in r.value && r.value[Namespace + k] == kwargs[k]
    ensures r.Ok? && "on" !in kwargs ==> Namespace + "on" in r.value && r.value[Namespace + "on"] == VBool(true)
    ensures r.Ok? ==> forall key :: key in existing && !StartsWith(key, Namespace) ==>
              key in r.value && r.value[key] == existing[key]
    ensures r.Ok? ==> forall key :: key in r.value && key !in existing ==> StartsWith(key, Namespace)
  {
    if args != [] then
      Err(TypeError("The 'identity' Tool does not accept positional arguments exept for 'require'; "
                    + "you must use keyword arguments."))
    else
      var kw := kwargs["require" := require];
      var recorded := PrefixKeys(Namespace, kw);
      var onKey := Namespace + "on";
      assert StartsWith(onKey, Namespace) && onKey[|Namespace|..] == "on";
      Ok(existing[onKey := VBool(true)] + recorded)
  }
}
