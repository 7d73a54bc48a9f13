/*
 * Identity predicates (gearshift/identity/conditions.py).
 *
 * A predicate is evaluated against the current identity and, for host
 * checks, the request headers. Evaluation threads an optional error list:
 * `None` means "do not collect messages", `Some(l)` is the caller's list,
 * to which failing leaf predicates and failing `Any` predicates append one
 * message each.
 */
module Conditions {
  import opened Common

  /** The identity attributes the predicates read. */
  datatype Principal = Principal(groups: set<Str>, permissions: set<Str>, anonymous: bool)

  /**
   * Evaluation context: the identity, the request's remote address (see
   * `RemoteHost`, the same for every predicate of one request) and the
   * host-matching function of gearshift.util (not part of this model).
   */
  datatype Env = Env(who: Principal, remoteAddr: Str, matchIp: (Str, Str) -> bool)

  /** The context of a request with the given headers. */
  function RequestEnv(who: Principal, headers: map<Str, Str>, matchIp: (Str, Str) -> bool): (env: Env)
    ensures env.who == who && env.matchIp == matchIp && env.remoteAddr == RemoteHost(headers)
  {
    Env(who, RemoteHost(headers), matchIp)
  }

  datatype Pred =
    | InGroup(groupName: Str)
    | HasPermission(permissionName: Str)
    | NotAnonymous
    | FromHost(host: Str)
    | All(preds: seq<Pred>)
    | Any(errorMessage: Str, preds: seq<Pred>)

  datatype Outcome = Outcome(granted: bool, errors: Option<seq<Str>>)

  const AnyMessage: Str := "No predicates were able to grant access"
  const AnonymousMessage: Str := "Anonymous access denied"
  const HostMessage: Str := "Access from this host is not permitted."

  // ---------------------------------------------------------------------
  // Constructors of the compound predicate classes

  /** `Any(*predicates)` with the default message. */
  function AnyOf(ps: seq<Pred>): Pred { Any(AnyMessage, ps) }

  function InGroups(groups: seq<Str>): (r: seq<Pred>)
    ensures |r| == |groups|
    ensures forall i :: 0 <= i < |groups| ==> r[i] == InGroup(groups[i])
  {
    seq(|groups|, i requires 0 <= i < |groups| => InGroup(groups[i]))
  }

  function HasPermissions(perms: seq<Str>): (r: seq<Pred>)
    ensures |r| == |perms|
    ensures forall i :: 0 <= i < |perms| ==> r[i] == HasPermission(perms[i])
  {
    seq(|perms|, i requires 0 <= i < |perms| => HasPermission(perms[i]))
  }

  function InAllGroups(groups: seq<Str>): Pred { All(InGroups(groups)) }

  function InAnyGroup(groups: seq<Str>): Pred
  {
    Any("Not member of any group: " + Join(groups, ", "), InGroups(groups))
  }

  function HasAllPermissions(perms: seq<Str>): Pred { All(HasPermissions(perms)) }

  function HasAnyPermission(perms: seq<Str>): Pred
  {
    Any("No matching permissions: " + Join(perms, ", "), HasPermissions(perms))
  }

  function FromAnyHost(hosts: seq<Str>): Pred
  {
    Any(HostMessage, seq(|hosts|, i requires 0 <= i < |hosts| => FromHost(hosts[i])))
  }

  // ---------------------------------------------------------------------
  // Evaluation

  /** `Predicate.append_error_message`: append one message unless errors is None. */
  function AppendErrorMessage(errors: Option<seq<Str>>, message: Str): (r: Option<seq<Str>>)
    ensures errors.None? <==> r.None?
    ensures errors.Some? ==> r.value == errors.value + [message]
  {
    match errors
    case None => None
    case Some(l) => Some(l + [message])
  }

  /**
   * The address the request came from: the X-Forwarded-For header, else
   * Remote-Addr, else empty; the part after its last comma, stripped.
   */
  function RemoteHost(headers: map<Str, Str>): (r: Str)
    ensures ',' !in r
  {
    var raw :=
      if "X-Forwarded-For" in headers then headers["X-Forwarded-For"]
      else if "Remote-Addr" in headers then headers["Remote-Addr"]
      else "";
    LastAddress(raw)
  }

  /** The last comma-separated entry of an address header, stripped. */
  function LastAddress(raw: Str): (r: Str)
    ensures ',' !in r
    ensures ',' !in raw ==> r == Strip(raw)
  {
    var parts := RSplitLast(raw, ',');
    var last := parts[|parts| - 1];
    StripKeepsChar(last, ',');
    Strip(last)
  }

  lemma StripKeepsChar(s: Str, c: char)
    requires c !in s
    ensures c !in Strip(s)
  {
    var l := LStrip(s);
    assert c !in l by {
      forall k | 0 <= k < |l| ensures l[k] != c { assert l[k] == s[|s| - |l| + k]; }
    }
    var r := RStrip(l);
    forall k | 0 <= k < |r| ensures r[k] != c { assert r[k] == l[k]; }
  }

  function Eval(p: Pred, env: Env, errors: Option<seq<Str>>): Outcome
    decreases p
  {
    match p
    case InGroup(g) =>
      if g in env.who.groups then Outcome(true, errors)
      else Outcome(false, AppendErrorMessage(errors, "Not member of group: " + g))
    case HasPermission(n) =>
      if n in env.who.permissions then Outcome(true, errors)
      else Outcome(false, AppendErrorMessage(errors, "Permission denied: " + n))
    case NotAnonymous =>
      if env.who.anonymous then Outcome(false, AppendErrorMessage(errors, AnonymousMessage))
      else Outcome(true, errors)
    case FromHost(h) =>
      if env.matchIp(h, env.remoteAddr) then Outcome(true, errors)
      else Outcome(false, AppendErrorMessage(errors, HostMessage))
    case All(ps) => EvalAll(ps, env, errors)
    case Any(m, ps) =>
      if EvalAny(ps, env) then Outcome(true, errors)
      else Outcome(false, AppendErrorMessage(errors, m))
  }

  /** The loop of `All.eval_with_object` over the remaining sub-predicates. */
  function EvalAll(ps: seq<Pred>, env: Env, errors: Option<seq<Str>>): Outcome
    decreases ps
  {
    if ps == [] then Outcome(true, errors)
    else
      var o := Eval(ps[0], env, errors);
      if !o.granted then Outcome(false, o.errors) else EvalAll(ps[1..], env, o.errors)
  }

  /** The loop of `Any.eval_with_object`: sub-predicates are asked with errors=None. */
  function EvalAny(ps: seq<Pred>, env: Env): bool
    decreases ps
  {
    ps != [] && (Eval(ps[0], env, None).granted || EvalAny(ps[1..], env))
  }

  /** Truth value of a predicate. */
  predicate Granted(p: Pred, env: Env) { Eval(p, env, None).granted }

  /** The messages a predicate appends to a collected error list. */
  function Messages(p: Pred, env: Env): seq<Str>
  {
    Eval(p, env, Some([])).errors.GetOr([])
  }

  // ---------------------------------------------------------------------
  // Properties

  /**
   * Error collection never changes the verdict, `None` stays `None`, and a
   * list is only ever extended, by the same messages whatever it held.
   */
  lemma {:induction false} EvalThreadsErrors(p: Pred, env: Env, errors: Option<seq<Str>>)
    ensures Eval(p, env, errors).granted == Granted(p, env)
    ensures errors.None? ==> Eval(p, env, errors).errors == None
    ensures errors.Some? ==> Eval(p, env, errors).errors == Some(errors.value + Messages(p, env))
    decreases p
  {
    match p
    case All(ps) =>
      EvalAllThreadsErrors(ps, env, errors);
      EvalAllThreadsErrors(ps, env, None);
      EvalAllThreadsErrors(ps, env, Some([]));
    case Any(m, _) => AppendFromEmpty(errors, m);
    case InGroup(g) => AppendFromEmpty(errors, "Not member of group: " + g);
    case HasPermission(n) => AppendFromEmpty(errors, "Permission denied: " + n);
    case NotAnonymous => AppendFromEmpty(errors, AnonymousMessage);
    case FromHost(_) => AppendFromEmpty(errors, HostMessage);
  }

  lemma AppendFromEmpty(errors: Option<seq<Str>>, m: Str)
    ensures errors.Some? ==> AppendErrorMessage(errors, m) == Some(errors.value + AppendErrorMessage(Some([]), m).value)
    ensures errors.Some? ==> errors == Some(errors.value + [])
  {
    assert [] + [m] == [m];
    if errors.Some? { assert errors.value + [] == errors.value; }
  }

  lemma {:induction false} EvalAllThreadsErrors(ps: seq<Pred>, env: Env, errors: Option<seq<Str>>)
    ensures EvalAll(ps, env, errors).granted == EvalAll(ps, env, None).granted
    ensures errors.None? ==> EvalAll(ps, env, errors).errors == None
    ensures EvalAll(ps, env, Some([])).errors.Some?
    ensures errors.Some? ==>
              EvalAll(ps, env, errors).errors == Some(errors.value + EvalAll(ps, env, Some([])).errors.value)
    decreases ps
  {
    if ps != [] {
      var q := ps[0];
      EvalThreadsErrors(q, env, errors);
      EvalThreadsErrors(q, env, Some([]));
      EvalThreadsErrors(q, env, None);
      var mq := Messages(q, env);
      assert [] + mq == mq;
      if Granted(q, env) {
        var e1 := Eval(q, env, errors).errors;
        EvalAllThreadsErrors(ps[1..], env, e1);
        EvalAllThreadsErrors(ps[1..], env, Some(mq));
        EvalAllThreadsErrors(ps[1..], env, None);
        if errors.Some? {
          assert e1 == Some(errors.value + mq);
          assert errors.value + mq + EvalAll(ps[1..], env, Some([])).errors.value
              == errors.value + (mq + EvalAll(ps[1..], env, Some([])).errors.value);
        }
      }
    } else if errors.Some? {
      assert errors.value + [] == errors.value;
    }
  }

  /** A granting predicate appends no message. */
  lemma {:induction false} GrantedAppendsNothing(p: Pred, env: Env)
    requires Granted(p, env)
    ensures Messages(p, env) == []
    decreases p
  {
    EvalThreadsErrors(p, env, Some([]));
    match p
    case All(ps) => AllGrantedAppendsNothing(ps, env, Some([]));
    case _ =>
  }

  lemma {:induction false} AllGrantedAppendsNothing(ps: seq<Pred>, env: Env, errors: Option<seq<Str>>)
    requires EvalAll(ps, env, errors).granted
    ensures EvalAll(ps, env, errors).errors == errors
    decreases ps
  {
    if ps != [] {
      var q := ps[0];
      EvalThreadsErrors(q, env, errors);
      GrantedAppendsNothing(q, env);
      assert Eval(q, env, errors).errors == errors by {
        if errors.Some? { assert errors.value + [] == errors.value; }
      }
      AllGrantedAppendsNothing(ps[1..], env, errors);
    }
  }

  /** `All` grants iff every sub-predicate grants. */
  lemma {:induction false} AllGrantedIff(ps: seq<Pred>, env: Env)
    ensures Granted(All(ps), env) <==> forall i :: 0 <= i < |ps| ==> Granted(ps[i], env)
  {
    AllLoopGrantedIff(ps, env);
  }

  lemma {:induction false} AllLoopGrantedIff(ps: seq<Pred>, env: Env)
    ensures EvalAll(ps, env, None).granted <==> forall i :: 0 <= i < |ps| ==> Granted(ps[i], env)
    decreases |ps|
  {
    if ps != [] {
      EvalThreadsErrors(ps[0], env, None);
      AllLoopGrantedIff(ps[1..], env);
      assert forall i :: 1 <= i < |ps| ==> ps[i] == ps[1..][i - 1];
    }
  }

  /**
   * A failing `All` collects exactly the messages of its first failing
   * sub-predicate: evaluation stops there and earlier ones appended nothing.
   */
  lemma {:induction false} AllFailureMessages(ps: seq<Pred>, env: Env, k: nat)
    requires k < |ps| && !Granted(ps[k], env)
    requires forall j :: 0 <= j < k ==> Granted(ps[j], env)
    ensures !Granted(All(ps), env)
    ensures Messages(All(ps), env) == Messages(ps[k], env)
  {
    AllLoopFailure(ps, env, k, Some([]));
    AllGrantedIff(ps, env);
  }

  lemma {:induction false} AllLoopFailure(ps: seq<Pred>, env: Env, k: nat, errors: Option<seq<Str>>)
    requires k < |ps| && !Granted(ps[k], env)
    requires forall j :: 0 <= j < k ==> Granted(ps[j], env)
    ensures EvalAll(ps, env, errors).errors == Eval(ps[k], env, errors).errors
    decreases k
  {
    var q := ps[0];
    EvalThreadsErrors(q, env, errors);
    if k > 0 {
      GrantedAppendsNothing(q, env);
      assert Eval(q, env, errors).errors == errors by {
        if errors.Some? { assert errors.value + [] == errors.value; }
      }
      assert forall j :: 0 <= j < k - 1 ==> ps[1..][j] == ps[j + 1];
      AllLoopFailure(ps[1..], env, k - 1, errors);
    }
  }

  /** `Any` grants iff some sub-predicate grants. */
  lemma {:induction false} AnyGrantedIff(m: Str, ps: seq<Pred>, env: Env)
    ensures Granted(Any(m, ps), env) <==> exists i :: 0 <= i < |ps| && Granted(ps[i], env)
  {
    AnyLoopGrantedIff(ps, env);
  }

  lemma {:induction false} AnyLoopGrantedIff(ps: seq<Pred>, env: Env)
    ensures EvalAny(ps, env) <==> exists i :: 0 <= i < |ps| && Granted(ps[i], env)
    decreases |ps|
  {
    if ps != [] {
      AnyLoopGrantedIff(ps[1..], env);
      if !Granted(ps[0], env) && exists i :: 0 <= i < |ps| && Granted(ps[i], env) {
        var i :| 0 <= i < |ps| && Granted(ps[i], env);
        assert ps[1..][i - 1] == ps[i];
      }
      if exists i :: 0 <= i < |ps[1..]| && Granted(ps[1..][i], env) {
        var i :| 0 <= i < |ps[1..]| && Granted(ps[1..][i], env);
        assert ps[i + 1] == ps[1..][i];
      }
    }
  }

  /** `Any` appends exactly its own message on failure and nothing on success. */
  lemma AnyMessages(m: Str, ps: seq<Pred>, env: Env)
    ensures Messages(Any(m, ps), env) == if Granted(Any(m, ps), env) then [] else [m]
  {
  }

  /** `in_group`: membership in the identity's groups, with its failure message. */
  lemma InGroupSpec(g: Str, env: Env)
    ensures Granted(InGroup(g), env) <==> g in env.who.groups
    ensures Messages(InGroup(g), env) == if g in env.who.groups then [] else ["Not member of group: " + g]
  {
  }

  /** `has_permission`: membership in the identity's permissions, with its failure message. */
  lemma HasPermissionSpec(n: Str, env: Env)
    ensures Granted(HasPermission(n), env) <==> n in env.who.permissions
    ensures Messages(HasPermission(n), env) == if n in env.who.permissions then [] else ["Permission denied: " + n]
  {
  }

  /** `not_anonymous` fails exactly for anonymous identities. */
  lemma NotAnonymousSpec(env: Env)
    ensures Granted(NotAnonymous, env) <==> !env.who.anonymous
    ensures Messages(NotAnonymous, env) == if env.who.anonymous then [AnonymousMessage] else []
  {
  }

  /** `from_host` asks the host matcher about the request's remote address. */
  lemma FromHostSpec(h: Str, env: Env)
    ensures Granted(FromHost(h), env) <==> env.matchIp(h, env.remoteAddr)
    ensures Messages(FromHost(h), env) == if env.matchIp(h, env.remoteAddr) then [] else [HostMessage]
  {
  }

  /** `in_all_groups` grants iff every listed group is held. */
  lemma InAllGroupsIff(groups: seq<Str>, env: Env)
    ensures Granted(InAllGroups(groups), env) <==> forall g :: g in groups ==> g in env.who.groups
  {
    AllGrantedIff(InGroups(groups), env);
  }

  /** `in_any_group` grants iff some listed group is held; its message lists them all. */
  lemma InAnyGroupIff(groups: seq<Str>, env: Env)
    ensures Granted(InAnyGroup(groups), env) <==> exists g :: g in groups && g in env.who.groups
    ensures !Granted(InAnyGroup(groups), env) ==>
              Messages(InAnyGroup(groups), env) == ["Not member of any group: " + Join(groups, ", ")]
  {
    AnyGrantedIff("Not member of any group: " + Join(groups, ", "), InGroups(groups), env);
    if exists g :: g in groups && g in env.who.groups {
      var g :| g in groups && g in env.who.groups;
      var i :| 0 <= i < |groups| && groups[i] == g;
      assert Granted(InGroups(groups)[i], env);
    }
  }

  /** `has_all_permissions` grants iff every listed permission is held. */
  lemma HasAllPermissionsIff(perms: seq<Str>, env: Env)
    ensures Granted(HasAllPermissions(perms), env) <==> forall n :: n in perms ==> n in env.who.permissions
  {
    AllGrantedIff(HasPermissions(perms), env);
  }

  /** `has_any_permission` grants iff some listed permission is held. */
  lemma HasAnyPermissionIff(perms: seq<Str>, env: Env)
    ensures Granted(HasAnyPermission(perms), env) <==> exists n :: n in perms && n in env.who.permissions
    ensures !Granted(HasAnyPermission(perms), env) ==>
              Messages(HasAnyPermission(perms), env) == ["No matching permissions: " + Join(perms, ", ")]
  {
    AnyGrantedIff("No matching permissions: " + Join(perms, ", "), HasPermissions(perms), env);
    if exists n :: n in perms && n in env.who.permissions {
      var n :| n in perms && n in env.who.permissions;
      var i :| 0 <= i < |perms| && perms[i] == n;
      assert Granted(HasPermissions(perms)[i], env);
    }
  }

  /** The address used by host predicates. */
  lemma RemoteHostChoice(headers: map<Str, Str>)
    ensures "X-Forwarded-For" in headers && ',' !in headers["X-Forwarded-For"] ==>
              RemoteHost(headers) == Strip(headers["X-Forwarded-For"])
    ensures "X-Forwarded-For" !in headers && "Remote-Addr" in headers && ',' !in headers["Remote-Addr"] ==>
              RemoteHost(headers) == Strip(headers["Remote-Addr"])
    ensures "X-Forwarded-For" !in headers && "Remote-Addr" !in headers ==> RemoteHost(headers) == ""
  {
    if "X-Forwarded-For" !in headers && "Remote-Addr" !in headers {
      assert Strip("") == "";
    }
  }

  // ---------------------------------------------------------------------
  // SecureResource: attribute access queues the resource's predicate

  /** The request attribute `tg_predicates`; `None` while it is not set. */
  class PredicateQueue {
    var tgPredicates: Option<seq<Pred>>

    constructor ()
      ensures tgPredicates == None
    {
      tgPredicates := None;
    }

    /** `SecureResource.__getattribute__` for a resource whose `require` is given. */
    method SecureAccess(require: Option<Pred>)
      modifies this
      ensures require.None? ==> tgPredicates == old(tgPredicates)
      ensures require.Some? && old(tgPredicates).None? ==> tgPredicates == Some([require.value])
      ensures require.Some? && old(tgPredicates).Some? ==>
                tgPredicates == Some(if require.value in old(tgPredicates).value then old(tgPredicates).value
                                     else old(tgPredicates).value + [require.value])
      ensures require.Some? ==> tgPredicates.Some? && require.value in tgPredicates.value
    {
      if require.Some? {
        match tgPredicates
        case Some(l) =>
          if require.value !in l {
            tgPredicates := Some(l + [require.value]);
          }
        case None =>
          tgPredicates := Some([require.value]);
      }
    }
  }

  /** Repeated access to the same resource queues its predicate once. */
  method SecureAccessIdempotent(q: PredicateQueue, p: Pred)
    modifies q
    ensures q.tgPredicates.Some?
    ensures old(q.tgPredicates).Some? && p in old(q.tgPredicates).value ==> q.tgPredicates == old(q.tgPredicates)
  {
    q.SecureAccess(Some(p));
    ghost var once := q.tgPredicates;
    q.SecureAccess(Some(p));
    assert q.tgPredicates == once;
  }
}
