/*
 * The identity visit plugin (gearshift/identity/visitor.py): the configured
 * list of identity sources, the form, HTTP Basic and visit sources, the
 * first-match pipeline over them and the per-request recording of the
 * identity found.
 *
 * The OAuth, Google Friend Connect and Facebook Connect sources depend on
 * third-party libraries; what they yield is an input (`Channels.foreign`).
 */
module IdentityVisitor {
  import opened Common
  import opened IdentityBase
  import opened IdentityExceptions

  /** The `identity_from_<name>` methods a source name may select. */
  datatype Source = FromForm | FromHttpAuth | FromVisit | FromRequest | FromOAuth | FromGfc | FromFbc

  /** `getattr(self, 'identity_from_' + name)`; None where it raises AttributeError. */
  function SourceNamed(name: Str): (r: Option<Source>)
    ensures r.Some? <==> name in ["form", "http_auth", "visit", "request", "oauth", "gfc", "fbc"]
    ensures r == Some(FromForm) <==> name == "form"
    ensures r == Some(FromHttpAuth) <==> name == "http_auth"
    ensures r == Some(FromVisit) <==> name == "visit"
  {
    if name == "form" then Some(FromForm)
    else if name == "http_auth" then Some(FromHttpAuth)
    else if name == "visit" then Some(FromVisit)
    else if name == "request" then Some(FromRequest)
    else if name == "oauth" then Some(FromOAuth)
    else if name == "gfc" then Some(FromGfc)
    else if name == "fbc" then Some(FromFbc)
    else None
  }

  const DefaultSources: Str := "form,http_auth,visit"

  function InvalidSource(name: Str): Exc
  {
    IdentityConfigurationException("Invalid identity source: " + name)
  }

  /** The configured `tools.identity.source`, default "form,http_auth,visit", split on every ','. */
  function ConfiguredNames(configured: Option<Str>): seq<Str>
  {
    Split(configured.GetOr(DefaultSources), ',')
  }

  /** Every name selects a source. */
  predicate AllKnown(names: seq<Str>)
  {
    forall i :: 0 <= i < |names| ==> SourceNamed(names[i]).Some?
  }

  /**
   * The source list of `IdentityVisitPlugin.__init__`: the configured
   * names, not stripped, each resolved in order; the first unknown name
   * raises.
   */
  method ParseSources(names: seq<Str>) returns (r: Result<seq<Source>>)
    ensures r.Ok? <==> AllKnown(names)
    ensures r.Ok? ==> |r.value| == |names| &&
                      forall i :: 0 <= i < |r.value| ==> SourceNamed(names[i]) == Some(r.value[i])
    ensures r.Err? ==> exists k :: 0 <= k < |names| && SourceNamed(names[k]).None? &&
                         AllKnown(names[..k]) && r.exc == InvalidSource(names[k])
  {
    var sources: seq<Source> := [];
    var i := 0;
    while i < |names|
      invariant 0 <= i <= |names|
      invariant |sources| == i
      invariant forall j :: 0 <= j < i ==> SourceNamed(names[j]) == Some(sources[j])
    {
      var s := SourceNamed(names[i]);
      if s.None? {
        assert !AllKnown(names);
        assert AllKnown(names[..i]) by {
          forall j | 0 <= j < i
            ensures SourceNamed(names[..i][j]).Some?
          {
            assert names[..i][j] == names[j];
          }
        }
        return Err(InvalidSource(names[i]));
      }
      sources := sources + [s.value];
      i := i + 1;
    }
    return Ok(sources);
  }

  /** Splitting at the first separator of `a + [c] + b`, when `a` has none. */
  lemma SplitAtFirst(a: Str, c: char, b: Str)
    requires c !in a
    ensures Split(a + [c] + b, c) == [a] + Split(b, c)
    ensures SplitFirst(a + [c] + b, c) == [a, b]
  {
    var s := a + [c] + b;
    var k := FindChar(s, c);
    assert s[|a|] == c;
    assert s[..|a|] == a;
    assert k == |a|;
    assert s[k + 1..] == b;
  }

  /** Three names without ',' joined by ',' split back into the three. */
  lemma SplitThree(f: Str, h: Str, v: Str)
    requires ',' !in f && ',' !in h && ',' !in v
    ensures Split(f + [','] + (h + [','] + v), ',') == [f, h, v]
  {
    assert Split(v, ',') == [v];
    SplitAtFirst(h, ',', v);
    SplitAtFirst(f, ',', h + [','] + v);
  }

  lemma DefaultSourcesShape()
    ensures DefaultSources == "form" + [','] + ("http_auth" + [','] + "visit")
    ensures ',' !in "form" && ',' !in "http_auth" && ',' !in "visit"
  {
  }

  /** The default source string names the form, Basic-auth and visit sources, in that order. */
  lemma DefaultSourceNames()
    ensures ConfiguredNames(None) == ["form", "http_auth", "visit"]
  {
    DefaultSourcesShape();
    SplitThree("form", "http_auth", "visit");
  }

  /** The form field names of the login form. */
  datatype Fields = Fields(userName: Str, password: Str, submit: Str)

  /**
   * What the plugin needs of the identity provider: `validate_identity`,
   * `load_identity`, `anonymous_identity` and an identity's `user_name`.
   */
  datatype Provider<!I> = Provider(
    validateIdentity: (Value, Value, Str) -> Result<Option<I>>,
    loadIdentity: Str -> Result<Option<I>>,
    anonymousIdentity: I,
    userNameOf: I -> Option<Str>)

  /** A constructed `IdentityVisitPlugin`. */
  datatype Plugin<!I> = Plugin(provider: Provider<I>, fields: Fields, sources: seq<Source>)

  /**
   * `IdentityVisitPlugin.__init__`: the form field names default to
   * 'user_name', 'password' and 'login'; the source list is parsed as above.
   */
  method NewPlugin<I>(provider: Provider<I>, userNameField: Option<Str>, passwordField: Option<Str>,
                      submitField: Option<Str>, sources: Option<Str>)
    returns (r: Result<Plugin<I>>)
    ensures r.Ok? ==> r.value.fields == Fields(userNameField.GetOr("user_name"),
                                                passwordField.GetOr("password"), submitField.GetOr("login"))
    ensures r.Ok? ==> r.value.provider == provider
    ensures r.Ok? <==> AllKnown(ConfiguredNames(sources))
    ensures r.Ok? ==> |r.value.sources| == |ConfiguredNames(sources)| &&
                      forall i :: 0 <= i < |r.value.sources| ==>
                        SourceNamed(ConfiguredNames(sources)[i]) == Some(r.value.sources[i])
    ensures r.Err? ==> r.exc.IdentityConfigurationException?
  {
    var parsed := ParseSources(ConfiguredNames(sources));
    if parsed.Err? {
      return Err(parsed.exc);
    }
    var fields := Fields(userNameField.GetOr("user_name"), passwordField.GetOr("password"),
                         submitField.GetOr("login"));
    return Ok(Plugin(provider, fields, parsed.value));
  }

  /** What a request offers the sources besides its params. */
  datatype Channels<I> = Channels(
    headers: map<Str, Str>,
    b64decode: Str -> Result<Str>,       // base64.decodestring
    foreign: Source -> Result<Option<I>>) // the OAuth, Friend Connect and Facebook sources

  /** The request state the sources change: the params, and whether a login was attempted. */
  datatype Req = Req(params: map<Str, Value>, attempted: bool)

  /** A source's answer (None: no identity here) and the request state after it. */
  datatype Step<I> = Step(result: Result<Option<I>>, req: Req)

  /** The `except KeyError` around the form login: a KeyError becomes "no identity". */
  function CatchKeyError<I>(r: Result<Option<I>>): (c: Result<Option<I>>)
    ensures r.Err? && r.exc.KeyError? ==> c == Ok(None)
    ensures !(r.Err? && r.exc.KeyError?) ==> c == r
  {
    if r.Err? && r.exc.KeyError? then Ok(None) else r
  }

  /**
   * `identity_from_form`. Without the submit field nothing happens. With
   * it, the user-name and password fields are popped (a missing one ends the
   * attempt with None, after the pops that did succeed), then the submit
   * button and its `.x`/`.y` coordinates; the login counts as attempted and
   * the provider's answer is passed through.
   */
  function FormSource<I>(f: Fields, p: Provider<I>, visitKey: Str, req: Req): (r: Step<I>)
    ensures f.submit !in req.params ==> r == Step(Ok(None), req)
    ensures f.submit in req.params && f.userName !in req.params ==> r == Step(Ok(None), req)
    ensures f.submit in req.params && f.userName in req.params && f.password !in req.params - {f.userName} ==>
              r == Step(Ok(None), req.(params := req.params - {f.userName}))
    ensures f.submit in req.params && f.userName in req.params && f.password in req.params - {f.userName} ==>
              r.req.attempted &&
              r.req.params == req.params - {f.userName, f.password, f.submit, f.submit + ".x", f.submit + ".y"} &&
              r.result == CatchKeyError(p.validateIdentity(req.params[f.userName], req.params[f.password], visitKey))
    ensures r.result.Ok? && r.result.value.Some? ==> r.req.attempted
    ensures r.req.params.Keys <= req.params.Keys
    ensures forall k :: k in r.req.params ==> r.req.params[k] == req.params[k]
  {
    var params := req.params;
    if f.submit !in params || f.userName !in params then Step(Ok(None), req)
    else
      var userName := params[f.userName];
      var p1 := params - {f.userName};
      if f.password !in p1 then Step(Ok(None), req.(params := p1))
      else
        var password := p1[f.password];
        var p2 := p1 - {f.password} - {f.submit} - {f.submit + ".x"} - {f.submit + ".y"};
        Step(CatchKeyError(p.validateIdentity(userName, password, visitKey)), Req(p2, true))
  }

  // ---------------------------------------------------------------------
  // HTTP Basic credentials

  const UnpackTooFew: Str := "need more than 1 value to unpack"
  const UnpackTooMany: Str := "too many values to unpack"

  /** Unpacking a list into `user_name, password`. */
  function UnpackPair(parts: seq<Str>): (r: Result<(Str, Str)>)
    ensures r.Ok? <==> |parts| == 2
    ensures r.Ok? ==> r.value == (parts[0], parts[1])
    ensures r.Err? ==> r.exc.ValueError?
  {
    if |parts| == 2 then Ok((parts[0], parts[1]))
    else if |parts| < 2 then Err(ValueError(UnpackTooFew))
    else Err(ValueError(UnpackTooMany))
  }

  /**
   * `decode_basic_credentials` and the unpacking after it, as written:
   * the decoded text is split at EVERY ':'.
   */
  function CredentialsAsWritten(data: Str, b64decode: Str -> Result<Str>): (r: Result<(Str, Str)>)
    ensures b64decode(Strip(data)).Err? ==> r == Err(b64decode(Strip(data)).exc)
    ensures b64decode(Strip(data)).Ok? && ':' !in b64decode(Strip(data)).value ==> r == Err(ValueError(UnpackTooFew))
    ensures r.Ok? ==> (b64decode(Strip(data)).Ok? &&
                       b64decode(Strip(data)).value == r.value.0 + ":" + r.value.1 &&
                       ':' !in r.value.0 && ':' !in r.value.1)
  {
    match b64decode(Strip(data))
    case Err(e) => Err(e)
    case Ok(text) =>
      var parts := Split(text, ':');
      if |parts| == 2 then
        JoinSplit(text, ':');
        JoinCons(parts[0], parts[1..], ":");
        Ok((parts[0], parts[1]))
      else UnpackPair(parts)
  }

  /**
   * The credentials as section 2 of RFC 7617 defines them: the user-id is
   * everything before the FIRST ':', the password everything after it (it
   * may itself contain ':'); text without ':' cannot be unpacked.
   */
  function Credentials(data: Str, b64decode: Str -> Result<Str>): (r: Result<(Str, Str)>)
    ensures b64decode(Strip(data)).Err? ==> r == Err(b64decode(Strip(data)).exc)
    ensures b64decode(Strip(data)).Ok? ==>
              (r.Ok? <==> ':' in b64decode(Strip(data)).value)
    ensures r.Ok? ==> (b64decode(Strip(data)).Ok? &&
                       b64decode(Strip(data)).value == r.value.0 + ":" + r.value.1 && ':' !in r.value.0)
  {
    match b64decode(Strip(data))
    case Err(e) => Err(e)
    case Ok(text) => UnpackPair(SplitFirst(text, ':'))
  }

  /** Decoding recovers any user-id without ':' and any password, ':' included. */
  lemma CredentialsRoundTrip(data: Str, b64decode: Str -> Result<Str>, user: Str, password: Str)
    requires ':' !in user
    requires b64decode(Strip(data)) == Ok(user + ":" + password)
    ensures Credentials(data, b64decode) == Ok((user, password))
  {
    SplitAtFirst(user, ':', password);
  }

  /** Splitting at every ':' yields more than two parts once the password holds a ':'. */
  lemma SplitWithColonInPassword(user: Str, password: Str)
    requires ':' !in user && ':' in password
    ensures |Split(user + ":" + password, ':')| > 2
  {
    var line := user + ":" + password;
    assert line == user + [':'] + password;
    SplitAtFirst(user, ':', password);
    SplitAt(password, ':', FindChar(password, ':'));
    assert |Split(line, ':')| == 1 + |Split(password, ':')|;
  }

  /**
   * The decoder as written rejects a valid RFC 7617 credential whose
   * password contains ':' (the ValueError escapes the plugin), while the
   * corrected decoder accepts it.
   */
  lemma ColonInPasswordRejected(data: Str, b64decode: Str -> Result<Str>, user: Str, password: Str)
    requires ':' !in user && ':' in password
    requires b64decode(Strip(data)) == Ok(user + ":" + password)
    ensures CredentialsAsWritten(data, b64decode) == Err(ValueError(UnpackTooMany))
    ensures Credentials(data, b64decode) == Ok((user, password))
  {
    SplitWithColonInPassword(user, password);
    CredentialsRoundTrip(data, b64decode, user, password);
  }

  lemma ExampleShape()
    ensures "alice:a:b" == "alice" + ":" + "a:b"
    ensures ':' !in "alice" && ':' in "a:b"
  {
    assert "a:b"[1] == ':';
  }

  /** A concrete instance: "alice" with password "a:b". */
  lemma ColonInPasswordExample(data: Str, b64decode: Str -> Result<Str>)
    requires b64decode(Strip(data)) == Ok("alice:a:b")
    ensures CredentialsAsWritten(data, b64decode).Err?
    ensures Credentials(data, b64decode) == Ok(("alice", "a:b"))
  {
    ExampleShape();
    ColonInPasswordRejected(data, b64decode, "alice", "a:b");
  }

  /**
   * `identity_from_http_auth`, with the decoder as written: no Authorization
   * header, or a scheme other than 'basic' in any case, gives None; a header
   * without a space cannot be unpacked; credentials that do not split into
   * exactly two parts at the ':'s raise ValueError before the login counts
   * as attempted; otherwise the login counts as attempted and the
   * provider's answer is passed through.
   */
  function HttpAuthSource<I>(ch: Channels<I>, p: Provider<I>, visitKey: Str, req: Req): (r: Step<I>)
    ensures "Authorization" !in ch.headers ==> r == Step(Ok(None), req)
    ensures "Authorization" in ch.headers && ' ' !in ch.headers["Authorization"] ==>
              r == Step(Err(ValueError(UnpackTooFew)), req)
    ensures ("Authorization" in ch.headers &&
             |SplitFirst(ch.headers["Authorization"], ' ')| == 2 &&
             Lower(SplitFirst(ch.headers["Authorization"], ' ')[0]) != "basic") ==> r == Step(Ok(None), req)
    ensures ("Authorization" in ch.headers &&
             |SplitFirst(ch.headers["Authorization"], ' ')| == 2 &&
             Lower(SplitFirst(ch.headers["Authorization"], ' ')[0]) == "basic" &&
             CredentialsAsWritten(SplitFirst(ch.headers["Authorization"], ' ')[1], ch.b64decode).Err?) ==>
              r == Step(Err(CredentialsAsWritten(SplitFirst(ch.headers["Authorization"], ' ')[1], ch.b64decode).exc), req)
    ensures r.req.params == req.params
    ensures r.req.attempted <==>
              (req.attempted || ("Authorization" in ch.headers &&
                                 |SplitFirst(ch.headers["Authorization"], ' ')| == 2 &&
                                 Lower(SplitFirst(ch.headers["Authorization"], ' ')[0]) == "basic" &&
                                 CredentialsAsWritten(SplitFirst(ch.headers["Authorization"], ' ')[1], ch.b64decode).Ok?))
    ensures r.req.attempted && !req.attempted ==>
              var creds := CredentialsAsWritten(SplitFirst(ch.headers["Authorization"], ' ')[1], ch.b64decode).value;
              r.result == p.validateIdentity(VStr(creds.0), VStr(creds.1), visitKey)
  {
    if "Authorization" !in ch.headers then Step(Ok(None), req)
    else
      var parts := SplitFirst(ch.headers["Authorization"], ' ');
      if |parts| != 2 then Step(Err(ValueError(UnpackTooFew)), req)
      else if Lower(parts[0]) != "basic" then Step(Ok(None), req)
      else match CredentialsAsWritten(parts[1], ch.b64decode)
        case Err(e) => Step(Err(e), req)
        case Ok((user, password)) =>
          Step(p.validateIdentity(VStr(user), VStr(password), visitKey), req.(attempted := true))
  }

  /**
   * Basic credentials whose password holds a ':' make the http_auth source
   * raise ValueError, with the login not marked as attempted.
   */
  lemma HttpAuthColonPasswordFails<I>(ch: Channels<I>, p: Provider<I>, visitKey: Str, req: Req,
                                      data: Str, user: Str, password: Str)
    requires "Authorization" in ch.headers && ch.headers["Authorization"] == "Basic " + data
    requires ':' !in user && ':' in password
    requires ch.b64decode(Strip(data)) == Ok(user + ":" + password)
    ensures HttpAuthSource(ch, p, visitKey, req) == Step(Err(ValueError(UnpackTooMany)), req)
  {
    var header := "Basic " + data;
    assert header == "Basic" + [' '] + data;
    assert ' ' !in "Basic";
    SplitAtFirst("Basic", ' ', data);
    assert Lower("Basic") == "basic";
    ColonInPasswordRejected(data, ch.b64decode, user, password);
  }

  // ---------------------------------------------------------------------
  // The pipeline

  /**
   * Asking a source named 'request' re-enters `identity_from_request`, which
   * asks the same sources again with nothing changed, without end.
   */
  const RecursionMessage: Str := "maximum recursion depth exceeded"

  /** One `identity_from_<source>(visit_key)` call. */
  function RunSource<I>(plugin: Plugin<I>, ch: Channels<I>, visitKey: Str, src: Source, req: Req): (r: Step<I>)
    ensures src != FromForm ==> r.req.params == req.params
    ensures src == FromVisit ==> r == Step(plugin.provider.loadIdentity(visitKey), req)
    ensures req.attempted ==> r.req.attempted
  {
    match src
    case FromForm => FormSource(plugin.fields, plugin.provider, visitKey, req)
    case FromHttpAuth => HttpAuthSource(ch, plugin.provider, visitKey, req)
    case FromVisit => Step(plugin.provider.loadIdentity(visitKey), req)
    case FromRequest => Step(Err(RuntimeError(RecursionMessage)), req)
    case _ => Step(ch.foreign(src), req)
  }

  /**
   * The loop of `identity_from_request`: sources are asked in order until
   * one yields an identity or raises; `Ok(None)` means none did.
   */
  function RunSources<I>(plugin: Plugin<I>, ch: Channels<I>, visitKey: Str, sources: seq<Source>, req: Req)
    : (r: Step<I>)
    ensures sources == [] ==> r == Step(Ok(None), req)
    decreases |sources|
  {
    if sources == [] then Step(Ok(None), req)
    else
      var s := RunSource(plugin, ch, visitKey, sources[0], req);
      if s.result != Ok(None) then s else RunSources(plugin, ch, visitKey, sources[1..], s.req)
  }

  /** Running `a + b` is running `a`, then `b` if `a` found nothing. */
  lemma {:induction false} RunSourcesAppend<I>(plugin: Plugin<I>, ch: Channels<I>, visitKey: Str,
                                               a: seq<Source>, b: seq<Source>, req: Req)
    ensures var ra := RunSources(plugin, ch, visitKey, a, req);
            RunSources(plugin, ch, visitKey, a + b, req) ==
              if ra.result == Ok(None) then RunSources(plugin, ch, visitKey, b, ra.req) else ra
    decreases |a|
  {
    if a == [] {
      assert a + b == b;
    } else {
      assert (a + b)[0] == a[0];
      assert (a + b)[1..] == a[1..] + b;
      var s := RunSource(plugin, ch, visitKey, a[0], req);
      if s.result == Ok(None) {
        RunSourcesAppend(plugin, ch, visitKey, a[1..], b, s.req);
      }
    }
  }

  /**
   * The pipeline yields identity `i` iff some source yields `i` after every
   * earlier source yielded nothing (each asked with the request state the
   * earlier ones left behind).
   */
  lemma {:induction false} FirstMatch<I>(plugin: Plugin<I>, ch: Channels<I>, visitKey: Str,
                                         sources: seq<Source>, req: Req, i: I)
    ensures RunSources(plugin, ch, visitKey, sources, req).result == Ok(Some(i)) <==>
              exists k :: 0 <= k < |sources| &&
                RunSources(plugin, ch, visitKey, sources[..k], req).result == Ok(None) &&
                RunSource(plugin, ch, visitKey, sources[k],
                          RunSources(plugin, ch, visitKey, sources[..k], req).req).result == Ok(Some(i))
  {
    if RunSources(plugin, ch, visitKey, sources, req).result == Ok(Some(i)) {
      var k := MatchFound(plugin, ch, visitKey, sources, req, i);
    }
    if exists k :: 0 <= k < |sources| &&
         RunSources(plugin, ch, visitKey, sources[..k], req).result == Ok(None) &&
         RunSource(plugin, ch, visitKey, sources[k],
                   RunSources(plugin, ch, visitKey, sources[..k], req).req).result == Ok(Some(i)) {
      var k :| 0 <= k < |sources| &&
         RunSources(plugin, ch, visitKey, sources[..k], req).result == Ok(None) &&
         RunSource(plugin, ch, visitKey, sources[k],
                   RunSources(plugin, ch, visitKey, sources[..k], req).req).result == Ok(Some(i));
      MatchYields(plugin, ch, visitKey, sources, req, i, k);
    }
  }

  /** A pipeline that yields `i` has a source `k` that yields it after every earlier one yielded nothing. */
  lemma {:induction false} MatchFound<I>(plugin: Plugin<I>, ch: Channels<I>, visitKey: Str,
                                         sources: seq<Source>, req: Req, i: I) returns (k: nat)
    requires RunSources(plugin, ch, visitKey, sources, req).result == Ok(Some(i))
    ensures k < |sources| && RunSources(plugin, ch, visitKey, sources[..k], req).result == Ok(None) &&
            RunSource(plugin, ch, visitKey, sources[k],
                      RunSources(plugin, ch, visitKey, sources[..k], req).req).result == Ok(Some(i))
    decreases |sources|
  {
    var s := RunSource(plugin, ch, visitKey, sources[0], req);
    assert sources[..0] == [];
    if s.result == Ok(None) {
      var k' := MatchFound(plugin, ch, visitKey, sources[1..], s.req, i);
      k := k' + 1;
      assert sources[..k] == [sources[0]] + sources[1..][..k'];
      RunSourcesAppend(plugin, ch, visitKey, [sources[0]], sources[1..][..k'], req);
      assert [sources[0]][1..] == [];
      assert RunSources(plugin, ch, visitKey, [sources[0]], req) == Step(Ok(None), s.req);
      assert sources[1..][k'] == sources[k];
    } else {
      k := 0;
      assert RunSources(plugin, ch, visitKey, sources[..0], req) == Step(Ok(None), req);
    }
  }

  /** A source that yields `i` after every earlier one yielded nothing makes the pipeline yield `i`. */
  lemma MatchYields<I>(plugin: Plugin<I>, ch: Channels<I>, visitKey: Str,
                       sources: seq<Source>, req: Req, i: I, k: nat)
    requires k < |sources| && RunSources(plugin, ch, visitKey, sources[..k], req).result == Ok(None)
    requires RunSource(plugin, ch, visitKey, sources[k],
                       RunSources(plugin, ch, visitKey, sources[..k], req).req).result == Ok(Some(i))
    ensures RunSources(plugin, ch, visitKey, sources, req).result == Ok(Some(i))
  {
    assert sources == sources[..k] + sources[k..];
    RunSourcesAppend(plugin, ch, visitKey, sources[..k], sources[k..], req);
    assert sources[k..][0] == sources[k];
  }

  /** What `identity_from_request` returns for a pipeline run: the identity found, else the anonymous one. */
  function Resolved<I>(p: Provider<I>, r: Result<Option<I>>): (id: Result<I>)
    ensures r.Err? ==> id == Err(r.exc)
    ensures r == Ok(None) ==> id == Ok(p.anonymousIdentity)
    ensures r.Ok? && r.value.Some? ==> id == Ok(r.value.value)
  {
    match r
    case Err(e) => Err(e)
    case Ok(None) => Ok(p.anonymousIdentity)
    case Ok(Some(i)) => Ok(i)
  }

  /**
   * `identity_from_request`: asks the plugin's sources in order, applying
   * each one's changes to the request as it goes, and returns the first
   * identity found (or what a source raised), else the anonymous identity.
   */
  method IdentityFromRequest<I>(plugin: Plugin<I>, ch: Channels<I>, visitKey: Str,
                                request: FailureRequest, ident: IdentityRequest<I, Provider<I>>)
    returns (r: Result<I>)
    modifies request`params, ident`loginAttempted
    ensures var run := RunSources(plugin, ch, visitKey, plugin.sources, Req(old(request.params), false));
            r == Resolved(plugin.provider, run.result) &&
            request.params == run.req.params &&
            (run.req.attempted ==> ident.WasLoginAttempted()) &&
            (!run.req.attempted ==> ident.loginAttempted == old(ident.loginAttempted))
  {
    var req := Req(request.params, false);
    ghost var start := req;
    var i := 0;
    while i < |plugin.sources|
      invariant 0 <= i <= |plugin.sources|
      invariant RunSources(plugin, ch, visitKey, plugin.sources[..i], start) == Step(Ok(None), req)
      invariant request.params == req.params
      invariant req.attempted ==> ident.WasLoginAttempted()
      invariant !req.attempted ==> ident.loginAttempted == old(ident.loginAttempted)
    {
      var step := RunSource(plugin, ch, visitKey, plugin.sources[i], req);
      request.params := step.req.params;
      if step.req.attempted {
        ident.SetLoginAttempted(true);
      }
      assert plugin.sources == plugin.sources[..i] + plugin.sources[i..];
      RunSourcesAppend(plugin, ch, visitKey, plugin.sources[..i], plugin.sources[i..], start);
      if step.result != Ok(None) {
        return Resolved(plugin.provider, step.result);
      }
      assert plugin.sources[..i + 1] == plugin.sources[..i] + [plugin.sources[i]];
      RunSourcesAppend(plugin, ch, visitKey, plugin.sources[..i], [plugin.sources[i]], start);
      assert [plugin.sources[i]][1..] == [];
      req := step.req;
      i := i + 1;
    }
    assert plugin.sources[..i] == plugin.sources;
    return Ok(plugin.provider.anonymousIdentity);
  }

  /**
   * `record_request`: with identity off the current identity is set to None
   * and no source is asked; otherwise the pipeline runs, an identity
   * exception from it is turned into an identity failure (whose redirect is
   * returned as the exception raised), any other exception escapes, and an
   * identity found is stored with the plugin's provider.
   */
  method RecordRequest<I>(plugin: Plugin<I>, ch: Channels<I>, identityOn: bool, visitKey: Str,
                          request: FailureRequest, ident: IdentityRequest<I, Provider<I>>,
                          failureUrl: FailureUrl, forceExternal: bool,
                          buildUrl: (Str, map<Str, Value>) -> Str, urlencode: map<Str, Value> -> Str)
    returns (raised: Option<Exc>)
    modifies request, ident
    ensures !identityOn ==>
              (raised.None? && ident.identity.None? && ident.userName.None? &&
               request.params == old(request.params) && ident.loginAttempted == old(ident.loginAttempted))
    ensures identityOn ==>
              var run := RunSources(plugin, ch, visitKey, plugin.sources, Req(old(request.params), false));
              var id := Resolved(plugin.provider, run.result);
              (id.Ok? ==> raised.None? && ident.identity == Some(id.value) &&
                          ident.userName == plugin.provider.userNameOf(id.value) &&
                          ident.identityProvider == Some(plugin.provider)) &&
              (id.Err? && !IsIdentityException(id.exc) ==> raised == Some(id.exc)) &&
              (id.Err? && IsIdentityException(id.exc) ==>
                 raised.Some? &&
                 request.identityErrors == Some([IdentityExceptionText(id.exc)]) &&
                 (GetFailureUrl(failureUrl, Many([IdentityExceptionText(id.exc)])).Err? ==>
                    raised.value.IdentityConfigurationException?) &&
                 (GetFailureUrl(failureUrl, Many([IdentityExceptionText(id.exc)])).Ok? ==>
                    request.params == run.req.params["forward_url" := VStr(request.pathInfo)]))
  {
    if !identityOn {
      ident.SetCurrentIdentity(None, plugin.provider.userNameOf);
      return None;
    }
    var id := IdentityFromRequest(plugin, ch, visitKey, request, ident);
    if id.Err? {
      if IsIdentityException(id.exc) {
        var errors := Many([IdentityExceptionText(id.exc)]);
        var failure := request.IdentityFailure(errors, failureUrl, forceExternal, buildUrl, urlencode);
        return Some(failure);
      }
      return Some(id.exc);
    }
    ident.SetCurrentIdentity(Some(id.value), plugin.provider.userNameOf);
    ident.SetCurrentProvider(Some(plugin.provider));
    return None;
  }
}
