/*
 * Core of the identity package (gearshift/identity/base.py): password
 * hashing dispatch, the provider factory, the per-request identity slots and
 * the status fix-up after a failed login.
 *
 * The md5/sha1 hex digests, the class loader of gearshift.util and the
 * configured custom hashing callable are parameters.
 */
module IdentityBase {
  import opened Common
  import opened Utf8

  /** A Python 2 password: a `unicode` object or an 8-bit `str`. */
  datatype Password = Text(text: Str) | Bytes(bytes: seq<Byte>)

  /** The hash functions and configuration `encrypt_pw_with_algorithm` consults. */
  datatype Hashing = Hashing(
    md5: seq<Byte> -> Str,
    sha1: seq<Byte> -> Str,
    customPath: Option<Str>,                        // tools.identity.custom_encryption
    loadCustom: Str -> Option<seq<Byte> -> Password>)  // gearshift.util.load_class

  /** The 8-bit form handed to the hash functions: text is UTF-8 encoded. */
  function EightBit(p: Password): (r: seq<Byte>)
    ensures p.Bytes? ==> r == p.bytes
    ensures p.Text? ==> Decode(r) == Some(p.text)
  {
    match p
    case Text(t) => DecodeEncode(t); Encode(t)
    case Bytes(b) => b
  }

  /** The final conversion to `unicode`: bytes are UTF-8 decoded, which may fail. */
  function AsText(p: Password): (r: Result<Str>)
    ensures p.Text? ==> r == Ok(p.text)
    ensures p.Bytes? ==> (r.Ok? <==> Decode(p.bytes).Some?)
  {
    match p
    case Text(t) => Ok(t)
    case Bytes(b) => if Decode(b).Some? then Ok(Decode(b).value) else Err(UnicodeDecodeError)
  }

  /** A configuration path is used only when it is truthy. */
  predicate Configured(path: Option<Str>) { path.Some? && path.value != [] }

  /**
   * `encrypt_pw_with_algorithm` as written. With 'custom' and no configured
   * path, the name `custom_encryption` is never bound and the test of it
   * raises UnboundLocalError (a NameError).
   */
  function EncryptPwAsWritten(algorithm: Option<Str>, password: Password, h: Hashing): (r: Result<Str>)
    ensures algorithm == Some("md5") ==> r == Ok(h.md5(EightBit(password)))
    ensures algorithm == Some("sha1") ==> r == Ok(h.sha1(EightBit(password)))
    ensures algorithm == Some("custom") && !Configured(h.customPath) ==> r == Err(NameError("custom_encryption"))
    ensures r.Err? ==> r.exc == UnicodeDecodeError || (algorithm == Some("custom") && !Configured(h.customPath))
  {
    if algorithm == Some("md5") then Ok(h.md5(EightBit(password)))
    else if algorithm == Some("sha1") then Ok(h.sha1(EightBit(password)))
    else if algorithm == Some("custom") then
      if !Configured(h.customPath) then Err(NameError("custom_encryption"))
      else match h.loadCustom(h.customPath.value)
        case None => AsText(password)
        case Some(f) => AsText(f(EightBit(password)))
    else AsText(password)
  }

  /** The unbound name is reached by every 'custom' call without a configured path. */
  lemma CustomWithoutPathFails(password: Password, h: Hashing)
    requires !Configured(h.customPath)
    ensures EncryptPwAsWritten(Some("custom"), password, h) == Err(NameError("custom_encryption"))
  {
  }

  /**
   * `encrypt_pw_with_algorithm` as evidently intended: an unconfigured
   * custom hash, like a configured path the loader cannot resolve, leaves
   * the password unhashed.
   */
  function EncryptPwWithAlgorithmCorrected(algorithm: Option<Str>, password: Password, h: Hashing): (r: Result<Str>)
    ensures algorithm == Some("md5") ==> r == Ok(h.md5(EightBit(password)))
    ensures algorithm == Some("sha1") ==> r == Ok(h.sha1(EightBit(password)))
    ensures algorithm == Some("custom") && Configured(h.customPath) && h.loadCustom(h.customPath.value).Some? ==>
              r == AsText(h.loadCustom(h.customPath.value).value(EightBit(password)))
    ensures algorithm !in {Some("md5"), Some("sha1"), Some("custom")} ==> r == AsText(password)
    ensures algorithm == Some("custom") && !Configured(h.customPath) ==> r == AsText(password)
    ensures r.Err? ==> r.exc == UnicodeDecodeError
  {
    if algorithm == Some("custom") && !Configured(h.customPath) then AsText(password)
    else EncryptPwAsWritten(algorithm, password, h)
  }

  /** The corrected function differs from the code only where the code raises NameError. */
  lemma EncryptPwAgreesWithCode(algorithm: Option<Str>, password: Password, h: Hashing)
    ensures EncryptPwAsWritten(algorithm, password, h).Ok? ==>
              EncryptPwWithAlgorithmCorrected(algorithm, password, h) == EncryptPwAsWritten(algorithm, password, h)
    ensures EncryptPwAsWritten(algorithm, password, h) != EncryptPwWithAlgorithmCorrected(algorithm, password, h) ==>
              EncryptPwAsWritten(algorithm, password, h) == Err(NameError("custom_encryption"))
  {
  }

  /** A text password and its UTF-8 bytes give the same result, for every algorithm. */
  lemma {:induction false} TextAndUtf8BytesAgree(algorithm: Option<Str>, t: Str, h: Hashing)
    ensures EncryptPwAsWritten(algorithm, Text(t), h) == EncryptPwAsWritten(algorithm, Bytes(Encode(t)), h)
  {
    DecodeEncode(t);
    assert EightBit(Text(t)) == EightBit(Bytes(Encode(t)));
  }

  /** Unknown algorithms (None included) return a text password unchanged. */
  lemma NoOpAlgorithms(algorithm: Option<Str>, t: Str, h: Hashing)
    requires algorithm !in {Some("md5"), Some("sha1"), Some("custom")}
    ensures EncryptPwAsWritten(algorithm, Text(t), h) == Ok(t)
  {
  }

  // ---------------------------------------------------------------------
  // Provider factory

  const DefaultProvider: Str := "gearshift.identity.soprovider.SqlObjectIdentityProvider"

  /**
   * `create_default_provider`: the configured `tools.identity.provider`
   * (default the SQLObject provider) is loaded and instantiated; a class
   * that cannot be loaded raises IdentityConfigurationException.
   */
  function CreateDefaultProvider<P>(configured: Option<Str>, loadClass: Str -> Option<P>): (r: Result<P>)
    ensures var path := configured.GetOr(DefaultProvider);
            (r.Ok? <==> loadClass(path).Some?) &&
            (r.Ok? ==> r.value == loadClass(path).value) &&
            (r.Err? ==> r.exc == IdentityConfigurationException("IdentityProvider plugin missing: " + path))
  {
    var path := configured.GetOr(DefaultProvider);
    match loadClass(path)
    case None => Err(IdentityConfigurationException("IdentityProvider plugin missing: " + path))
    case Some(p) => Ok(p)
  }

  // ---------------------------------------------------------------------
  // Per-request identity state

  /**
   * The identity attributes of the CherryPy request. An attribute that was
   * never set is `None`; `identity` also holds Python None as `None`.
   */
  class IdentityRequest<I, P> {
    var identity: Option<I>
    var userName: Option<Str>
    var login: Option<Str>
    var loginAttempted: Option<bool>
    var identityProvider: Option<P>

    constructor (login: Option<Str>)
      ensures identity == None && userName == None && this.login == login
      ensures loginAttempted == None && identityProvider == None
    {
      identity := None;
      userName := None;
      this.login := login;
      loginAttempted := None;
      identityProvider := None;
    }

    /** `was_login_attempted`: False until `set_login_attempted` ran. */
    function WasLoginAttempted(): (r: bool)
      reads this
      ensures loginAttempted.None? ==> !r
      ensures loginAttempted.Some? ==> r == loginAttempted.value
    {
      loginAttempted.GetOr(false)
    }

    method SetLoginAttempted(flag: bool)
      modifies this`loginAttempted
      ensures WasLoginAttempted() == flag
    {
      loginAttempted := Some(flag);
    }

    /**
     * `set_current_identity`: records the identity and its user name (None
     * for None or a nameless identity); the access-log `login` is overwritten
     * only by a real user name.
     */
    method SetCurrentIdentity(ident: Option<I>, userNameOf: I -> Option<Str>)
      modifies this`identity, this`userName, this`login
      ensures identity == ident
      ensures userName == (if ident.Some? then userNameOf(ident.value) else None)
      ensures login == (if userName.Some? then userName else old(login))
    {
      identity := ident;
      userName := if ident.Some? then userNameOf(ident.value) else None;
      if userName.Some? {
        login := userName;
      }
    }

    method SetCurrentProvider(provider: Option<P>)
      modifies this`identityProvider
      ensures identityProvider == provider
    {
      identityProvider := provider;
    }

    /**
     * `IdentityWrapper.identity`: the current identity; without one it
     * raises RequestRequiredException outside a request and
     * IdentityManagementNotEnabledException inside one.
     */
    function CurrentIdentity(requestAvailable: bool): (r: Result<I>)
      reads this
      ensures identity.Some? <==> r.Ok?
      ensures r.Ok? ==> r.value == identity.value
      ensures identity.None? && !requestAvailable ==> r == Err(RequestRequiredException)
      ensures identity.None? && requestAvailable ==> r == Err(IdentityManagementNotEnabledException)
    {
      match identity
      case Some(i) => Ok(i)
      case None => if requestAvailable then Err(IdentityManagementNotEnabledException) else Err(RequestRequiredException)
    }

    /**
     * `ProviderWrapper.__getattr__`: the request's provider, else a freshly
     * created default provider (any failure counts as none), else the same
     * two exceptions as for the identity.
     */
    function CurrentProvider(requestAvailable: bool, created: Result<P>): (r: Result<P>)
      reads this
      ensures identityProvider.Some? ==> r == Ok(identityProvider.value)
      ensures identityProvider.None? && created.Ok? ==> r == created
      ensures identityProvider.None? && created.Err? ==>
                r == Err(if requestAvailable then IdentityManagementNotEnabledException else RequestRequiredException)
    {
      match identityProvider
      case Some(p) => Ok(p)
      case None =>
        if created.Ok? then created
        else if requestAvailable then Err(IdentityManagementNotEnabledException)
        else Err(RequestRequiredException)
    }
  }

  // ---------------------------------------------------------------------
  // Status fix-up

  /** The response whose status `verify_identity_status` may replace. */
  class StatusResponse {
    var status: Str

    constructor (status: Str)
      ensures this.status == status
    {
      this.status := status;
    }

    /**
     * `verify_identity_status`: while the status compares (as a string)
     * below '400', a truthy `identity_status` from the WSGI environ replaces it.
     */
    method VerifyIdentityStatus(identityStatus: Option<Str>)
      modifies this
      ensures LexLess(old(status), "400") && identityStatus.Some? && identityStatus.value != [] ==>
                status == identityStatus.value
      ensures !(LexLess(old(status), "400") && identityStatus.Some? && identityStatus.value != []) ==>
                status == old(status)
    {
      if LexLess(status, "400") {
        if identityStatus.Some? && identityStatus.value != [] {
          status := identityStatus.value;
        }
      }
    }
  }

  /**
   * For a status line that starts with a three-digit code, the string test
   * `status < '400'` is the numeric test `code < 400`.
   */
  lemma StatusBelow400(status: Str)
    requires |status| >= 3 && AllDigits(status[..3])
    ensures LexLess(status, "400") <==> DigitsValue(status[..3]) < 400
  {
    var d := status[..3];
    var a, b, c := d[0] as int - '0' as int, d[1] as int - '0' as int, d[2] as int - '0' as int;
    assert d[..2][..1] == d[..1] && d[..1][..0] == [];
    assert DigitsValue(d[..1]) == a;
    assert DigitsValue(d[..2]) == 10 * a + b;
    assert DigitsValue(d) == 100 * a + 10 * b + c;
    var f: Str := "400";
    assert f[0] == '4' && f[1..] == "00" && f[1..][0] == '0' && f[1..][1..] == "0";
    assert f[1..][1..][0] == '0' && f[1..][1..][1..] == [];
    assert LexLess(status, f) == if status[0] != '4' then status[0] < '4' else LexLess(status[1..], f[1..]);
    if status[0] == '4' {
      var s1 := status[1..];
      assert LexLess(s1, f[1..]) == if s1[0] != '0' then s1[0] < '0' else LexLess(s1[1..], f[1..][1..]);
      if s1[0] == '0' {
        var s2 := s1[1..];
        assert LexLess(s2, f[1..][1..]) == if s2[0] != '0' then s2[0] < '0' else LexLess(s2[1..], []);
      }
    }
  }
}
