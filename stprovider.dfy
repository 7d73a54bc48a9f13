/*
 * The Storm identity provider (gearshift/identity/stprovider.py): the
 * database encoding of user names, the salted password format
 * `H(password + salt) + salt`, password validation with its migration of
 * unsalted passwords, and credential validation.
 *
 * `H` is the provider's unsalted `encrypt_password`, `ProviderHash`: the
 * configured algorithm of `encrypt_pw_with_algorithm`, with its exceptions.
 * The lemmas about digest lengths take any `H` of a fixed length.
 * The identity object is `SaProvider.DbIdentity`, whose code StormIdentity
 * repeats.
 */
module StProvider {
  import opened Common
  import opened Utf8
  import opened IdentityBase
  import opened SaProvider

  /** The `dbEncoding` of the user-name column: UTF-8 unless the model says otherwise. */
  datatype Encoding = Utf8Encoding | OtherEncoding(encode: Str -> Result<seq<Byte>>)

  /** `to_db_encoding`: byte strings pass unchanged, text is encoded. */
  function ToDbEncoding(s: Password, enc: Encoding): (r: Result<seq<Byte>>)
    ensures s.Bytes? ==> r == Ok(s.bytes)
    ensures s.Text? && enc.Utf8Encoding? ==> r.Ok? && Decode(r.value) == Some(s.text)
    ensures s.Text? && enc.OtherEncoding? ==> r == enc.encode(s.text)
  {
    match s
    case Bytes(b) => Ok(b)
    case Text(t) =>
      match enc
      case Utf8Encoding => DecodeEncode(t); Ok(Encode(t))
      case OtherEncoding(encode) => encode(t)
  }

  /**
   * `by_user_name`, a Storm `.one()` query: the index of the only user with
   * that name, None when there is none, NotOneError when there are several.
   */
  function OneNamed(users: seq<User>, name: Str): (r: Result<Option<nat>>)
    ensures r == Ok(None) <==> forall j :: 0 <= j < |users| ==> users[j].userName != name
    ensures r.Ok? && r.value.Some? ==>
              r.value.value < |users| && users[r.value.value].userName == name &&
              forall j :: 0 <= j < |users| && j != r.value.value ==> users[j].userName != name
    ensures r.Err? ==>
              r.exc == NotOneError &&
              exists i, j :: 0 <= i < j < |users| && users[i].userName == name && users[j].userName == name
  {
    match FirstNamed(users, name, 0)
    case None => Ok(None)
    case Some(i) =>
      if FirstNamed(users, name, i + 1).Some? then Err(NotOneError) else Ok(Some(i))
  }

  /**
   * `by_user_name` as written: the query goes through a module-level `store`
   * that the module never binds (`storm.locals` provides the class `Store`),
   * so the call raises NameError unless something outside binds the name.
   * `bound` says whether it is bound.
   */
  function ByUserNameAsWritten(bound: bool, users: seq<User>, name: Str): (r: Result<Option<nat>>)
    ensures !bound ==> r == Err(NameError("store"))
    ensures bound ==> r == OneNamed(users, name)
  {
    if bound then OneNamed(users, name) else Err(NameError("store"))
  }

  /** With `store` unbound, the only user of a name is not found but NameError escapes. */
  lemma UnboundStoreHidesUser(u: User)
    ensures ByUserNameAsWritten(false, [u], u.userName) == Err(NameError("store"))
    ensures OneNamed([u], u.userName) == Ok(Some(0))
  {
  }

  /** The split point of the stored format as written. */
  const SaltOffset: nat := 40

  /** `stored[at:]`, empty when the string is not longer than `at`. */
  function SaltPart(stored: Str, at: nat): (r: Str)
    ensures |stored| <= at ==> r == []
    ensures |stored| > at ==> r == stored[at..]
  {
    if |stored| <= at then [] else stored[at..]
  }

  /** `stored[:at]`, the whole string when it is not longer than `at`. */
  function HashPart(stored: Str, at: nat): (r: Str)
    ensures |stored| <= at ==> r == stored
    ensures |stored| > at ==> r == stored[..at]
  {
    if |stored| <= at then stored else stored[..at]
  }

  /**
   * The Storm provider's unsalted `encrypt_password`: `encrypt_pw_with_algorithm`
   * with the configured `tools.identity.stprovider.encryption_algorithm`
   * (None by default). It raises what that function raises.
   */
  function ProviderHash(algorithm: Option<Str>, hashing: Hashing): Password -> Result<Str>
  {
    p => EncryptPwAsWritten(algorithm, p, hashing)
  }

  /**
   * What `identity.current_provider` gives the module's `encrypt_password`:
   * a provider (the request's, or else a default one it could create); no
   * provider outside a request (RequestRequiredException); no provider
   * inside a request (IdentityManagementNotEnabledException).
   */
  datatype ProviderLookup = Obtained | MissingOutsideRequest | MissingInRequest

  /**
   * The module's `encrypt_password`, with `h` the provider's unsalted hash
   * of a password. With a provider the salt is the hash of the random bytes,
   * and the hash of password and salt is followed by the salt; without one
   * outside a request a provider made for the purpose hashes the password
   * without salt; without one inside a request the exception is not caught.
   * An exception of `h` is not caught either.
   */
  function EncryptPassword(h: Password -> Result<Str>, cleartext: Str, randomBytes: seq<Byte>, provider: ProviderLookup): (r: Result<Str>)
    ensures provider == Obtained && h(Bytes(randomBytes)).Err? ==> r == Err(h(Bytes(randomBytes)).exc)
    ensures provider == Obtained && h(Bytes(randomBytes)).Ok? ==>
              var salt := h(Bytes(randomBytes)).value;
              var digest := h(Text(cleartext + salt));
              (r.Ok? <==> digest.Ok?) &&
              (r.Ok? ==> r.value == digest.value + salt) &&
              (r.Err? ==> r.exc == digest.exc)
    ensures provider == MissingOutsideRequest ==> r == h(Text(cleartext))
    ensures provider == MissingInRequest ==> r == Err(IdentityManagementNotEnabledException)
  {
    match provider
    case Obtained =>
      (match h(Bytes(randomBytes))
       case Err(e) => Err(e)
       case Ok(salt) =>
         match h(Text(cleartext + salt))
         case Err(e) => Err(e)
         case Ok(digest) => Ok(digest + salt))
    case MissingOutsideRequest => h(Text(cleartext))
    case MissingInRequest => Err(IdentityManagementNotEnabledException)
  }

  /**
   * Under the default algorithm None, `encrypt_pw_with_algorithm` decodes
   * the random salt bytes as UTF-8, so random bytes that are not UTF-8 make
   * the module's `encrypt_password` raise UnicodeDecodeError.
   */
  lemma DefaultAlgorithmSaltFails(hashing: Hashing, cleartext: Str, randomBytes: seq<Byte>)
    requires Decode(randomBytes).None?
    ensures EncryptPassword(ProviderHash(None, hashing), cleartext, randomBytes, Obtained) == Err(UnicodeDecodeError)
  {
    assert ProviderHash(None, hashing)(Bytes(randomBytes)) == AsText(Bytes(randomBytes));
  }

  /** The verdict of `validate_password` and the user's stored password afterwards. */
  datatype Check = Check(valid: bool, stored: Str)

  /**
   * `validate_password` as written: the stored value is split at index 40;
   * with a salt part the hash part is compared with `H(password + salt)`;
   * without one the stored value is compared with `H(password)` and, on
   * success, `user.password = password` is assigned, which the column's
   * validator stores as `H(password)` again. An exception of `H` is raised.
   */
  function CheckPasswordAsWritten(h: Password -> Result<Str>, stored: Str, password: Str): (r: Result<Check>)
    ensures SaltPart(stored, SaltOffset) != [] ==>
              var digest := h(Text(password + SaltPart(stored, SaltOffset)));
              (digest.Err? ==> r == Err(digest.exc)) &&
              (digest.Ok? ==> r == Ok(Check(HashPart(stored, SaltOffset) == digest.value, stored)))
    ensures SaltPart(stored, SaltOffset) == [] ==>
              var digest := h(Text(password));
              (digest.Err? ==> r == Err(digest.exc)) &&
              (digest.Ok? ==> r.Ok? && (r.value.valid <==> stored == digest.value))
    ensures r.Ok? ==> r.value.stored == stored
  {
    var salt := SaltPart(stored, SaltOffset);
    if salt != [] then
      match h(Text(password + salt))
      case Err(e) => Err(e)
      case Ok(digest) => Ok(Check(HashPart(stored, SaltOffset) == digest, stored))
    else
      match h(Text(password))
      case Err(e) => Err(e)
      case Ok(digest) => if stored == digest then Ok(Check(true, digest)) else Ok(Check(false, stored))
  }

  /** With 'custom' and no configured path, validating any password raises NameError. */
  lemma CustomUnconfiguredCheckFails(hashing: Hashing, stored: Str, password: Str)
    requires !Configured(hashing.customPath)
    ensures CheckPasswordAsWritten(ProviderHash(Some("custom"), hashing), stored, password) == Err(NameError("custom_encryption"))
  {
    CustomWithoutPathFails(Text(password + SaltPart(stored, SaltOffset)), hashing);
    CustomWithoutPathFails(Text(password), hashing);
  }

  /** With a 40-character H the salted format round-trips through the code as written. */
  lemma RoundTripAsWritten(h: Password -> Result<Str>, password: Str, randomBytes: seq<Byte>)
    requires forall p :: h(p).Ok? && |h(p).value| == 40
    ensures var e := EncryptPassword(h, password, randomBytes, Obtained);
            e.Ok? && CheckPasswordAsWritten(h, e.value, password) == Ok(Check(true, e.value))
  {
    var salt := h(Bytes(randomBytes)).value;
    var digest := h(Text(password + salt)).value;
    var stored := digest + salt;
    assert |salt| == 40 && |digest| == 40;
    assert stored[40..] == salt;
    assert stored[..40] == digest;
  }

  /**
   * With a digest of any other length than 40 (32 hex characters for md5)
   * the code as written rejects every password it has itself just salted.
   */
  lemma ShortDigestRejected(h: Password -> Result<Str>, password: Str, randomBytes: seq<Byte>)
    requires forall p :: h(p).Ok? && |h(p).value| == 32
    ensures var e := EncryptPassword(h, password, randomBytes, Obtained);
            e.Ok? && CheckPasswordAsWritten(h, e.value, password) == Ok(Check(false, e.value))
  {
    var salt := h(Bytes(randomBytes)).value;
    var stored := h(Text(password + salt)).value + salt;
    assert |stored| == 64;
    var s := SaltPart(stored, SaltOffset);
    assert |s| == 24;
    assert |HashPart(stored, SaltOffset)| == 40;
    assert |h(Text(password + s)).value| == 32;
  }

  /**
   * The migration of an unsalted password as written stores `H(password)`,
   * exactly what was stored before: the password stays unsalted.
   */
  lemma LegacyMigrationIsNoOp(h: Password -> Result<Str>, password: Str)
    requires h(Text(password)).Ok? && |h(Text(password)).value| <= SaltOffset
    ensures CheckPasswordAsWritten(h, h(Text(password)).value, password) == Ok(Check(true, h(Text(password)).value))
  {
  }

  /**
   * `validate_password` as evidently intended: the stored value is split
   * after the digest (`hashLen` characters of the configured algorithm),
   * and a matching unsalted password is migrated to the salted format with
   * a salt made from `randomBytes`. Exceptions of `H` are raised as before.
   */
  function CheckPassword(h: Password -> Result<Str>, hashLen: nat, stored: Str, password: Str, randomBytes: seq<Byte>): (r: Result<Check>)
    ensures SaltPart(stored, hashLen) != [] ==>
              var digest := h(Text(password + SaltPart(stored, hashLen)));
              (digest.Err? ==> r == Err(digest.exc)) &&
              (digest.Ok? ==> r == Ok(Check(HashPart(stored, hashLen) == digest.value, stored)))
    ensures SaltPart(stored, hashLen) == [] ==>
              var digest := h(Text(password));
              var salted := EncryptPassword(h, password, randomBytes, Obtained);
              (digest.Err? ==> r == Err(digest.exc)) &&
              (digest.Ok? && stored != digest.value ==> r == Ok(Check(false, stored))) &&
              (digest.Ok? && stored == digest.value && salted.Err? ==> r == Err(salted.exc)) &&
              (digest.Ok? && stored == digest.value && salted.Ok? ==> r == Ok(Check(true, salted.value)))
  {
    var salt := SaltPart(stored, hashLen);
    if salt != [] then
      match h(Text(password + salt))
      case Err(e) => Err(e)
      case Ok(digest) => Ok(Check(HashPart(stored, hashLen) == digest, stored))
    else
      match h(Text(password))
      case Err(e) => Err(e)
      case Ok(digest) =>
        if stored != digest then Ok(Check(false, stored))
        else
          match EncryptPassword(h, password, randomBytes, Obtained)
          case Err(e) => Err(e)
          case Ok(migrated) => Ok(Check(true, migrated))
  }

  /** For any fixed, non-zero digest length the salted format round-trips and is kept. */
  lemma RoundTrip(h: Password -> Result<Str>, hashLen: nat, password: Str, randomBytes: seq<Byte>, randomBytes2: seq<Byte>)
    requires hashLen > 0 && forall p :: h(p).Ok? && |h(p).value| == hashLen
    ensures var e := EncryptPassword(h, password, randomBytes, Obtained);
            e.Ok? && CheckPassword(h, hashLen, e.value, password, randomBytes2) == Ok(Check(true, e.value))
  {
    var salt := h(Bytes(randomBytes)).value;
    var digest := h(Text(password + salt)).value;
    var stored := digest + salt;
    assert |salt| == hashLen && |digest| == hashLen;
    assert stored[hashLen..] == salt;
    assert stored[..hashLen] == digest;
  }

  /**
   * A matching unsalted password is accepted, stored salted, and the
   * migrated value is accepted for the same password afterwards.
   */
  lemma LegacyMigration(h: Password -> Result<Str>, hashLen: nat, password: Str, randomBytes: seq<Byte>, randomBytes2: seq<Byte>)
    requires hashLen > 0 && forall p :: h(p).Ok? && |h(p).value| == hashLen
    ensures var r := CheckPassword(h, hashLen, h(Text(password)).value, password, randomBytes);
            r.Ok? && r.value.valid && |r.value.stored| == 2 * hashLen &&
            CheckPassword(h, hashLen, r.value.stored, password, randomBytes2) == Ok(Check(true, r.value.stored))
  {
    assert SaltPart(h(Text(password)).value, hashLen) == [];
    RoundTrip(h, hashLen, password, randomBytes, randomBytes2);
  }

  /**
   * `validate_identity`: None for an unknown user name and, the same, for a
   * wrong password; several users of that name raise NotOneError;
   * otherwise the password is checked as `validate_password` is written
   * (an exception of the hash is raised with nothing changed), its
   * migration assignment is stored back, and a new identity holding the
   * user logs in to the visit.
   */
  method ValidateIdentity(h: Password -> Result<Str>, store: Store, userName: Str, password: Str, visitKey: Option<Str>)
    returns (r: Result<Option<DbIdentity>>)
    modifies store
    ensures var found := OneNamed(old(store.users), userName);
            (found.Err? ==> r == Err(NotOneError) && store.users == old(store.users) &&
                            store.visitLinks == old(store.visitLinks)) &&
            (found == Ok(None) ==> r == Ok(None) && store.users == old(store.users) &&
                                   store.visitLinks == old(store.visitLinks)) &&
            (found.Ok? && found.value.Some? ==>
               var i := found.value.value;
               var u := old(store.users)[i];
               var c := CheckPasswordAsWritten(h, u.password, password);
               (c.Err? ==> r == Err(c.exc) && store.users == old(store.users) &&
                           store.visitLinks == old(store.visitLinks)) &&
               (c.Ok? ==> store.users == old(store.users)[i := u.(password := c.value.stored)]) &&
               (c.Ok? && !c.value.valid ==> r == Ok(None) && store.visitLinks == old(store.visitLinks)) &&
               (c.Ok? && c.value.valid ==>
                            r.Ok? && r.value.Some? && fresh(r.value.value) &&
                            r.value.value.visitKey == visitKey &&
                            r.value.value.loadedUser == Some(Some(u.(password := c.value.stored))) &&
                            store.visitLinks == (if visitKey.Some? then old(store.visitLinks)[visitKey.value := u.userId]
                                                 else old(store.visitLinks))))
  {
    var found := OneNamed(store.users, userName);
    if found.Err? {
      return Err(found.exc);
    }
    if found.value.None? {
      return Ok(None);
    }
    var i := found.value.value;
    var u := store.users[i];
    var c := CheckPasswordAsWritten(h, u.password, password);
    if c.Err? {
      return Err(c.exc);
    }
    var updated := u.(password := c.value.stored);
    store.users := store.users[i := updated];
    if !c.value.valid {
      return Ok(None);
    }
    var ident := new DbIdentity(visitKey, Some(updated), store);
    return Ok(Some(ident));
  }
}
