/*
 * The SQLAlchemy identity provider (gearshift/identity/saprovider.py): the
 * identity object with its lazily loaded and cached user, groups and
 * permissions, the visit link written on login and removed on logout, and
 * credential validation.
 *
 * The database is an in-memory store: the user table in query order and the
 * visit-identity table keyed by visit key. `StormIdentity` in
 * gearshift/identity/stprovider.py has the same code as `SqlAlchemyIdentity`
 * and is modelled by the same class.
 */
module SaProvider {
  import opened Common
  import opened IdentityBase

  datatype Group = Group(groupId: nat, groupName: Str)

  /** A user row with its group memberships and the permissions granted through them. */
  datatype User = User(userId: nat, userName: Str, password: Str, groups: set<Group>, permissions: set<Str>)

  /** The tables the identity consults and writes. */
  class Store {
    var users: seq<User>               // in the order a query returns them
    var visitLinks: map<Str, nat>      // visit key -> user id (the visit-identity table)

    constructor (users: seq<User>, visitLinks: map<Str, nat>)
      ensures this.users == users && this.visitLinks == visitLinks
    {
      this.users := users;
      this.visitLinks := visitLinks;
    }
  }

  /** `user_class.query.get(id)`: the user with that primary key. */
  function UserWithId(users: seq<User>, id: nat): (r: Option<User>)
    ensures r.Some? ==> r.value in users && r.value.userId == id
    ensures r.None? <==> forall u :: u in users ==> u.userId != id
  {
    if users == [] then None
    else if users[0].userId == id then Some(users[0])
    else
      var r := UserWithId(users[1..], id);
      assert forall u :: u in users[1..] ==> u in users;
      assert forall u :: u in users ==> u == users[0] || u in users[1..];
      r
  }

  /** The index of the first user at or after `from` with the given name (`filter_by(...).first()`). */
  function FirstNamed(users: seq<User>, name: Str, from: nat): (r: Option<nat>)
    requires from <= |users|
    ensures r.Some? ==> from <= r.value < |users| && users[r.value].userName == name &&
                        forall j :: from <= j < r.value ==> users[j].userName != name
    ensures r.None? <==> forall j :: from <= j < |users| ==> users[j].userName != name
    decreases |users| - from
  {
    if from == |users| then None
    else if users[from].userName == name then Some(from)
    else FirstNamed(users, name, from + 1)
  }

  /**
   * The user an identity loads on first use: the one its visit key is
   * linked to, None without a visit key, a link or a user with that id.
   */
  function LinkedUser(users: seq<User>, links: map<Str, nat>, visitKey: Option<Str>): (r: Option<User>)
    ensures visitKey.None? ==> r.None?
    ensures r.Some? ==> visitKey.Some? && visitKey.value in links && r.value in users &&
                        r.value.userId == links[visitKey.value]
    ensures visitKey.Some? && visitKey.value in links ==> r == UserWithId(users, links[visitKey.value])
  {
    if visitKey.None? || visitKey.value !in links then None
    else UserWithId(users, links[visitKey.value])
  }

  /** The group names of a user; empty without one. */
  function GroupNames(u: Option<User>): (r: set<Str>)
    ensures u.None? ==> r == {}
    ensures u.Some? ==> forall g :: g in u.value.groups ==> g.groupName in r
    ensures u.Some? ==> forall n :: n in r ==> exists g :: g in u.value.groups && g.groupName == n
  {
    if u.None? then {} else set g | g in u.value.groups :: g.groupName
  }

  /** The group ids of a user; empty without one. */
  function GroupIds(u: Option<User>): (r: set<nat>)
    ensures u.None? ==> r == {}
    ensures u.Some? ==> forall g :: g in u.value.groups ==> g.groupId in r
    ensures u.Some? ==> forall n :: n in r ==> exists g :: g in u.value.groups && g.groupId == n
  {
    if u.None? then {} else set g | g in u.value.groups :: g.groupId
  }

  /** The permission names of a user; empty without one. */
  function PermissionNames(u: Option<User>): (r: set<Str>)
    ensures u.None? ==> r == {}
    ensures u.Some? ==> r == u.value.permissions
  {
    if u.None? then {} else u.value.permissions
  }

  /**
   * `SqlAlchemyIdentity`: the visit key it was made for and the attributes
   * it caches (`None` = not computed yet; `loadedUser == Some(None)` is a
   * loaded absence of user).
   */
  class DbIdentity {
    const visitKey: Option<Str>
    var loadedUser: Option<Option<User>>
    var groups: Option<set<Str>>
    var permissions: Option<set<Str>>
    var groupIds: Option<set<nat>>

    /** The user this identity reports: the one it holds, else the one its visit links to. */
    function UserIn(store: Store): (r: Option<User>)
      reads this, store
      ensures loadedUser.Some? ==> r == loadedUser.value
      ensures loadedUser.None? ==> r == LinkedUser(store.users, store.visitLinks, visitKey)
    {
      if loadedUser.Some? then loadedUser.value else LinkedUser(store.users, store.visitLinks, visitKey)
    }

    /**
     * `__init__`: a user given is held; with a visit key as well the
     * identity logs in, linking the visit to the user (an existing link is
     * repointed, a missing one created).
     */
    constructor (visitKey: Option<Str>, user: Option<User>, store: Store)
      modifies store`visitLinks
      ensures this.visitKey == visitKey
      ensures loadedUser == (if user.Some? then Some(user) else None)
      ensures groups.None? && permissions.None? && groupIds.None?
      ensures user.Some? && visitKey.Some? ==>
                store.visitLinks == old(store.visitLinks)[visitKey.value := user.value.userId]
      ensures !(user.Some? && visitKey.Some?) ==> store.visitLinks == old(store.visitLinks)
    {
      this.visitKey := visitKey;
      loadedUser := if user.Some? then Some(user) else None;
      groups := None;
      permissions := None;
      groupIds := None;
      new;
      if user.Some? && visitKey.Some? {
        store.visitLinks := store.visitLinks[visitKey.value := user.value.userId];
      }
    }

    /** `user`: loaded through the visit link on first use, then kept. */
    method GetUser(store: Store) returns (u: Option<User>)
      modifies this`loadedUser
      ensures u == old(UserIn(store))
      ensures loadedUser == Some(u)
    {
      if loadedUser.None? {
        loadedUser := Some(LinkedUser(store.users, store.visitLinks, visitKey));
      }
      u := loadedUser.value;
    }

    /** `user_name`: None exactly when there is no user. */
    method UserName(store: Store) returns (n: Option<Str>)
      modifies this`loadedUser
      ensures n.None? <==> old(UserIn(store)).None?
      ensures n.Some? ==> n.value == old(UserIn(store)).value.userName
      ensures loadedUser == Some(old(UserIn(store)))
    {
      var u := GetUser(store);
      n := if u.None? then None else Some(u.value.userName);
    }

    /** `user_id`: None exactly when there is no user. */
    method UserId(store: Store) returns (n: Option<nat>)
      modifies this`loadedUser
      ensures n.None? <==> old(UserIn(store)).None?
      ensures n.Some? ==> n.value == old(UserIn(store)).value.userId
      ensures loadedUser == Some(old(UserIn(store)))
    {
      var u := GetUser(store);
      n := if u.None? then None else Some(u.value.userId);
    }

    /** `anonymous`: true iff there is no user. */
    method Anonymous(store: Store) returns (a: bool)
      modifies this`loadedUser
      ensures a <==> old(UserIn(store)).None?
      ensures loadedUser == Some(old(UserIn(store)))
    {
      var u := GetUser(store);
      a := u.None?;
    }

    /** `groups`: computed from the user once, then returned from the cache. */
    method Groups(store: Store) returns (gs: set<Str>)
      modifies this`loadedUser, this`groups
      ensures old(groups).Some? ==> gs == old(groups).value && loadedUser == old(loadedUser)
      ensures old(groups).None? ==> gs == GroupNames(old(UserIn(store))) && loadedUser == Some(old(UserIn(store)))
      ensures groups == Some(gs)
    {
      if groups.Some? {
        return groups.value;
      }
      var u := GetUser(store);
      gs := GroupNames(u);
      groups := Some(gs);
    }

    /** `group_ids`: computed from the user once, then returned from the cache. */
    method GroupIdSet(store: Store) returns (ids: set<nat>)
      modifies this`loadedUser, this`groupIds
      ensures old(groupIds).Some? ==> ids == old(groupIds).value && loadedUser == old(loadedUser)
      ensures old(groupIds).None? ==> ids == GroupIds(old(UserIn(store))) && loadedUser == Some(old(UserIn(store)))
      ensures groupIds == Some(ids)
    {
      if groupIds.Some? {
        return groupIds.value;
      }
      var u := GetUser(store);
      ids := GroupIds(u);
      groupIds := Some(ids);
    }

    /** `permissions`: computed from the user once, then returned from the cache. */
    method Permissions(store: Store) returns (ps: set<Str>)
      modifies this`loadedUser, this`permissions
      ensures old(permissions).Some? ==> ps == old(permissions).value && loadedUser == old(loadedUser)
      ensures old(permissions).None? ==> ps == PermissionNames(old(UserIn(store))) &&
                                         loadedUser == Some(old(UserIn(store)))
      ensures permissions == Some(ps)
    {
      if permissions.Some? {
        return permissions.value;
      }
      var u := GetUser(store);
      ps := PermissionNames(u);
      permissions := Some(ps);
    }

    /**
     * `logout`: the visit link, if any, is deleted and a fresh anonymous
     * identity becomes the request's current identity.
     */
    method Logout<P>(store: Store, request: IdentityRequest<DbIdentity, P>) returns (anon: DbIdentity)
      modifies store`visitLinks, request`identity, request`userName, request`login
      ensures fresh(anon) && anon.visitKey.None? && anon.loadedUser.None?
      ensures anon.UserIn(store).None?
      ensures visitKey.Some? ==> store.visitLinks == old(store.visitLinks) - {visitKey.value}
      ensures visitKey.None? ==> store.visitLinks == old(store.visitLinks)
      ensures request.identity == Some(anon) && request.userName.None? && request.login == old(request.login)
    {
      if visitKey.Some? && visitKey.value in store.visitLinks {
        store.visitLinks := store.visitLinks - {visitKey.value};
      }
      anon := new DbIdentity(None, None, store);
      request.SetCurrentIdentity(Some(anon), (i: DbIdentity) => None);
    }
  }

  /** The anonymous identity has no user, whatever the tables hold. */
  lemma AnonymousHasNoUser(users: seq<User>, links: map<Str, nat>)
    ensures LinkedUser(users, links, None).None?
    ensures GroupNames(LinkedUser(users, links, None)) == {} && PermissionNames(LinkedUser(users, links, None)) == {}
  {
  }

  /** The provider: its hashing configuration (`encryption_algorithm` and the hash functions). */
  datatype Provider = Provider(algorithm: Option<Str>, hashing: Hashing)

  /**
   * `encrypt_password`: `encrypt_pw_with_algorithm`, as written, with the
   * configured algorithm; 'custom' without a configured path raises.
   */
  function EncryptPassword(p: Provider, password: Password): (r: Result<Str>)
    ensures p.algorithm == Some("md5") ==> r == Ok(p.hashing.md5(EightBit(password)))
    ensures p.algorithm == Some("sha1") ==> r == Ok(p.hashing.sha1(EightBit(password)))
    ensures p.algorithm == Some("custom") && !Configured(p.hashing.customPath) ==>
              r == Err(NameError("custom_encryption"))
    ensures p.algorithm !in {Some("md5"), Some("sha1"), Some("custom")} ==> r == AsText(password)
  {
    EncryptPwAsWritten(p.algorithm, password, p.hashing)
  }

  /** `validate_password`: the stored password equals the encrypted candidate. */
  function ValidatePassword(p: Provider, user: User, password: Password): (r: Result<bool>)
    ensures r.Err? <==> EncryptPassword(p, password).Err?
    ensures r.Ok? ==> (r.value <==> EncryptPassword(p, password) == Ok(user.password))
  {
    match EncryptPassword(p, password)
    case Err(e) => Err(e)
    case Ok(hashed) => Ok(user.password == hashed)
  }

  /** With no algorithm configured passwords are stored in clear and compared as text. */
  lemma PlainTextPasswords(user: User, t: Str, h: Hashing)
    ensures ValidatePassword(Provider(None, h), user, Text(t)) == Ok(user.password == t)
  {
    NoOpAlgorithms(None, t, h);
  }

  /**
   * `validate_identity`: None for an unknown user name and, the same, for a
   * wrong password; otherwise a new identity holding the user, logged in to
   * the visit.
   */
  method ValidateIdentity(p: Provider, store: Store, userName: Str, password: Password, visitKey: Option<Str>)
    returns (r: Result<Option<DbIdentity>>)
    modifies store`visitLinks
    ensures var found := FirstNamed(old(store.users), userName, 0);
            (found.None? ==> r == Ok(None) && store.visitLinks == old(store.visitLinks)) &&
            (found.Some? ==>
               var u := old(store.users)[found.value];
               (ValidatePassword(p, u, password).Err? ==> r == Err(ValidatePassword(p, u, password).exc)) &&
               (ValidatePassword(p, u, password) == Ok(false) ==>
                  r == Ok(None) && store.visitLinks == old(store.visitLinks)) &&
               (ValidatePassword(p, u, password) == Ok(true) ==>
                  r.Ok? && r.value.Some? && fresh(r.value.value) &&
                  r.value.value.visitKey == visitKey && r.value.value.loadedUser == Some(Some(u)) &&
                  store.visitLinks == (if visitKey.Some? then old(store.visitLinks)[visitKey.value := u.userId]
                                       else old(store.visitLinks))))
    ensures store.users == old(store.users)
  {
    var found := FirstNamed(store.users, userName, 0);
    if found.None? {
      return Ok(None);
    }
    var u := store.users[found.value];
    var valid := ValidatePassword(p, u, password);
    if valid.Err? {
      return Err(valid.exc);
    }
    if !valid.value {
      return Ok(None);
    }
    var ident := new DbIdentity(visitKey, Some(u), store);
    return Ok(Some(ident));
  }

  /** `load_identity`: an identity for the visit whose user is loaded on first use. */
  method LoadIdentity(store: Store, visitKey: Str) returns (ident: DbIdentity)
    modifies store`visitLinks
    ensures fresh(ident) && ident.visitKey == Some(visitKey) && ident.loadedUser.None?
    ensures store.visitLinks == old(store.visitLinks)
    ensures ident.UserIn(store) == LinkedUser(store.users, store.visitLinks, Some(visitKey))
  {
    ident := new DbIdentity(Some(visitKey), None, store);
  }

  /** `anonymous_identity`: an identity with neither visit key nor user. */
  method AnonymousIdentity(store: Store) returns (ident: DbIdentity)
    modifies store`visitLinks
    ensures fresh(ident) && ident.visitKey.None? && ident.UserIn(store).None?
    ensures store.visitLinks == old(store.visitLinks)
  {
    ident := new DbIdentity(None, None, store);
  }

  /** `authenticated_identity`: an identity holding the user, linked to no visit. */
  method AuthenticatedIdentity(store: Store, user: User) returns (ident: DbIdentity)
    modifies store`visitLinks
    ensures fresh(ident) && ident.visitKey.None? && ident.UserIn(store) == Some(user)
    ensures store.visitLinks == old(store.visitLinks)
  {
    ident := new DbIdentity(None, Some(user), store);
  }
}
