/*
 * The OAuth data store of gearshift/tools/oauth/sodatastore.py: token rows
 * (`TG_Token`) updated in place, nonce rows (`TG_Nonce`), and the lookups
 * and token exchanges of `OAuthDataStore`. The tables are in-memory
 * sequences; `make_hash` (the SHA-1 of a fresh UUID) is a parameter, and
 * the `key` column is unique, so a generated key already in use raises
 * IntegrityError.
 */
module OAuthStore {
  import opened Common

  const TokenApi: int := 0
  const TokenRequest: int := 1
  const TokenAccess: int := 2

  /** A `TG_Token` row. `user` is the owner's id; `authorized` is an integer column. */
  class Token {
    var key: Str
    var secret: Str
    var tokenLabel: Str
    var tokenType: int
    var scopes: Str
    var authorized: int
    var user: int

    /** A new row: the given key, secret, type, owner and tokenLabel, no scopes, not authorized. */
    constructor (key: Str, secret: Str, tokenType: int, user: int, tokenLabel: Str)
      ensures this.key == key && this.secret == secret && this.tokenType == tokenType
      ensures this.user == user && this.tokenLabel == tokenLabel && scopes == "" && authorized == 0
    {
      this.key := key;
      this.secret := secret;
      this.tokenLabel := tokenLabel;
      this.tokenType := tokenType;
      this.scopes := "";
      this.authorized := 0;
      this.user := user;
    }

    /** `upgrade`: becomes an access token with a new key and secret; the rest stays. */
    method Upgrade(newKey: Str, newSecret: Str)
      modifies this
      ensures tokenType == TokenAccess && key == newKey && secret == newSecret
      ensures tokenLabel == old(tokenLabel) && scopes == old(scopes) && authorized == old(authorized) && user == old(user)
    {
      tokenType := TokenAccess;
      key := newKey;
      secret := newSecret;
    }

    /** `reset_key`: a new key and secret; the type and the rest stay. */
    method ResetKey(newKey: Str, newSecret: Str)
      modifies this
      ensures key == newKey && secret == newSecret
      ensures tokenType == old(tokenType) && tokenLabel == old(tokenLabel) && scopes == old(scopes)
      ensures authorized == old(authorized) && user == old(user)
    {
      key := newKey;
      secret := newSecret;
    }
  }

  /** A `TG_Nonce` row. */
  datatype Nonce = Nonce(nonce: Str, consumerKey: Str)

  /** What the store hands the OAuth library: a consumer, and a token's key and secret. */
  datatype Consumer = Consumer(key: Str, secret: Str, user: int)
  datatype OAuthToken = OAuthToken(key: Str, secret: Str)

  /** `by_key`: where the row with `key` is, -1 when there is none. */
  function FindKey(ts: seq<Token>, key: Str): (r: int)
    reads ts
    ensures -1 <= r < |ts|
    ensures r >= 0 ==> ts[r].key == key
    ensures r == -1 <==> forall i :: 0 <= i < |ts| ==> ts[i].key != key
    decreases |ts|
  {
    if ts == [] then -1
    else if ts[0].key == key then 0
    else
      var r := FindKey(ts[1..], key);
      assert forall i :: 1 <= i < |ts| ==> ts[i] == ts[1..][i - 1];
      if r == -1 then -1 else r + 1
  }

  /** `TG_Nonce.by_nonce_consumer`: the first row for the nonce and consumer, SQLObjectNotFound when none. */
  function ByNonceConsumer(nonces: seq<Nonce>, nonce: Str, consumerKey: Str): (r: Result<Nonce>)
    ensures r.Ok? ==> r.value == Nonce(nonce, consumerKey) && r.value in nonces
    ensures r.Err? <==> Nonce(nonce, consumerKey) !in nonces
    ensures r.Err? ==> r.exc == SQLObjectNotFound("")
    decreases |nonces|
  {
    if nonces == [] then Err(SQLObjectNotFound(""))
    else if nonces[0] == Nonce(nonce, consumerKey) then Ok(nonces[0])
    else ByNonceConsumer(nonces[1..], nonce, consumerKey)
  }

  /** The integer type a token type name of the OAuth library stands for. */
  function TokenTypeCode(tokenType: Str): (r: Option<int>)
    ensures r.Some? <==> tokenType == "request" || tokenType == "access"
    ensures r.Some? ==> (r.value == TokenRequest <==> tokenType == "request")
  {
    if tokenType == "request" then Some(TokenRequest)
    else if tokenType == "access" then Some(TokenAccess)
    else None
  }

  /** `OAuthDataStore` over the token and nonce tables. */
  class DataStore {
    var tokens: seq<Token>
    var nonces: seq<Nonce>

    /** Rows are distinct objects, and `key` is unique. */
    ghost predicate Valid()
      reads this, tokens
    {
      forall i, j :: 0 <= i < j < |tokens| ==> tokens[i] != tokens[j] && tokens[i].key != tokens[j].key
    }

    constructor (tokens: seq<Token>, nonces: seq<Nonce>)
      requires forall i, j :: 0 <= i < j < |tokens| ==> tokens[i] != tokens[j] && tokens[i].key != tokens[j].key
      ensures Valid() && this.tokens == tokens && this.nonces == nonces
    {
      this.tokens := tokens;
      this.nonces := nonces;
    }

    /** `lookup_consumer`: the consumer with that key, None when no token has it. */
    function LookupConsumer(key: Str): (r: Option<Consumer>)
      reads this, tokens
      ensures r.None? <==> forall i :: 0 <= i < |tokens| ==> tokens[i].key != key
      ensures r.Some? ==> exists i :: 0 <= i < |tokens| && tokens[i].key == key &&
                                      r.value == Consumer(key, tokens[i].secret, tokens[i].user)
    {
      var i := FindKey(tokens, key);
      if i == -1 then None else Some(Consumer(tokens[i].key, tokens[i].secret, tokens[i].user))
    }

    /** `lookup_token` as written: the token type it is given plays no part. */
    function LookupTokenAsWritten(tokenType: Str, key: Str): (r: Option<OAuthToken>)
      reads this, tokens
      ensures r.None? <==> forall i :: 0 <= i < |tokens| ==> tokens[i].key != key
      ensures r.Some? ==> r.value.key == key
    {
      var i := FindKey(tokens, key);
      if i == -1 then None else Some(OAuthToken(tokens[i].key, tokens[i].secret))
    }

    /** `lookup_token` returning only a token of the type asked for. */
    function LookupToken(tokenType: Str, key: Str): (r: Option<OAuthToken>)
      requires Valid()
      reads this, tokens
      ensures r.Some? <==> exists i :: 0 <= i < |tokens| && tokens[i].key == key &&
                                       TokenTypeCode(tokenType) == Some(tokens[i].tokenType)
      ensures r.Some? ==> r == LookupTokenAsWritten(tokenType, key)
    {
      var i := FindKey(tokens, key);
      if i == -1 || TokenTypeCode(tokenType) != Some(tokens[i].tokenType) then None
      else Some(OAuthToken(tokens[i].key, tokens[i].secret))
    }

    /**
     * As written, the key of a request token that was never authorized, or
     * of a consumer's own API token, is accepted as an access token.
     */
    lemma RequestTokenPassesAsAccess(key: Str)
      requires Valid()
      requires exists i :: 0 <= i < |tokens| && tokens[i].key == key && tokens[i].tokenType != TokenAccess
      ensures LookupTokenAsWritten("access", key).Some?
      ensures LookupToken("access", key).None?
    {
      var i :| 0 <= i < |tokens| && tokens[i].key == key && tokens[i].tokenType != TokenAccess;
      assert FindKey(tokens, key) == i;
    }

    /** `lookup_nonce`: the nonce when the consumer has used it, None otherwise. */
    function LookupNonce(consumerKey: Str, nonce: Str): (r: Option<Str>)
      reads this
      ensures r.Some? <==> Nonce(nonce, consumerKey) in nonces
      ensures r.Some? ==> r.value == nonce
    {
      match ByNonceConsumer(nonces, nonce, consumerKey)
      case Err(_) => None
      case Ok(row) => Some(row.nonce)
    }

    /**
     * `fetch_request_token`: a new request token owned by the consumer
     * token's user, with its tokenLabel; SQLObjectNotFound for an unknown
     * consumer, IntegrityError when the generated key is taken.
     */
    method FetchRequestToken(consumerKey: Str, newKey: Str, newSecret: Str) returns (r: Result<OAuthToken>)
      requires Valid()
      modifies this
      ensures Valid() && nonces == old(nonces)
      ensures old(FindKey(tokens, consumerKey)) == -1 ==> r == Err(SQLObjectNotFound("")) && tokens == old(tokens)
      ensures old(FindKey(tokens, consumerKey)) != -1 && old(FindKey(tokens, newKey)) != -1 ==>
                r == Err(IntegrityError) && tokens == old(tokens)
      ensures old(FindKey(tokens, consumerKey)) != -1 && old(FindKey(tokens, newKey)) == -1 ==>
                r == Ok(OAuthToken(newKey, newSecret)) &&
                |tokens| == |old(tokens)| + 1 && tokens[..|old(tokens)|] == old(tokens) &&
                var t := tokens[|old(tokens)|];
                fresh(t) && t.key == newKey && t.secret == newSecret && t.tokenType == TokenRequest &&
                t.user == old(tokens[FindKey(tokens, consumerKey)].user) &&
                t.tokenLabel == old(tokens[FindKey(tokens, consumerKey)].tokenLabel) &&
                t.authorized == 0 && t.scopes == "" &&
                FindKey(tokens, newKey) == |old(tokens)|
    {
      var c := FindKey(tokens, consumerKey);
      if c == -1 {
        return Err(SQLObjectNotFound(""));
      }
      var apiToken := tokens[c];
      if FindKey(tokens, newKey) != -1 {
        return Err(IntegrityError);
      }
      var requestToken := new Token(newKey, newSecret, TokenRequest, apiToken.user, apiToken.tokenLabel);
      tokens := tokens + [requestToken];
      NewKeyFound(tokens, newKey);
      r := Ok(OAuthToken(requestToken.key, requestToken.secret));
    }

    /**
     * `authorize_request_token`: only the token's owner may authorize it;
     * None for an unknown token or another user.
     */
    method AuthorizeRequestToken(tokenKey: Str, user: int) returns (r: Option<OAuthToken>)
      requires Valid()
      modifies tokens
      ensures Valid()
      ensures r.None? <==> old(FindKey(tokens, tokenKey)) == -1 || old(tokens[FindKey(tokens, tokenKey)].user) != user
      ensures r.None? ==> forall i :: 0 <= i < |tokens| ==> tokens[i].authorized == old(tokens[i].authorized)
      ensures r.Some? ==> var i := old(FindKey(tokens, tokenKey));
                          0 <= i && tokens[i].authorized == 1 && r.value == OAuthToken(tokenKey, tokens[i].secret)
      ensures forall i :: 0 <= i < |tokens| && i != old(FindKey(tokens, tokenKey)) ==>
                tokens[i].authorized == old(tokens[i].authorized)
      ensures forall i :: 0 <= i < |tokens| ==>
                tokens[i].key == old(tokens[i].key) && tokens[i].secret == old(tokens[i].secret) &&
                tokens[i].tokenType == old(tokens[i].tokenType) && tokens[i].user == old(tokens[i].user)
    {
      var i := FindKey(tokens, tokenKey);
      if i == -1 {
        return None;
      }
      var requestToken := tokens[i];
      if requestToken.user != user {
        return None;
      }
      requestToken.authorized := 1;
      r := Some(OAuthToken(requestToken.key, requestToken.secret));
    }

    /** Row `i`, holding `oldKey`, upgraded to an access token under a key no other row has. */
    method UpgradeRow(i: int, oldKey: Str, newKey: Str, newSecret: Str)
      requires Valid() && 0 <= i < |tokens| && tokens[i].key == oldKey
      requires forall j :: 0 <= j < |tokens| && j != i ==> tokens[j].key != newKey
      modifies tokens[i]
      ensures Valid()
      ensures tokens[i].key == newKey && tokens[i].secret == newSecret && tokens[i].tokenType == TokenAccess
      ensures tokens[i].authorized == old(tokens[i].authorized) && tokens[i].user == old(tokens[i].user) &&
              tokens[i].tokenLabel == old(tokens[i].tokenLabel) && tokens[i].scopes == old(tokens[i].scopes)
      ensures FindKey(tokens, newKey) == i && (newKey != oldKey ==> FindKey(tokens, oldKey) == -1)
      ensures forall j :: 0 <= j < |tokens| && j != i ==>
                tokens[j].key == old(tokens[j].key) && tokens[j].secret == old(tokens[j].secret) &&
                tokens[j].tokenType == old(tokens[j].tokenType) && tokens[j].authorized == old(tokens[j].authorized)
    {
      assert forall j :: 0 <= j < |tokens| && j != i ==> tokens[j] != tokens[i] && tokens[j].key != oldKey;
      tokens[i].Upgrade(newKey, newSecret);
      UpgradedKeyFound(tokens, i, oldKey, newKey);
    }

    /**
     * `fetch_access_token`: an authorized request token is upgraded to an
     * access token under a new key and secret; an unauthorized one gives
     * None. An unknown consumer or token raises SQLObjectNotFound. When
     * the new key is taken, the type is already written when the key
     * update raises IntegrityError.
     */
    method FetchAccessToken(consumerKey: Str, tokenKey: Str, newKey: Str, newSecret: Str)
      returns (r: Result<Option<OAuthToken>>)
      requires Valid()
      modifies tokens
      ensures Valid()
      ensures old(FindKey(tokens, consumerKey)) == -1 || old(FindKey(tokens, tokenKey)) == -1 ==>
                r == Err(SQLObjectNotFound(""))
      ensures r == Ok(None) <==>
                old(FindKey(tokens, consumerKey)) != -1 && old(FindKey(tokens, tokenKey)) != -1 &&
                old(tokens[FindKey(tokens, tokenKey)].authorized) == 0
      ensures r == Err(IntegrityError) <==>
                old(FindKey(tokens, consumerKey)) != -1 && old(FindKey(tokens, tokenKey)) != -1 &&
                old(tokens[FindKey(tokens, tokenKey)].authorized) != 0 &&
                old(FindKey(tokens, newKey)) != -1 && old(FindKey(tokens, newKey)) != old(FindKey(tokens, tokenKey))
      ensures old(FindKey(tokens, consumerKey)) != -1 && old(FindKey(tokens, tokenKey)) != -1 &&
              old(tokens[FindKey(tokens, tokenKey)].authorized) != 0 &&
              (old(FindKey(tokens, newKey)) == -1 || old(FindKey(tokens, newKey)) == old(FindKey(tokens, tokenKey))) ==>
                r == Ok(Some(OAuthToken(newKey, newSecret)))
      ensures r.Ok? && r.value.Some? ==>
                r.value.value == OAuthToken(newKey, newSecret) &&
                FindKey(tokens, newKey) == old(FindKey(tokens, tokenKey)) &&
                tokens[FindKey(tokens, newKey)].tokenType == TokenAccess &&
                tokens[FindKey(tokens, newKey)].secret == newSecret &&
                tokens[FindKey(tokens, newKey)].user == old(tokens[FindKey(tokens, tokenKey)].user) &&
                tokens[FindKey(tokens, newKey)].tokenLabel == old(tokens[FindKey(tokens, tokenKey)].tokenLabel) &&
                tokens[FindKey(tokens, newKey)].authorized == old(tokens[FindKey(tokens, tokenKey)].authorized) &&
                (newKey != tokenKey ==> FindKey(tokens, tokenKey) == -1)
      ensures forall i :: 0 <= i < |tokens| && i != old(FindKey(tokens, tokenKey)) ==>
                tokens[i].key == old(tokens[i].key) && tokens[i].secret == old(tokens[i].secret) &&
                tokens[i].tokenType == old(tokens[i].tokenType) && tokens[i].authorized == old(tokens[i].authorized)
    {
      var c := FindKey(tokens, consumerKey);
      if c == -1 {
        return Err(SQLObjectNotFound(""));
      }
      var i := FindKey(tokens, tokenKey);
      if i == -1 {
        return Err(SQLObjectNotFound(""));
      }
      var requestToken := tokens[i];
      if requestToken.authorized == 0 {
        return Ok(None);
      }
      var other := FindKey(tokens, newKey);
      if other != -1 && other != i {
        requestToken.tokenType := TokenAccess;
        return Err(IntegrityError);
      }
      UpgradeRow(i, tokenKey, newKey, newSecret);
      r := Ok(Some(OAuthToken(requestToken.key, requestToken.secret)));
    }
  }

  /** After appending a row with a key no other row has, `by_key` finds it last. */
  lemma NewKeyFound(ts: seq<Token>, key: Str)
    requires ts != [] && ts[|ts| - 1].key == key
    requires forall i :: 0 <= i < |ts| - 1 ==> ts[i].key != key
    ensures FindKey(ts, key) == |ts| - 1
  {
  }

  /** After row `i` changes from `oldKey` to a key no other row has, `by_key` finds it there and `oldKey` nowhere. */
  lemma UpgradedKeyFound(ts: seq<Token>, i: int, oldKey: Str, newKey: Str)
    requires 0 <= i < |ts| && ts[i].key == newKey
    requires forall j :: 0 <= j < |ts| && j != i ==> ts[j].key != newKey && ts[j].key != oldKey
    ensures FindKey(ts, newKey) == i
    ensures newKey != oldKey ==> FindKey(ts, oldKey) == -1
  {
  }
}
