/**
 * The Python SDK's credential store: the keychain of named profiles (an INI
 * file read and written through configparser), and an account's token store
 * (a JSON file of tokens per handle and per server), with password login,
 * refresh, the expiry check and the `verify_credentials` decorator.
 *
 * Both files are held in memory as fields; the HTTP session is a function
 * from request to response, and every request made is recorded.
 */
module Accounts {
  import opened Wrappers
  import opened Strings

  const DefaultHq := "https://api.us1.preludesecurity.com"
  /** configparser's section of defaults, never listed among the sections. */
  const DefaultSection := "DEFAULT"
  const DefaultProfile := "default"

  /** The options `configure_keychain` writes, and nothing else. */
  function ProfileEntries(account: string, handle: string, hq: string): (e: map<string, string>)
    ensures e.Keys == {"account", "handle", "hq"}
    ensures e["account"] == account && e["handle"] == handle && e["hq"] == hq
  {
    map["account" := account, "handle" := handle, "hq" := hq]
  }

  datatype KeychainError = ProfileNotFound(profile: string)

  class Keychain {
    /** The named sections of the INI file. */
    var sections: map<string, map<string, string>>
    /** The DEFAULT section: its options show through every other section. */
    var defaults: map<string, string>

    ghost predicate Valid()
      reads this
    {
      DefaultSection !in sections
    }

    /** A keychain whose file did not exist: it is created holding a `default` profile with empty account and handle. */
    constructor Fresh()
      ensures Valid()
      ensures sections == map[DefaultProfile := ProfileEntries("", "", DefaultHq)] && defaults == map[]
    {
      sections := map[];
      defaults := map[];
      new;
      ConfigureKeychain("", "", DefaultHq, DefaultProfile);
    }

    /** A keychain whose file exists, as configparser reads it. */
    constructor Existing(sections: map<string, map<string, string>>, defaults: map<string, string>)
      requires DefaultSection !in sections
      ensures Valid() && this.sections == sections && this.defaults == defaults
    {
      this.sections := sections;
      this.defaults := defaults;
    }

    /**
     * `configure_keychain`: the profile's section becomes exactly account,
     * handle and hq; every other section is left as it was. Naming the
     * DEFAULT section replaces the defaults instead.
     */
    method ConfigureKeychain(account: string, handle: string, hq: string, profile: string)
      requires Valid()
      modifies this
      ensures Valid()
      ensures profile != DefaultSection ==>
        sections == old(sections)[profile := ProfileEntries(account, handle, hq)] && defaults == old(defaults)
      ensures profile == DefaultSection ==>
        defaults == ProfileEntries(account, handle, hq) && sections == old(sections)
    {
      if profile == DefaultSection {
        defaults := ProfileEntries(account, handle, hq);
      } else {
        sections := sections[profile := ProfileEntries(account, handle, hq)];
      }
    }

    /**
     * `get_profile`: a listed section, seen through the defaults; an unknown
     * profile, or the DEFAULT section, which is never listed, is an error.
     */
    function GetProfile(profile: string): (r: Result<map<string, string>, KeychainError>)
      reads this
      ensures r.Success? <==> profile in sections && profile != DefaultSection
      ensures r.Failure? ==> r.error == ProfileNotFound(profile)
      ensures r.Success? ==> r.value.Keys == sections[profile].Keys + defaults.Keys
      ensures r.Success? ==> forall k :: k in sections[profile] ==> r.value[k] == sections[profile][k]
      ensures r.Success? ==> forall k :: k in defaults && k !in sections[profile] ==> r.value[k] == defaults[k]
    {
      if profile in sections && profile != DefaultSection then Success(defaults + sections[profile])
      else Failure(ProfileNotFound(profile))
    }
  }

  // ---------------------------------------------------------------- token store

  /** A JSON value of a token record. */
  datatype Json = JStr(text: string) | JInt(value: int) | JBool(b: bool) | JNull

  /** The JSON object the token endpoint returns and the store keeps. */
  type Record = map<string, Json>

  /** The token file: handle, then server, then record. */
  type TokenStore = map<string, map<string, Record>>

  /** `.get(handle, {}).get(hq, {})`. */
  function Lookup(store: TokenStore, handle: string, hq: string): (r: Record)
    ensures handle in store && hq in store[handle] ==> r == store[handle][hq]
    ensures !(handle in store && hq in store[handle]) ==> r == map[]
  {
    if handle in store && hq in store[handle] then store[handle][hq] else map[]
  }

  /** `_save_new_token`: the record for (handle, hq) is replaced; nothing else changes. */
  function SaveToken(store: TokenStore, handle: string, hq: string, record: Record): (r: TokenStore)
    ensures Lookup(r, handle, hq) == record
    ensures forall h, q :: (h != handle || q != hq) ==> Lookup(r, h, q) == Lookup(store, h, q)
    ensures r.Keys == store.Keys + {handle}
    ensures forall h :: h in store && h != handle ==> r[h] == store[h]
    ensures handle in store ==> r[handle].Keys == store[handle].Keys + {hq}
  {
    var servers := if handle in store then store[handle] else map[];
    store[handle := servers[hq := record]]
  }

  /** Python truthiness of a looked-up JSON value. */
  predicate Truthy(v: Option<Json>) {
    v.Some? &&
    match v.value
    case JStr(s) => s != ""
    case JInt(i) => i != 0
    case JBool(b) => b
    case JNull => false
  }

  function Get(record: Record, key: string): Option<Json> {
    if key in record then Some(record[key]) else None
  }

  datatype AccountError =
    | ProfileNotConfigured(profile: string)
    | LoginFailed(text: string)
    | NoRefreshToken
    | RefreshFailed(text: string)
    | NotLoggedIn
    | MissingExpiry        // KeyError: a token without `expires`
    | UnreadableExpiry     // `float()` refuses the value
    | TokenExpired

  /** `_verify_profile`: a named profile with neither handle nor account is refused. */
  function VerifyProfile(profile: Option<string>, handle: string, account: string): (r: Option<AccountError>)
    ensures r.Some? <==> profile.Some? && profile.value != "" && handle == "" && account == ""
    ensures r.Some? ==> r.value == ProfileNotConfigured(profile.value)
  {
    if profile.Some? && profile.value != "" && handle == "" && account == "" then Some(ProfileNotConfigured(profile.value))
    else None
  }

  /** `float(expires)` for the values a JSON record can hold: integers, booleans and decimal text. */
  function ExpiryOf(v: Json): Option<int> {
    match v
    case JInt(i) => Some(i)
    case JBool(b) => Some(if b then 1 else 0)
    case JStr(s) => ParseInt(s)
    case JNull => None
  }

  /**
   * `get_token` on the record for the account: no token means not logged
   * in; a token whose expiry is before `now` is expired; an expiry equal
   * to `now` is still valid.
   */
  function CheckToken(record: Record, now: real): (r: Result<Json, AccountError>)
    ensures r.Success? <==> "token" in record && "expires" in record && ExpiryOf(record["expires"]).Some?
                            && ExpiryOf(record["expires"]).value as real >= now
    ensures r.Success? ==> r.value == record["token"]
    ensures "token" !in record ==> r == Failure(NotLoggedIn)
    ensures "token" in record && "expires" !in record ==> r == Failure(MissingExpiry)
    ensures "token" in record && "expires" in record && ExpiryOf(record["expires"]).None? ==> r == Failure(UnreadableExpiry)
    ensures ("token" in record && "expires" in record && ExpiryOf(record["expires"]).Some?
             && (ExpiryOf(record["expires"]).value as real) < now) ==> r == Failure(TokenExpired)
  {
    if "token" !in record then Failure(NotLoggedIn)
    else if "expires" !in record then Failure(MissingExpiry)
    else match ExpiryOf(record["expires"])
      case None => Failure(UnreadableExpiry)
      case Some(expires) => if (expires as real) < now then Failure(TokenExpired) else Success(record["token"])
  }

  /** `existing_tokens | response`: keys of the response win, the others are kept. */
  function Merge(existing: Record, response: Record): (m: Record)
    ensures m.Keys == existing.Keys + response.Keys
    ensures forall k :: k in response ==> m[k] == response[k]
    ensures forall k :: k in existing && k !in response ==> m[k] == existing[k]
  {
    existing + response
  }

  /** Python's `str()` of a JSON value. */
  function Render(v: Json): string {
    match v
    case JStr(s) => s
    case JInt(i) => IntToString(i)
    case JBool(b) => if b then "True" else "False"
    case JNull => "None"
  }

  const BearerPrefix := "Bearer "

  /** The headers after `verify_credentials`: authorization set (or overridden), nothing else changed. */
  function WithBearer(headers: map<string, string>, token: Json): (h: map<string, string>)
    ensures h.Keys == headers.Keys + {"authorization"}
    ensures h["authorization"] == BearerPrefix + Render(token)
    ensures forall k :: k in headers && k != "authorization" ==> h[k] == headers[k]
  {
    headers["authorization" := BearerPrefix + Render(token)]
  }

  /** The header carries a text token verbatim after the prefix. */
  lemma BearerCarriesToken(headers: map<string, string>, token: string)
    ensures WithBearer(headers, JStr(token))["authorization"][|BearerPrefix|..] == token
  {
    assert (BearerPrefix + token)[|BearerPrefix|..] == token;
  }

  /** A request to the token endpoint. */
  datatype TokenRequest = TokenRequest(url: string, headers: map<string, string>, body: map<string, Json>)

  datatype Response = Ok(json: Record) | NotOk(text: string)

  function TokenUrl(hq: string): string {
    hq + "/iam/token"
  }

  function PasswordBody(handle: string, password: string): map<string, Json> {
    map["auth_flow" := JStr("password"), "handle" := JStr(handle), "password" := JStr(password)]
  }

  function RefreshBody(handle: string, refreshToken: Json): map<string, Json> {
    map["auth_flow" := JStr("refresh"), "handle" := JStr(handle), "refresh_token" := refreshToken]
  }

  class Account {
    const account: string
    const handle: string
    const hq: string
    const profile: Option<string>
    /** The HTTP session: what the token endpoint answers to each request. */
    const session: TokenRequest -> Response
    var headers: map<string, string>
    /** The token file's contents. */
    var tokens: TokenStore
    /** Every request made to the token endpoint, oldest first. */
    var posts: seq<TokenRequest>
    /** The headers each call through `verify_credentials` ran with. */
    var invocations: seq<map<string, string>>

    /** `stored` is the token file's content, or None when it does not exist yet and is created empty. */
    constructor (account: string, handle: string, hq: string, profile: Option<string>,
                 session: TokenRequest -> Response, stored: Option<TokenStore>)
      ensures this.account == account && this.handle == handle && this.hq == hq
      ensures this.profile == profile && this.session == session
      ensures headers == map["account" := account, "_product" := "py-sdk"]
      ensures tokens == (if stored.None? then map[] else stored.value)
      ensures posts == [] && invocations == []
    {
      this.account := account;
      this.handle := handle;
      this.hq := hq;
      this.profile := profile;
      this.session := session;
      headers := map["account" := account, "_product" := "py-sdk"];
      tokens := if stored.None? then map[] else stored.value;
      posts := [];
      invocations := [];
    }

    method SaveNewToken(record: Record)
      modifies this
      ensures tokens == SaveToken(old(tokens), handle, hq, record)
      ensures headers == old(headers) && posts == old(posts) && invocations == old(invocations)
    {
      var servers := if handle in tokens then tokens[handle] else map[];
      tokens := tokens[handle := servers[hq := record]];
    }

    method Post(request: TokenRequest) returns (response: Response)
      modifies this
      ensures posts == old(posts) + [request] && response == session(request)
      ensures headers == old(headers) && tokens == old(tokens) && invocations == old(invocations)
    {
      posts := posts + [request];
      response := session(request);
    }

    /** `password_login`: on success the response becomes the record for (handle, hq). */
    method PasswordLogin(password: string) returns (error: Option<AccountError>)
      modifies this
      ensures headers == old(headers) && invocations == old(invocations)
      ensures VerifyProfile(profile, handle, account).Some? ==>
        error == VerifyProfile(profile, handle, account) && posts == old(posts) && tokens == old(tokens)
      ensures VerifyProfile(profile, handle, account).None? ==>
        var request := TokenRequest(TokenUrl(hq), old(headers), PasswordBody(handle, password));
        && posts == old(posts) + [request]
        && (session(request).NotOk? ==> error == Some(LoginFailed(session(request).text)) && tokens == old(tokens))
        && (session(request).Ok? ==> error == None && tokens == SaveToken(old(tokens), handle, hq, session(request).json))
    {
      error := VerifyProfile(profile, handle, account);
      if error.Some? {
        return;
      }
      var response := Post(TokenRequest(TokenUrl(hq), headers, PasswordBody(handle, password)));
      if response.NotOk? {
        return Some(LoginFailed(response.text));
      }
      SaveNewToken(response.json);
    }

    /**
     * `refresh_tokens`: needs a truthy refresh token in the stored record;
     * on success the record becomes the stored one merged with the response.
     */
    method RefreshTokens() returns (error: Option<AccountError>)
      modifies this
      ensures headers == old(headers) && invocations == old(invocations)
      ensures VerifyProfile(profile, handle, account).Some? ==>
        error == VerifyProfile(profile, handle, account) && posts == old(posts) && tokens == old(tokens)
      ensures VerifyProfile(profile, handle, account).None? && !Truthy(Get(Lookup(old(tokens), handle, hq), "refresh_token")) ==>
        error == Some(NoRefreshToken) && posts == old(posts) && tokens == old(tokens)
      ensures VerifyProfile(profile, handle, account).None? && Truthy(Get(Lookup(old(tokens), handle, hq), "refresh_token")) ==>
        var existing := Lookup(old(tokens), handle, hq);
        var request := TokenRequest(TokenUrl(hq), old(headers), RefreshBody(handle, existing["refresh_token"]));
        && posts == old(posts) + [request]
        && (session(request).NotOk? ==> error == Some(RefreshFailed(session(request).text)) && tokens == old(tokens))
        && (session(request).Ok? ==>
              error == None && tokens == SaveToken(old(tokens), handle, hq, Merge(existing, session(request).json)))
    {
      error := VerifyProfile(profile, handle, account);
      if error.Some? {
        return;
      }
      var existing := Lookup(tokens, handle, hq);
      var refreshToken := Get(existing, "refresh_token");
      if !Truthy(refreshToken) {
        return Some(NoRefreshToken);
      }
      var response := Post(TokenRequest(TokenUrl(hq), headers, RefreshBody(handle, refreshToken.value)));
      if response.NotOk? {
        return Some(RefreshFailed(response.text));
      }
      SaveNewToken(Merge(existing, response.json));
    }

    /** `get_token` at time `now` (seconds since the epoch, UTC). */
    function GetToken(now: real): Result<Json, AccountError>
      reads this
    {
      CheckToken(Lookup(tokens, handle, hq), now)
    }

    /**
     * A call through `verify_credentials`: the authorization header is set
     * from the current token before `func` runs; when there is no valid
     * token, `func` does not run and the headers are left as they were.
     */
    method VerifyCredentials<T>(now: real, func: map<string, string> -> T) returns (r: Result<T, AccountError>)
      modifies this
      ensures tokens == old(tokens) && posts == old(posts)
      ensures GetToken(now).Failure? ==>
        r == Failure(GetToken(now).error) && headers == old(headers) && invocations == old(invocations)
      ensures GetToken(now).Success? ==>
        && headers == WithBearer(old(headers), GetToken(now).value)
        && invocations == old(invocations) + [headers]
        && r == Success(func(headers))
    {
      var token := GetToken(now);
      if token.Failure? {
        return Failure(token.error);
      }
      headers := WithBearer(headers, token.value);
      invocations := invocations + [headers];
      r := Success(func(headers));
    }
  }

  /**
   * A refresh keeps what the response does not mention: the stored refresh
   * token survives a response without one, and every key of the response
   * replaces the stored value.
   */
  lemma RefreshKeepsRefreshToken(store: TokenStore, handle: string, hq: string, response: Record)
    requires Truthy(Get(Lookup(store, handle, hq), "refresh_token"))
    requires "refresh_token" !in response
    ensures var saved := SaveToken(store, handle, hq, Merge(Lookup(store, handle, hq), response));
      Get(Lookup(saved, handle, hq), "refresh_token") == Get(Lookup(store, handle, hq), "refresh_token")
  {
  }

  /** A freshly saved token with an expiry not before `now` is the one `get_token` returns. */
  lemma SavedTokenIsValid(store: TokenStore, handle: string, hq: string, record: Record, now: real)
    requires "token" in record && "expires" in record && record["expires"].JInt?
    requires record["expires"].value as real >= now
    ensures CheckToken(Lookup(SaveToken(store, handle, hq, record), handle, hq), now) == Success(record["token"])
  {
  }
}
