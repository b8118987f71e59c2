/**
 * The token store: three fixed keys in the browser's `localStorage`, which
 * is modelled as a string-to-string map, plus the JWT expiry check.
 *
 * The map functions below (`Read`, `TokensOf`, `WithTokens`, ...) describe
 * what each static method of `TokenStorage` reads or leaves behind; the
 * methods of class `TokenStorage` are proved against them, and the lemmas
 * state the round trips and frames the store promises.
 */
module TokenStore {
  import opened Wrappers
  import opened AuthTypes

  const AccessTokenKey := "euriqo_access_token"
  const RefreshTokenKey := "euriqo_refresh_token"
  const UserKey := "euriqo_user"

  /** The three keys the store owns. */
  const AuthKeys: set<string> := {AccessTokenKey, RefreshTokenKey, UserKey}

  /**
   * `JSON.stringify` and `JSON.parse` for the cached profile, left abstract.
   * `decode` answers `None` for malformed text and for JSON that is not a
   * (truthy) user object.
   */
  datatype UserCodec = UserCodec(encode: User -> string, decode: string -> Option<User>)

  /** The JSON round trip the source relies on: what is written reads back. */
  ghost predicate RoundTrips(codec: UserCodec) {
    forall u :: codec.encode(u) != "" && codec.decode(codec.encode(u)) == Some(u)
  }

  /** The decoded JWT payload; only `exp` matters. `None` is a missing or `null` claim. */
  datatype Claims = Claims(exp: Option<int>)

  // ---------------------------------------------------------------------------
  // What the static methods read from, and write to, the storage map

  /** `localStorage.getItem(key)`, or `null` outside a browser. */
  function Read(m: map<string, string>, browser: bool, key: string): (r: Option<string>)
    ensures r.Some? <==> browser && key in m
  {
    if browser && key in m then Some(m[key]) else None
  }

  /** `getTokens()`: both tokens, or `null` when either is missing or empty. */
  function TokensOf(m: map<string, string>, browser: bool): (r: Option<AuthTokens>)
    ensures r.Some? <==> browser && AccessTokenKey in m && m[AccessTokenKey] != ""
                         && RefreshTokenKey in m && m[RefreshTokenKey] != ""
    ensures r.Some? ==> r.value == AuthTokens(m[AccessTokenKey], m[RefreshTokenKey], None)
  {
    var a := Read(m, browser, AccessTokenKey);
    var t := Read(m, browser, RefreshTokenKey);
    if a.None? || a.value == "" || t.None? || t.value == "" then None
    else Some(AuthTokens(a.value, t.value, None))
  }

  /** `getUser()`: the parsed profile, or `null` when absent, empty or malformed. */
  function UserOf(m: map<string, string>, browser: bool, codec: UserCodec): (r: Option<User>)
    ensures r.Some? ==> browser && UserKey in m && m[UserKey] != ""
  {
    var d := Read(m, browser, UserKey);
    if d.None? || d.value == "" then None else codec.decode(d.value)
  }

  /** `isAuthenticated()`: a non-empty access token is stored. */
  function HasAccessToken(m: map<string, string>, browser: bool): (r: bool)
    ensures r <==> browser && AccessTokenKey in m && m[AccessTokenKey] != ""
  {
    var a := Read(m, browser, AccessTokenKey);
    a.Some? && a.value != ""
  }

  /** The map after `setTokens(t)`. */
  function WithTokens(m: map<string, string>, browser: bool, t: AuthTokens): (r: map<string, string>)
    ensures r.Keys == if browser then m.Keys + {AccessTokenKey, RefreshTokenKey} else m.Keys
    ensures browser ==> r[AccessTokenKey] == t.accessToken && r[RefreshTokenKey] == t.refreshToken
    ensures forall k :: k in m && k != AccessTokenKey && k != RefreshTokenKey ==> r[k] == m[k]
    ensures !browser ==> r == m
  {
    if browser then m[AccessTokenKey := t.accessToken][RefreshTokenKey := t.refreshToken] else m
  }

  /** The map after `setUser(u)`. */
  function WithUser(m: map<string, string>, browser: bool, codec: UserCodec, u: User): (r: map<string, string>)
    ensures r.Keys == if browser then m.Keys + {UserKey} else m.Keys
    ensures browser ==> r[UserKey] == codec.encode(u)
    ensures forall k :: k in m && k != UserKey ==> r[k] == m[k]
    ensures !browser ==> r == m
  {
    if browser then m[UserKey := codec.encode(u)] else m
  }

  /** The map after `clearAll()`. */
  function Cleared(m: map<string, string>, browser: bool): (r: map<string, string>)
    ensures r.Keys == if browser then m.Keys - AuthKeys else m.Keys
    ensures forall k :: k in r ==> r[k] == m[k]
  {
    if browser then m - AuthKeys else m
  }

  // ---------------------------------------------------------------------------
  // JWT payload decoding and expiry

  /** First index at or after `from` that holds `c`. */
  function IndexFrom(s: string, c: char, from: nat): (r: Option<nat>)
    requires from <= |s|
    ensures r.Some? ==> from <= r.value < |s| && s[r.value] == c
    ensures r.Some? ==> forall k :: from <= k < r.value ==> s[k] != c
    ensures r.None? ==> forall k :: from <= k < |s| ==> s[k] != c
    decreases |s| - from
  {
    if from == |s| then None
    else if s[from] == c then Some(from)
    else IndexFrom(s, c, from + 1)
  }

  /** `token.split('.')[1]`: the text between the first and the second dot, if there is a first. */
  function PayloadSegment(token: string): (r: Option<string>)
    ensures r.None? <==> '.' !in token
    ensures r.Some? ==> '.' !in r.value
    ensures r.Some? ==>
      (exists i :: 0 <= i < |token| - |r.value| && token[i] == '.' && '.' !in token[..i]
         && r.value == token[i + 1..i + 1 + |r.value|]
         && (i + 1 + |r.value| == |token| || token[i + 1 + |r.value|] == '.'))
  {
    match IndexFrom(token, '.', 0)
    case None => None
    case Some(i) =>
      assert '.' !in token[..i] by {
        assert forall k :: 0 <= k < i ==> token[..i][k] == token[k];
      }
      match IndexFrom(token, '.', i + 1)
      case None => Some(token[i + 1..])
      case Some(j) => Some(token[i + 1..j])
  }

  function UrlSafeToStandard(c: char): char {
    if c == '-' then '+' else if c == '_' then '/' else c
  }

  /** `.replace(/-/g, '+').replace(/_/g, '/')`: base64url alphabet to base64 (RFC 4648, section 5). */
  function Base64UrlToBase64(seg: string): (r: string)
    ensures |r| == |seg|
    ensures '-' !in r && '_' !in r
    ensures forall k :: 0 <= k < |seg| && seg[k] == '-' ==> r[k] == '+'
    ensures forall k :: 0 <= k < |seg| && seg[k] == '_' ==> r[k] == '/'
    ensures forall k :: 0 <= k < |seg| && seg[k] != '-' && seg[k] != '_' ==> r[k] == seg[k]
  {
    seq(|seg|, k requires 0 <= k < |seg| => UrlSafeToStandard(seg[k]))
  }

  /**
   * `decodeToken(token)`. `parsePayload` stands for `atob`, the
   * percent-decoding and `JSON.parse`, and answers `None` where any of them
   * throws; a token without a dot fails before it is reached.
   */
  function DecodeToken(token: string, parsePayload: string -> Option<Claims>): (r: Option<Claims>)
    ensures '.' !in token ==> r.None?
    ensures '.' in token ==> r == parsePayload(Base64UrlToBase64(PayloadSegment(token).value))
  {
    match PayloadSegment(token)
    case None => None
    case Some(seg) => parsePayload(Base64UrlToBase64(seg))
  }

  /**
   * `isTokenExpired(token)` at `nowMs` milliseconds since the epoch
   * (`Date.now()`). `exp < nowMs / 1000` is written `exp * 1000 < nowMs`,
   * which is the same comparison on integers.
   */
  function IsTokenExpired(token: string, parsePayload: string -> Option<Claims>, nowMs: int): (r: bool)
    ensures !r ==> var d := DecodeToken(token, parsePayload);
      d.Some? && d.value.exp.Some? && d.value.exp.value != 0 && nowMs <= d.value.exp.value * 1000
  {
    var d := DecodeToken(token, parsePayload);
    if d.None? || d.value.exp.None? || d.value.exp.value == 0 then true
    else d.value.exp.value * 1000 < nowMs
  }

  /** `isAccessTokenExpired()`: no (or an empty) access token counts as expired. */
  function AccessTokenExpired(m: map<string, string>, browser: bool, parsePayload: string -> Option<Claims>, nowMs: int): (r: bool)
    ensures !HasAccessToken(m, browser) ==> r
  {
    var a := Read(m, browser, AccessTokenKey);
    if a.None? || a.value == "" then true else IsTokenExpired(a.value, parsePayload, nowMs)
  }

  // ---------------------------------------------------------------------------
  // Properties of the store

  /** Fail-closed expiry: a token that cannot be decoded, or whose `exp` is absent or 0, is expired. */
  lemma ExpiryFailsClosed(token: string, parsePayload: string -> Option<Claims>, nowMs: int)
    requires DecodeToken(token, parsePayload).None?
      || DecodeToken(token, parsePayload).value.exp in {None, Some(0)}
    ensures IsTokenExpired(token, parsePayload, nowMs)
  {
  }

  /**
   * With a clock that reads a whole number of seconds, a decodable token
   * with a non-zero `exp` is expired exactly when `exp < now`; `exp == now`
   * is still valid.
   */
  lemma ExpiryInSeconds(token: string, parsePayload: string -> Option<Claims>, nowSec: int)
    requires DecodeToken(token, parsePayload).Some?
    requires DecodeToken(token, parsePayload).value.exp.Some?
    requires DecodeToken(token, parsePayload).value.exp.value != 0
    ensures IsTokenExpired(token, parsePayload, nowSec * 1000)
        <==> DecodeToken(token, parsePayload).value.exp.value < nowSec
  {
  }

  /** Round trip: after `setTokens(t)`, `getTokens()` gives back both tokens without `expiresIn`, unless one was empty. */
  lemma TokensRoundTrip(m: map<string, string>, t: AuthTokens)
    ensures TokensOf(WithTokens(m, true, t), true)
         == if t.accessToken != "" && t.refreshToken != ""
            then Some(AuthTokens(t.accessToken, t.refreshToken, None))
            else None
  {
  }

  /** Round trip: after `setUser(u)`, `getUser()` gives back `u` when the JSON codec round-trips. */
  lemma UserRoundTrip(m: map<string, string>, codec: UserCodec, u: User)
    requires RoundTrips(codec)
    ensures UserOf(WithUser(m, true, codec, u), true, codec) == Some(u)
  {
    assert codec.encode(u) != "";
  }

  /** `setTokens` touches only the two token keys; `setUser` touches only the user key. */
  lemma WritesAreSeparate(m: map<string, string>, browser: bool, codec: UserCodec, t: AuthTokens, u: User)
    ensures forall k :: k in m && k != AccessTokenKey && k != RefreshTokenKey ==>
      k in WithTokens(m, browser, t) && WithTokens(m, browser, t)[k] == m[k]
    ensures forall k :: k in m && k != UserKey ==>
      k in WithUser(m, browser, codec, u) && WithUser(m, browser, codec, u)[k] == m[k]
    ensures UserOf(WithTokens(m, browser, t), browser, codec) == UserOf(m, browser, codec)
    ensures TokensOf(WithUser(m, browser, codec, u), browser) == TokensOf(m, browser)
  {
  }

  /** `clearAll()` removes exactly the three keys, keeps every other entry, and is idempotent. */
  lemma ClearAllSpec(m: map<string, string>)
    ensures forall k :: k in Cleared(m, true) <==> k in m && k !in AuthKeys
    ensures forall k :: k in Cleared(m, true) ==> Cleared(m, true)[k] == m[k]
    ensures Cleared(Cleared(m, true), true) == Cleared(m, true)
    ensures TokensOf(Cleared(m, true), true).None?
    ensures forall codec :: UserOf(Cleared(m, true), true, codec).None?
    ensures !HasAccessToken(Cleared(m, true), true)
  {
  }

  /** Outside a browser every getter answers `null` and every writer leaves the map alone. */
  lemma NonBrowserInert(m: map<string, string>, codec: UserCodec, t: AuthTokens, u: User, key: string)
    ensures Read(m, false, key).None?
    ensures TokensOf(m, false).None? && UserOf(m, false, codec).None? && !HasAccessToken(m, false)
    ensures WithTokens(m, false, t) == m && WithUser(m, false, codec, u) == m && Cleared(m, false) == m
  {
  }

  // ---------------------------------------------------------------------------
  // The store itself

  /**
   * `TokenStorage`: its static methods over the shared `localStorage`.
   * `items` is the whole of `localStorage` (other keys included); the
   * constants stand for the environment (`typeof window`, the JSON codec,
   * the JWT payload decoder).
   */
  class TokenStorage {
    var items: map<string, string>
    const isBrowser: bool
    const userCodec: UserCodec
    const parsePayload: string -> Option<Claims>

    constructor (browser: bool, initial: map<string, string>, codec: UserCodec, parser: string -> Option<Claims>)
      ensures items == initial && isBrowser == browser
      ensures userCodec == codec && parsePayload == parser
    {
      items := initial;
      isBrowser := browser;
      userCodec := codec;
      parsePayload := parser;
    }

    method SetTokens(tokens: AuthTokens)
      modifies this
      ensures items == WithTokens(old(items), isBrowser, tokens)
    {
      if !isBrowser { return; }
      items := items[AccessTokenKey := tokens.accessToken];
      items := items[RefreshTokenKey := tokens.refreshToken];
    }

    method GetAccessToken() returns (r: Option<string>)
      ensures r == Read(items, isBrowser, AccessTokenKey)
    {
      if !isBrowser { return None; }
      r := if AccessTokenKey in items then Some(items[AccessTokenKey]) else None;
    }

    method GetRefreshToken() returns (r: Option<string>)
      ensures r == Read(items, isBrowser, RefreshTokenKey)
    {
      if !isBrowser { return None; }
      r := if RefreshTokenKey in items then Some(items[RefreshTokenKey]) else None;
    }

    method GetTokens() returns (r: Option<AuthTokens>)
      ensures r == TokensOf(items, isBrowser)
    {
      var accessToken := GetAccessToken();
      var refreshToken := GetRefreshToken();
      if accessToken.None? || accessToken.value == "" || refreshToken.None? || refreshToken.value == "" {
        return None;
      }
      r := Some(AuthTokens(accessToken.value, refreshToken.value, None));
    }

    method SetUser(user: User)
      modifies this
      ensures items == WithUser(old(items), isBrowser, userCodec, user)
    {
      if !isBrowser { return; }
      items := items[UserKey := userCodec.encode(user)];
    }

    method GetUser() returns (r: Option<User>)
      ensures r == UserOf(items, isBrowser, userCodec)
    {
      if !isBrowser { return None; }
      var userData := if UserKey in items then Some(items[UserKey]) else None;
      r := if userData.Some? && userData.value != "" then userCodec.decode(userData.value) else None;
    }

    method ClearAll()
      modifies this
      ensures items == Cleared(old(items), isBrowser)
    {
      if !isBrowser { return; }
      items := items - {AccessTokenKey};
      items := items - {RefreshTokenKey};
      items := items - {UserKey};
    }

    method IsAuthenticated() returns (b: bool)
      ensures b == HasAccessToken(items, isBrowser)
    {
      var token := GetAccessToken();
      b := token.Some? && token.value != "";
    }

    method IsAccessTokenExpired(nowMs: int) returns (b: bool)
      ensures b == AccessTokenExpired(items, isBrowser, parsePayload, nowMs)
    {
      var token := GetAccessToken();
      if token.None? || token.value == "" { return true; }
      b := IsTokenExpired(token.value, parsePayload, nowMs);
    }
  }
}
