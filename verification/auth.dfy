/** The credential checks: the chat page's `validateToken` decision and the
    protected route's validation ladder, over a browser storage modelled as
    a map. Decoding a token is the parameter `decode`: the token's claims,
    of which only `exp` (in seconds, possibly absent) matters, or
    `Undecodable` when decoding throws. Parsing the stored
    user is the parameter `parseUser`. The clock is `nowMillis`
    (`Date.now()`); `exp < Date.now() / 1000` is `exp * 1000 < nowMillis`. */
module Auth {
  import opened Base

  type Storage = map<string, string>

  const TOKEN_KEY := "token"
  const USER_KEY := "user"
  const LOGIN_PATH := "/login"

  /** `localStorage.getItem(key)` is truthy: the key is set to a non-empty
      string. */
  predicate Present(s: Storage, key: string) {
    key in s && s[key] != ""
  }

  /** Removing both the token and the stored user. */
  function ClearAuth(s: Storage): (r: Storage)
    ensures TOKEN_KEY !in r && USER_KEY !in r
    ensures forall k :: k in s && k != TOKEN_KEY && k != USER_KEY ==> k in r && r[k] == s[k]
    ensures r.Keys <= s.Keys
  {
    s - {TOKEN_KEY, USER_KEY}
  }

  /** What `jwtDecode` yields: a failure, or claims whose `exp` may be
      missing. */
  datatype Claims = Undecodable | Claims(exp: Option<int>)

  /** `decoded.exp < Date.now() / 1000`. A missing `exp` compares as
      `undefined`, for which `<` is false: such a token never expires. */
  predicate Expired(exp: Option<int>, nowMillis: int) {
    exp.Some? && exp.value * 1000 < nowMillis
  }

  /** The result of `JSON.parse` on the stored user: a parse failure, or an
      object (or `null`) whose `id` may be missing. */
  datatype StoredUser = Unparseable | UserJson(id: Option<Scalar>)

  /** The outcomes of the chat page's `validateToken`. */
  datatype TokenVerdict = TokenOk | NoToken | TokenExpired | TokenInvalid

  /** `validateToken`: no token; a token that fails to decode; an expired
      token; or a valid one. */
  function CheckToken(s: Storage, decode: string -> Claims, nowMillis: int): TokenVerdict {
    if !Present(s, TOKEN_KEY) then NoToken
    else match decode(s[TOKEN_KEY])
      case Undecodable => TokenInvalid
      case Claims(exp) => if Expired(exp, nowMillis) then TokenExpired else TokenOk
  }

  /** The error text `validateToken` reports for each failure. */
  function TokenMessage(v: TokenVerdict): string {
    match v
    case TokenOk => ""
    case NoToken => "No authentication token found. Please log in again."
    case TokenExpired => "Authentication token expired. Please log in again."
    case TokenInvalid => "Invalid authentication token. Please log in again."
  }

  /** `validateToken` clears the storage for an expired or undecodable token,
      but not when the token is missing. */
  predicate TokenClears(v: TokenVerdict) {
    v == TokenExpired || v == TokenInvalid
  }

  /** The outcomes of the protected route's checks, in the order it makes
      them. */
  datatype GuardVerdict = Allow | LoginRequired | BadUser | SessionExpired | BadToken

  /** The protected route's ladder: token and user present; stored user
      parses and has a truthy `id`; token decodes; token not expired. A
      parse failure and a decode failure both land in the catch branch. */
  function Guard(s: Storage, parseUser: string -> StoredUser, decode: string -> Claims, nowMillis: int): GuardVerdict {
    if !Present(s, TOKEN_KEY) || !Present(s, USER_KEY) then LoginRequired
    else match parseUser(s[USER_KEY])
      case Unparseable => BadToken
      case UserJson(id) =>
        if !Truthy(id) then BadUser
        else match decode(s[TOKEN_KEY])
          case Undecodable => BadToken
          case Claims(exp) => if Expired(exp, nowMillis) then SessionExpired else Allow
  }

  /** The toast the protected route shows for each refusal. */
  function GuardMessage(v: GuardVerdict): string {
    match v
    case Allow => ""
    case LoginRequired => "Please log in to access this page"
    case BadUser => "Invalid user data. Please log in again."
    case SessionExpired => "Session expired. Please log in again."
    case BadToken => "Invalid authentication token. Please log in again."
  }

  /** Every refusal except a missing token or user clears the storage. */
  predicate GuardClears(v: GuardVerdict) {
    v == BadUser || v == SessionExpired || v == BadToken
  }

  /** The route lets the user through exactly when the token and the user
      are both present, the user parses with a truthy id, and the token
      decodes to an expiry that has not passed. */
  lemma GuardAllowsIff(s: Storage, parseUser: string -> StoredUser, decode: string -> Claims, nowMillis: int)
    ensures Guard(s, parseUser, decode, nowMillis) == Allow <==>
      && Present(s, TOKEN_KEY) && Present(s, USER_KEY)
      && parseUser(s[USER_KEY]).UserJson? && Truthy(parseUser(s[USER_KEY]).id)
      && decode(s[TOKEN_KEY]).Claims? && !Expired(decode(s[TOKEN_KEY]).exp, nowMillis)
  {
  }

  /** The user's id is checked before the token's expiry: a stored user
      without an id is refused as invalid user data whether or not the
      token is expired or even decodable. */
  lemma GuardChecksIdBeforeExpiry(s: Storage, parseUser: string -> StoredUser, decode: string -> Claims, nowMillis: int)
    requires Present(s, TOKEN_KEY) && Present(s, USER_KEY)
    requires parseUser(s[USER_KEY]).UserJson? && !Truthy(parseUser(s[USER_KEY]).id)
    ensures Guard(s, parseUser, decode, nowMillis) == BadUser
  {
  }

  /** A page the route lets through passes the chat page's own token check
      at the same instant; the converse fails when only the stored user is
      missing or invalid. */
  lemma GuardAllowImpliesTokenOk(s: Storage, parseUser: string -> StoredUser, decode: string -> Claims, nowMillis: int)
    ensures Guard(s, parseUser, decode, nowMillis) == Allow ==> CheckToken(s, decode, nowMillis) == TokenOk
    ensures Present(s, TOKEN_KEY) && !Present(s, USER_KEY) ==>
      Guard(s, parseUser, decode, nowMillis) == LoginRequired && CheckToken(s, decode, nowMillis) != NoToken
  {
  }

  /** A token accepted at some instant is accepted at every earlier one. */
  lemma {:induction false} TokenOkEarlier(s: Storage, decode: string -> Claims, earlier: int, later: int)
    requires earlier <= later
    requires CheckToken(s, decode, later) == TokenOk
    ensures CheckToken(s, decode, earlier) == TokenOk
  {
  }

  /** A token that decodes without an `exp` claim passes both checks at
      every instant. */
  lemma TokenWithoutExpiryNeverExpires(s: Storage, parseUser: string -> StoredUser, decode: string -> Claims, nowMillis: int)
    requires Present(s, TOKEN_KEY) && decode(s[TOKEN_KEY]) == Claims(None)
    ensures CheckToken(s, decode, nowMillis) == TokenOk
    ensures Present(s, USER_KEY) && parseUser(s[USER_KEY]).UserJson? && Truthy(parseUser(s[USER_KEY]).id) ==>
      Guard(s, parseUser, decode, nowMillis) == Allow
  {
  }

  /** The protected route: its effect reads the storage, may clear it, and
      may redirect to the login page with a toast. */
  class ProtectedRoute {
    var storage: Storage
    var location: Option<string>
    var toasts: seq<string>

    constructor (s: Storage)
      ensures storage == s && location == None && toasts == []
    {
      storage := s;
      location := None;
      toasts := [];
    }

    /** The effect's early-return ladder. */
    method CheckAccess(parseUser: string -> StoredUser, decode: string -> Claims, nowMillis: int)
      returns (verdict: GuardVerdict)
      modifies this
      ensures verdict == Guard(old(storage), parseUser, decode, nowMillis)
      ensures storage == if GuardClears(verdict) then ClearAuth(old(storage)) else old(storage)
      ensures location == if verdict == Allow then old(location) else Some(LOGIN_PATH)
      ensures toasts == if verdict == Allow then old(toasts) else old(toasts) + [GuardMessage(verdict)]
    {
      if !Present(storage, TOKEN_KEY) || !Present(storage, USER_KEY) {
        verdict := LoginRequired;
        toasts := toasts + [GuardMessage(verdict)];
        location := Some(LOGIN_PATH);
        return;
      }
      var token := storage[TOKEN_KEY];
      var parsed := parseUser(storage[USER_KEY]);
      if parsed.Unparseable? {
        verdict := BadToken;
      } else if !Truthy(parsed.id) {
        verdict := BadUser;
      } else {
        var claims := decode(token);
        if claims.Undecodable? {
          verdict := BadToken;
        } else if Expired(claims.exp, nowMillis) {
          verdict := SessionExpired;
        } else {
          verdict := Allow;
          return;
        }
      }
      toasts := toasts + [GuardMessage(verdict)];
      storage := ClearAuth(storage);
      location := Some(LOGIN_PATH);
    }
  }
}
