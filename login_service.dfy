/**
 * The login service's session side: the JWT is kept in the browser's
 * key-value storage under `token`, and the user's roles and display name
 * are read from the token's decoded claims.
 *
 * Decoding is a foreign library: it is a function parameter from the token
 * to its claims, `None` where the library throws.
 */
module LoginService {
  import opened Common

  /** A claim of the decoded token: one string or an array of strings. */
  datatype ClaimValue = Text(text: string) | TextList(items: seq<string>)

  type Claims = map<string, ClaimValue>

  /** The storage key of the token. */
  const TokenKey: string := "token"
  const RoleClaim: string := "http://schemas.microsoft.com/ws/2008/06/identity/claims/role"
  const NameClaim: string := "name"
  const EmailClaim: string := "email"
  const SoapNameClaim: string := "http://schemas.xmlsoap.org/ws/2005/05/identity/claims/name"

  /** JavaScript truthiness of a claim that may be missing: arrays always, strings when non-empty. */
  predicate ClaimTruthy(claims: Claims, key: string) {
    key in claims && (claims[key].TextList? || claims[key].text != "")
  }

  /**
   * `getUserRoles` for a stored token: nothing without a token, when
   * decoding fails or when the role claim is missing or empty; an array
   * claim as it is; a single role as a one-element list.
   */
  function RolesOf(token: Option<string>, decode: string -> Option<Claims>): (roles: seq<string>)
    ensures !Truthy(token) ==> roles == []
    ensures Truthy(token) && decode(token.value).None? ==> roles == []
    ensures Truthy(token) && decode(token.value).Some? && !ClaimTruthy(decode(token.value).value, RoleClaim) ==> roles == []
    ensures Truthy(token) && decode(token.value).Some? && ClaimTruthy(decode(token.value).value, RoleClaim) ==>
      match decode(token.value).value[RoleClaim]
      case TextList(items) => roles == items
      case Text(role) => roles == [role]
  {
    if !Truthy(token) then []
    else match decode(token.value)
      case None => []
      case Some(claims) =>
        if !ClaimTruthy(claims, RoleClaim) then []
        else match claims[RoleClaim]
          case TextList(items) => items
          case Text(role) => [role]
  }

  /** A role is held only when the decoded token's role claim names it. */
  lemma RoleNeedsClaim(token: Option<string>, decode: string -> Option<Claims>, role: string)
    requires role in RolesOf(token, decode)
    ensures Truthy(token) && decode(token.value).Some? && RoleClaim in decode(token.value).value
    ensures var v := decode(token.value).value[RoleClaim];
      (v.Text? && v.text == role && role != "") || (v.TextList? && role in v.items)
  {
  }

  /**
   * `getUserName`: the first truthy claim of `name`, `email` and the
   * xmlsoap name claim; nothing without a token, when decoding fails or
   * when none of the three is truthy.
   */
  function UserNameOf(token: Option<string>, decode: string -> Option<Claims>): (name: Option<ClaimValue>)
    ensures name.Some? <==>
      (Truthy(token) && decode(token.value).Some? &&
       (ClaimTruthy(decode(token.value).value, NameClaim) || ClaimTruthy(decode(token.value).value, EmailClaim) ||
        ClaimTruthy(decode(token.value).value, SoapNameClaim)))
  {
    if !Truthy(token) then None
    else match decode(token.value)
      case None => None
      case Some(claims) =>
        if ClaimTruthy(claims, NameClaim) then Some(claims[NameClaim])
        else if ClaimTruthy(claims, EmailClaim) then Some(claims[EmailClaim])
        else if ClaimTruthy(claims, SoapNameClaim) then Some(claims[SoapNameClaim])
        else None
  }

  /** The fallback order: `name` beats `email`, which beats the xmlsoap name claim. */
  lemma UserNameFallback(token: string, decode: string -> Option<Claims>)
    requires token != "" && decode(token).Some?
    ensures var claims := decode(token).value;
      var name := UserNameOf(Some(token), decode);
      (ClaimTruthy(claims, NameClaim) ==> name == Some(claims[NameClaim])) &&
      (!ClaimTruthy(claims, NameClaim) && ClaimTruthy(claims, EmailClaim) ==> name == Some(claims[EmailClaim])) &&
      (!ClaimTruthy(claims, NameClaim) && !ClaimTruthy(claims, EmailClaim) && ClaimTruthy(claims, SoapNameClaim) ==>
        name == Some(claims[SoapNameClaim]))
  {
  }

  /** The service over the browser's storage. */
  class TokenStore {
    /** `localStorage`. */
    var storage: map<string, string>

    constructor(initial: map<string, string>)
      ensures storage == initial
    {
      storage := initial;
    }

    /** `getToken`. */
    function GetToken(): (token: Option<string>)
      reads this
      ensures token.Some? <==> TokenKey in storage
      ensures token.Some? ==> token.value == storage[TokenKey]
    {
      if TokenKey in storage then Some(storage[TokenKey]) else None
    }

    /** `getUserRoles`, reading the stored token. */
    function UserRoles(decode: string -> Option<Claims>): (roles: seq<string>)
      reads this
      ensures TokenKey !in storage ==> roles == []
    {
      RolesOf(GetToken(), decode)
    }

    /** `getUserName`, reading the stored token. */
    function UserName(decode: string -> Option<Claims>): (name: Option<ClaimValue>)
      reads this
      ensures TokenKey !in storage ==> name.None?
    {
      UserNameOf(GetToken(), decode)
    }

    /** `storeToken`: the token is what `getToken` returns next; other keys are untouched. */
    method StoreToken(token: string)
      modifies this
      ensures GetToken() == Some(token)
      ensures storage == old(storage)[TokenKey := token]
    {
      storage := storage[TokenKey := token];
    }

    /** `logout`: afterwards there is no token, hence no roles and no name; other keys are untouched. */
    method Logout()
      modifies this
      ensures GetToken().None?
      ensures storage == old(storage) - {TokenKey}
      ensures forall decode :: UserRoles(decode) == [] && UserName(decode).None?
    {
      storage := storage - {TokenKey};
    }
  }
}
